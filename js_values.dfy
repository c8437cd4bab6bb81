/**
 * The handful of JavaScript value semantics the repair pass relies on: loosely typed
 * document fields, truthiness, the `||` operator, `String.prototype.trim` and
 * `String.prototype.toLowerCase`.
 */
module JsValues {

  /**
   * A scalar field of a stored document as the script sees it. `Absent` stands for both
   * `undefined` and `null`: every test the pass applies to such a field (`!v`, `typeof v`,
   * `v || d`) treats the two alike. Numbers are exact reals.
   */
  datatype Value = Absent | Bool(b: bool) | Num(n: real) | Str(s: string)

  /** JavaScript truthiness: `!v` is `false` exactly for these values. */
  predicate Truthy(v: Value) {
    match v
    case Absent => false
    case Bool(b) => b
    case Num(n) => n != 0.0
    case Str(s) => s != ""
  }

  /** `a || fallback`: the left operand when it is truthy, the right one otherwise. */
  function Or(a: Value, fallback: Value): (r: Value)
    ensures Truthy(r) <==> Truthy(a) || Truthy(fallback)
    ensures Truthy(a) ==> r == a
    ensures !Truthy(a) ==> r == fallback
    ensures r == a || r == fallback
  {
    if Truthy(a) then a else fallback
  }

  /** The characters ECMAScript's `trim` removes: WhiteSpace (including every Zs character) and LineTerminator. */
  predicate IsJsWhitespace(c: char) {
    || c == '\t' || c == '\n' || c == '\U{B}' || c == '\U{C}' || c == '\r'
    || c == ' ' || c == '\U{A0}' || c == '\U{1680}'
    || ('\U{2000}' <= c <= '\U{200A}')
    || c == '\U{2028}' || c == '\U{2029}' || c == '\U{202F}' || c == '\U{205F}'
    || c == '\U{3000}' || c == '\U{FEFF}'
  }

  predicate AllWhitespace(s: string) {
    forall i :: 0 <= i < |s| ==> IsJsWhitespace(s[i])
  }

  /** Drops the leading whitespace, and only that. */
  function TrimStart(s: string): (r: string)
    ensures |r| <= |s| && r == s[|s| - |r|..]
    ensures AllWhitespace(s[..|s| - |r|])
    ensures r == [] || !IsJsWhitespace(r[0])
  {
    if s != [] && IsJsWhitespace(s[0]) then TrimStart(s[1..]) else s
  }

  /** Drops the trailing whitespace, and only that. */
  function TrimEnd(s: string): (r: string)
    ensures |r| <= |s| && r == s[..|r|]
    ensures AllWhitespace(s[|r|..])
    ensures r == [] || !IsJsWhitespace(r[|r| - 1])
  {
    if s != [] && IsJsWhitespace(s[|s| - 1]) then TrimEnd(s[..|s| - 1]) else s
  }

  /** `s.trim()`. */
  function Trim(s: string): string {
    TrimEnd(TrimStart(s))
  }

  lemma {:induction false} TrimStartEmpty(s: string)
    ensures TrimStart(s) == [] <==> AllWhitespace(s)
  {
    if s == [] {
    } else if IsJsWhitespace(s[0]) {
      TrimStartEmpty(s[1..]);
      assert TrimStart(s) == TrimStart(s[1..]);
      assert AllWhitespace(s) <==> AllWhitespace(s[1..]) by {
        assert forall i :: 1 <= i < |s| ==> s[i] == s[1..][i - 1];
      }
    } else {
      assert TrimStart(s) == s;
      assert !AllWhitespace(s) by {
        assert !IsJsWhitespace(s[0]);
      }
    }
  }

  /** `s.trim() === ''` holds exactly when every character of `s` is whitespace. */
  lemma {:induction false} TrimEmptyIffAllWhitespace(s: string)
    ensures Trim(s) == [] <==> AllWhitespace(s)
  {
    TrimStartEmpty(s);
    var t := TrimStart(s);
    if t != [] {
      // t starts with a character trim keeps, so trimming its end leaves that character
      assert TrimEnd(t) != [] by {
        TrimEndKeepsFirst(t);
      }
    }
  }

  /** A string that starts with a non-whitespace character is not blank. */
  lemma TrimOfFilled(s: string)
    requires s != [] && !IsJsWhitespace(s[0])
    ensures Trim(s) != []
  {
    assert TrimStart(s) == s;
    TrimEndKeepsFirst(s);
  }

  lemma {:induction false} TrimEndKeepsFirst(t: string)
    requires t != [] && !IsJsWhitespace(t[0])
    ensures TrimEnd(t) != []
  {
    if IsJsWhitespace(t[|t| - 1]) {
      assert |t| > 1;
      TrimEndKeepsFirst(t[..|t| - 1]);
    }
  }

  /** `c.toLowerCase()` as far as it can produce an ASCII letter: `A`-`Z`, and the Kelvin sign, which lowers to `k`. */
  function LowerChar(c: char): (r: char)
    ensures 'A' <= c <= 'Z' ==> 'a' <= r <= 'z'
    ensures r != c ==> ('A' <= c <= 'Z' || c == '\U{212A}')
  {
    if 'A' <= c <= 'Z' then (c as int + 32) as char
    else if c == '\U{212A}' then 'k'
    else c
  }

  /** `s.toLowerCase()`, character by character. */
  function LowerCase(s: string): (r: string)
    ensures |r| == |s|
    ensures forall i :: 0 <= i < |s| ==> r[i] == LowerChar(s[i])
  {
    if s == [] then [] else [LowerChar(s[0])] + LowerCase(s[1..])
  }

  /** Lower-casing twice is lower-casing once. */
  lemma {:induction false} LowerCaseIdempotent(s: string)
    ensures LowerCase(LowerCase(s)) == LowerCase(s)
  {
    var once := LowerCase(s);
    var twice := LowerCase(once);
    forall i | 0 <= i < |s| ensures twice[i] == once[i] {
      assert LowerChar(LowerChar(s[i])) == LowerChar(s[i]);
    }
  }
}
