/**
 * The few JavaScript string operations the core relies on:
 * `String.prototype.trim` (pairing input) and `String.prototype.includes`
 * (route test for the auto-reconnect), plus the decimal rendering of a
 * count used in the status text.
 */
module JsText {

  /** The characters `trim` removes: ECMAScript WhiteSpace and LineTerminator. */
  predicate IsWhitespace(c: char) {
    || c == ' ' || c == '\t' || c == '\n' || c == '\r'
    || c == '\U{000B}' || c == '\U{000C}' || c == '\U{00A0}' || c == '\U{FEFF}'
    || c == '\U{1680}' || ('\U{2000}' <= c <= '\U{200A}')
    || c == '\U{2028}' || c == '\U{2029}' || c == '\U{202F}' || c == '\U{205F}' || c == '\U{3000}'
  }

  /** Drops leading whitespace. */
  function TrimStart(s: string): (r: string)
    ensures |r| <= |s| && r == s[|s| - |r|..]
    ensures r == [] || !IsWhitespace(r[0])
    ensures forall i :: 0 <= i < |s| - |r| ==> IsWhitespace(s[i])
  {
    if s != [] && IsWhitespace(s[0]) then TrimStart(s[1..]) else s
  }

  /** Drops trailing whitespace. */
  function TrimEnd(s: string): (r: string)
    ensures |r| <= |s| && r == s[..|r|]
    ensures r == [] || !IsWhitespace(r[|r| - 1])
    ensures forall i :: |r| <= i < |s| ==> IsWhitespace(s[i])
  {
    if s != [] && IsWhitespace(s[|s| - 1]) then TrimEnd(s[..|s| - 1]) else s
  }

  /** `r` sits at offset `a` of `s`, and everything of `s` around it is whitespace. */
  predicate PieceAt(s: string, r: string, a: int) {
    && 0 <= a <= |s| - |r| && r == s[a..a + |r|]
    && (forall i :: 0 <= i < a ==> IsWhitespace(s[i]))
    && (forall i :: a + |r| <= i < |s| ==> IsWhitespace(s[i]))
  }

  /**
   * `s.trim()`: the result is a contiguous piece of `s` that neither starts
   * nor ends with whitespace, everything cut away is whitespace, and it is
   * empty exactly when `s` holds nothing but whitespace.
   */
  function Trim(s: string): (r: string)
    ensures |r| <= |s|
    ensures exists a :: PieceAt(s, r, a)
    ensures r != [] ==> !IsWhitespace(r[0]) && !IsWhitespace(r[|r| - 1])
    ensures r == [] <==> forall i :: 0 <= i < |s| ==> IsWhitespace(s[i])
  {
    var t := TrimStart(s);
    var r := TrimEnd(t);
    var a := |s| - |t|;
    assert r == s[a..a + |r|];
    assert forall i :: a + |r| <= i < |s| ==> s[i] == t[i - a];
    assert PieceAt(s, r, a);
    r
  }

  /** `s.includes(t)`: some suffix of `s` starts with `t`. */
  function Contains(s: string, t: string): (b: bool)
    ensures b <==> exists i :: 0 <= i <= |s| && t <= s[i..]
  {
    if t <= s then
      assert t <= s[0..];
      true
    else if s == [] then
      false
    else
      var b := Contains(s[1..], t);
      assert b ==> exists i :: 0 <= i <= |s| && t <= s[i..] by {
        if b {
          var i :| 0 <= i <= |s[1..]| && t <= s[1..][i..];
          assert s[1..][i..] == s[i + 1..];
        }
      }
      assert (exists i :: 0 <= i <= |s| && t <= s[i..]) ==> b by {
        if exists i :: 0 <= i <= |s| && t <= s[i..] {
          var i :| 0 <= i <= |s| && t <= s[i..];
          assert i != 0;
          assert s[1..][i - 1..] == s[i..];
        }
      }
      b
  }

  /** A string in which some character of `t` never occurs does not include `t`. */
  lemma MissingLetterExcludes(s: string, t: string, ch: char)
    requires ch in t && ch !in s
    ensures !Contains(s, t)
  {
  }

  /** The number a string of decimal digits denotes, most significant digit first. */
  function DigitsValue(r: string): nat {
    if r == [] then 0
    else
      var c := r[|r| - 1];
      DigitsValue(r[..|r| - 1]) * 10 + (if '0' <= c <= '9' then c as int - '0' as int else 0)
  }

  /**
   * The decimal digits of `n`, as `${n}` renders a count: digits only, no
   * leading zero unless `n` is 0, and denoting `n`.
   */
  function Decimal(n: nat): (r: string)
    ensures r != []
    ensures forall i :: 0 <= i < |r| ==> '0' <= r[i] <= '9'
    ensures r[0] == '0' ==> n == 0 && r == "0"
    ensures DigitsValue(r) == n
  {
    var d := [(('0' as int) + n % 10) as char];
    if n < 10 then d else Decimal(n / 10) + d
  }
}
