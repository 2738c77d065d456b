/**
 * The two string operations the compliance check relies on: Rust's `str::len`, which
 * counts the bytes of the UTF-8 encoding, and `to_uppercase`, modelled for ASCII letters
 * and 'ß'.
 */
module Text {

  predicate IsAscii(c: char) { c as int < 0x80 }

  predicate IsAsciiLower(c: char) { 'a' <= c <= 'z' }

  predicate IsAsciiUpper(c: char) { 'A' <= c <= 'Z' }

  /** Number of bytes the UTF-8 encoding of `c` occupies. */
  function Utf8Width(c: char): (w: nat)
    ensures 1 <= w <= 4
    ensures w == 1 <==> IsAscii(c)
  {
    if c as int < 0x80 then 1
    else if c as int < 0x800 then 2
    else if c as int < 0x1_0000 then 3
    else 4
  }

  /** `str::len`: the length of the UTF-8 encoding of `s`, in bytes. */
  function ByteLen(s: string): (n: nat)
    ensures n >= |s|
    ensures n == |s| <==> forall i :: 0 <= i < |s| ==> IsAscii(s[i])
  {
    if s == [] then 0
    else
      var rest := ByteLen(s[1..]);
      assert forall i :: 1 <= i < |s| ==> s[i] == s[1..][i - 1];
      Utf8Width(s[0]) + rest
  }

  /** Text with no character that upper-casing would change. */
  predicate IsUpperCase(s: string)
  {
    forall i :: 0 <= i < |s| ==> !IsAsciiLower(s[i]) && s[i] != 'ß'
  }

  /** The byte length of a concatenation is the sum of the byte lengths. */
  lemma {:induction false} ByteLenAppend(a: string, b: string)
    ensures ByteLen(a + b) == ByteLen(a) + ByteLen(b)
  {
    if a != [] {
      assert (a + b)[0] == a[0] && (a + b)[1..] == a[1..] + b;
      ByteLenAppend(a[1..], b);
    } else {
      assert a + b == b;
    }
  }

  /**
   * Upper-casing of one character: an ASCII letter becomes its capital, 'ß' becomes "SS",
   * and every other character is left as it is. The UTF-8 length is kept.
   */
  function UpperChar(c: char): (u: string)
    ensures 1 <= |u| <= 2
    ensures IsUpperCase(u)
    ensures ByteLen(u) == Utf8Width(c)
    ensures IsAsciiLower(c) ==> |u| == 1 && IsAsciiUpper(u[0]) && u[0] as int == c as int - 32
    ensures c == 'ß' ==> u == "SS"
    ensures !IsAsciiLower(c) && c != 'ß' ==> u == [c]
  {
    if IsAsciiLower(c) then [(c as int - 32) as char]
    else if c == 'ß' then "SS"
    else [c]
  }

  /** Upper-cases every character of `s`, keeping its length in bytes. */
  function ToUpper(s: string): (r: string)
    ensures |r| >= |s|
    ensures IsUpperCase(r)
    ensures ByteLen(r) == ByteLen(s)
  {
    if s == [] then []
    else
      var head, tail := UpperChar(s[0]), ToUpper(s[1..]);
      ByteLenAppend(head, tail);
      assert forall i :: |head| <= i < |head + tail| ==> (head + tail)[i] == tail[i - |head|];
      head + tail
  }

  /** Text that is already upper case is left unchanged. */
  lemma {:induction false} ToUpperOfUpper(s: string)
    requires IsUpperCase(s)
    ensures ToUpper(s) == s
  {
    if s != [] {
      assert IsUpperCase(s[1..]) by {
        assert forall i :: 0 <= i < |s[1..]| ==> s[1..][i] == s[i + 1];
      }
      ToUpperOfUpper(s[1..]);
      assert s == [s[0]] + s[1..];
    }
  }

  /** Upper-casing twice is the same as upper-casing once. */
  lemma ToUpperIdempotent(s: string)
    ensures ToUpper(ToUpper(s)) == ToUpper(s)
  {
    ToUpperOfUpper(ToUpper(s));
  }

  /** `p` and `q` spell the same text up to letter case. */
  predicate SameIgnoringCase(p: string, q: string)
  {
    |p| == |q| && forall i :: 0 <= i < |p| ==> UpperChar(p[i]) == UpperChar(q[i])
  }

  /** Two spellings that differ only in case upper-case to the same text. */
  lemma {:induction false} SameIgnoringCaseUpper(p: string, q: string)
    requires SameIgnoringCase(p, q)
    ensures ToUpper(p) == ToUpper(q)
    ensures ByteLen(p) == ByteLen(q)
  {
    if p != [] {
      assert SameIgnoringCase(p[1..], q[1..]) by {
        assert forall i :: 0 <= i < |p| - 1 ==> p[1..][i] == p[i + 1] && q[1..][i] == q[i + 1];
      }
      SameIgnoringCaseUpper(p[1..], q[1..]);
      assert UpperChar(p[0]) == UpperChar(q[0]);
    }
  }
}
