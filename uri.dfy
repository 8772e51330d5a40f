/**
 * JavaScript's `encodeURIComponent`, used by the app-router handler to
 * build the form-urlencoded body it sends to the reCAPTCHA verifier.
 */
module Uri {
  import opened Text

  /** The characters `encodeURIComponent` copies unchanged. */
  predicate Unreserved(c: char) {
    || IsAsciiLetter(c) || IsDigit(c)
    || c == '-' || c == '_' || c == '.' || c == '!' || c == '~' || c == '*' || c == '\'' || c == '(' || c == ')'
  }

  predicate AllUnreserved(s: string) {
    forall i :: 0 <= i < |s| ==> Unreserved(s[i])
  }

  /** `[0-9A-F]`, the digits of an escape. */
  predicate IsHexDigit(c: char) {
    ('0' <= c <= '9') || ('A' <= c <= 'F')
  }

  /** The upper-case hexadecimal digit of `n`. */
  function HexDigit(n: int): (c: char)
    requires 0 <= n < 16
    ensures IsHexDigit(c)
    ensures n < 10 ==> c as int == '0' as int + n
    ensures 10 <= n ==> c as int == 'A' as int + (n - 10)
  {
    if n < 10 then ('0' as int + n) as char else ('A' as int + (n - 10)) as char
  }

  /** The UTF-8 bytes of one Unicode scalar value. */
  function Utf8(c: char): (bytes: seq<int>)
    ensures 1 <= |bytes| <= 4
    ensures forall i :: 0 <= i < |bytes| ==> 0 <= bytes[i] < 256
    ensures |bytes| == 1 <==> c as int < 0x80
  {
    var n := c as int;
    if n < 0x80 then [n]
    else if n < 0x800 then [0xC0 + n / 0x40, 0x80 + n % 0x40]
    else if n < 0x1_0000 then [0xE0 + n / 0x1000, 0x80 + (n / 0x40) % 0x40, 0x80 + n % 0x40]
    else [0xF0 + n / 0x4_0000, 0x80 + (n / 0x1000) % 0x40, 0x80 + (n / 0x40) % 0x40, 0x80 + n % 0x40]
  }

  /** `%XX` for each byte, with upper-case hexadecimal digits. */
  function Escape(bytes: seq<int>): (r: string)
    requires forall i :: 0 <= i < |bytes| ==> 0 <= bytes[i] < 256
    ensures |r| == 3 * |bytes|
    ensures forall k :: 0 <= k < |bytes| ==>
      r[3 * k] == '%' && r[3 * k + 1] == HexDigit(bytes[k] / 16) && r[3 * k + 2] == HexDigit(bytes[k] % 16)
    ensures forall i :: 0 <= i < |r| ==> r[i] == '%' || IsHexDigit(r[i])
  {
    if bytes == [] then ""
    else
      var head := ['%', HexDigit(bytes[0] / 16), HexDigit(bytes[0] % 16)];
      var tail := Escape(bytes[1..]);
      var r := head + tail;
      assert forall i | 3 <= i < |r| :: r[i] == tail[i - 3];
      assert forall k | 1 <= k < |bytes| :: r[3 * k] == '%' && bytes[k] == bytes[1..][k - 1] by {
        forall k | 1 <= k < |bytes|
          ensures r[3 * k] == '%' && bytes[k] == bytes[1..][k - 1]
        {
          assert r[3 * k] == tail[3 * (k - 1)];
        }
      }
      r
  }

  /** Every character of `s` is one `encodeURIComponent` may emit. */
  predicate Encoded(s: string) {
    forall i :: 0 <= i < |s| ==> Unreserved(s[i]) || s[i] == '%'
  }

  function EncodeChar(c: char): (r: string)
    ensures Encoded(r)
  {
    if Unreserved(c) then [c]
    else
      Escape(Utf8(c))
  }

  lemma EncodedConcat(a: string, b: string)
    requires Encoded(a) && Encoded(b)
    ensures Encoded(a + b)
  {
    assert forall i :: |a| <= i < |a + b| ==> (a + b)[i] == b[i - |a|];
  }

  /** A reserved character other than `%` never appears in an encoded string. */
  lemma NotEmitted(s: string, c: char)
    requires Encoded(s) && !Unreserved(c) && c != '%'
    ensures c !in s
  {
  }

  /** `encodeURIComponent(s)`: every character of the result is unreserved or a `%` of an escape,
      and a string made only of unreserved characters encodes to itself. */
  function EncodeURIComponent(s: string): (r: string)
    ensures Encoded(r)
    ensures AllUnreserved(s) ==> r == s
  {
    if s == [] then ""
    else
      var head, tail := EncodeChar(s[0]), EncodeURIComponent(s[1..]);
      EncodedConcat(head, tail);
      assert AllUnreserved(s) ==> head == [s[0]] && AllUnreserved(s[1..]);
      head + tail
  }
}
