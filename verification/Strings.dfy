/** Text as the source sees it: characters, their UTF-8 bytes, white space and decimal digits. */
module Strings {
  /** The white space that trimming removes: the Unicode property, as the Go library has it. */
  predicate IsSpace(c: char) {
    var n := c as int;
    || 9 <= n <= 13 || n == 0x20 || n == 0x85 || n == 0xA0 || n == 0x1680 || 0x2000 <= n <= 0x200A
    || n == 0x2028 || n == 0x2029 || n == 0x202F || n == 0x205F || n == 0x3000
  }

  predicate Blank(s: string) { forall i :: 0 <= i < |s| ==> IsSpace(s[i]) }

  function Width(c: char): (bytes: nat)
    ensures 1 <= bytes <= 4
  {
    var n := c as int;
    if n < 0x80 then 1 else if n < 0x800 then 2 else if n < 0x1_0000 then 3 else 4
  }

  /** The length of the UTF-8 encoding. */
  function ByteLen(s: string): nat {
    if s == "" then 0 else ByteLen(s[..|s| - 1]) + Width(s[|s| - 1])
  }

  lemma {:induction false} ByteLenOfSum(a: string, b: string)
    ensures ByteLen(a + b) == ByteLen(a) + ByteLen(b)
  {
    if b == "" {
      assert a + b == a;
    } else {
      var m := |b| - 1;
      assert (a + b)[..|a + b| - 1] == a + b[..m];
      ByteLenOfSum(a, b[..m]);
    }
  }

  lemma {:induction false} AsciiBytes(s: string)
    requires forall i :: 0 <= i < |s| ==> s[i] as int < 0x80
    ensures ByteLen(s) == |s|
  {
    if s != "" { AsciiBytes(s[..|s| - 1]); }
  }

  function Digit(d: nat): char
    requires d < 10
  {
    '0' + d as char
  }

  function Itoa(n: nat): (s: string)
    ensures s != ""
  {
    if n < 10 then [Digit(n)] else Itoa(n / 10) + [Digit(n % 10)]
  }

  lemma {:induction false} ItoaInjective(a: nat, b: nat)
    requires Itoa(a) == Itoa(b)
    ensures a == b
  {
    assert Itoa(a)[|Itoa(a)| - 1] == Digit(a % 10) && Itoa(b)[|Itoa(b)| - 1] == Digit(b % 10);
    if a >= 10 && b >= 10 {
      assert Itoa(a)[..|Itoa(a)| - 1] == Itoa(a / 10);
      assert Itoa(b)[..|Itoa(b)| - 1] == Itoa(b / 10);
      ItoaInjective(a / 10, b / 10);
    }
  }
}
