/** PKCS#7 padding of mid/aes_e/padding.c, the scheme of section 6.3 of RFC 5652. */
module Padding {
  import opened Bytes

  const ERR_PADDING_BAD_INPUT_DATA: int := -0x6100
  const ERR_PADDING_INVALID_PADDING: int := -0x6200

  /** `size_t` of the 32-bit target wraps here. */
  const SIZE_MODULUS: nat := 0x1_0000_0000

  function SizeMinus(a: nat, b: nat): (r: nat)
    requires a < SIZE_MODULUS && b < SIZE_MODULUS
    ensures r < SIZE_MODULUS
    ensures a >= b ==> r == a - b
    ensures a < b ==> r == SIZE_MODULUS - (b - a)
  {
    (a - b) % SIZE_MODULUS
  }

  function Copies(b: byte, n: nat): (r: seq<byte>)
    ensures |r| == n && forall i :: 0 <= i < n ==> r[i] == b
  {
    seq(n, _ => b)
  }

  /** RFC 5652: `n` bytes, each holding `n`, are appended. */
  function Pad(data: seq<byte>, n: nat): (r: seq<byte>)
    requires n < 256
    ensures |r| == |data| + n
  {
    data + Copies(n as byte, n)
  }

  /** The padded texts: some data followed by 1 to 255 bytes that hold their own number. */
  ghost predicate WellPadded(s: seq<byte>) {
    exists d, n: nat | 1 <= n < 256 :: s == Pad(d, n)
  }

  /** The condition the code tests, in terms of the last byte. */
  predicate LastByteCounts(s: seq<byte>)
    requires |s| > 0
  {
    var n := s[|s| - 1] as int;
    1 <= n <= |s| && forall i :: |s| - n <= i < |s| ==> s[i] == s[|s| - 1]
  }

  lemma LastByteDecides(s: seq<byte>)
    requires |s| > 0
    ensures LastByteCounts(s) <==> WellPadded(s)
  {
    if LastByteCounts(s) {
      var n := s[|s| - 1] as int;
      assert s == Pad(s[..|s| - n], n);
    }
    if WellPadded(s) {
      var d, n: nat :| 1 <= n < 256 && s == Pad(d, n);
      assert s[|s| - 1] == n as byte;
    }
  }

  class SizeRef {
    var value: nat
    constructor () {}
  }

  /** `get_pkcs_padding`: for non-empty input the answer is 0 exactly when the input is padded as
      RFC 5652 says, and then the data length is what the padding says; `pad_idx` wraps when the
      last byte exceeds the length, and the call still answers correctly. */
  method GetPkcsPadding(input: array?<byte>, dataLen: SizeRef?) returns (ret: int)
    requires input != null ==> 0 < input.Length < SIZE_MODULUS
    modifies dataLen
    ensures input == null || dataLen == null <==> ret == ERR_PADDING_BAD_INPUT_DATA
    ensures input == null && dataLen != null ==> dataLen.value == old(dataLen.value)
    ensures input != null && dataLen != null ==>
      && (ret == 0 || ret == ERR_PADDING_INVALID_PADDING)
      && (ret == 0 <==> WellPadded(input[..]))
      && dataLen.value == SizeMinus(input.Length, input[input.Length - 1] as int)
    ensures ret == 0 ==>
      dataLen.value <= input.Length
      && input[..] == Pad(input[..dataLen.value], input.Length - dataLen.value)
  {
    if input == null || dataLen == null {
      return ERR_PADDING_BAD_INPUT_DATA;
    }
    var inputLen := input.Length;
    var paddingLen: byte := input[inputLen - 1];
    dataLen.value := SizeMinus(inputLen, paddingLen as int);
    var bad: byte := 0;
    bad := Or(bad, Flag(paddingLen as int > inputLen));
    bad := Or(bad, Flag(paddingLen == 0));
    var padIdx := SizeMinus(inputLen, paddingLen as int);
    ghost var early := bad;
    var i := 0;
    while i < inputLen
      invariant i <= inputLen
      invariant bad == 0 <==> early == 0 && forall j :: padIdx <= j < i ==> input[j] == paddingLen
    {
      bad := Or(bad, Xor(input[i], paddingLen) * Flag(i >= padIdx));
      i := i + 1;
    }
    ret := if bad != 0 then ERR_PADDING_INVALID_PADDING else 0;
    assert bad == 0 <==> LastByteCounts(input[..]);
    LastByteDecides(input[..]);
    if ret == 0 {
      assert input[..] == Pad(input[..dataLen.value], inputLen - dataLen.value);
    }
  }

  /** C's 0-or-1 value of a comparison. */
  function Flag(b: bool): byte {
    if b then 1 else 0
  }

  function Pow2(w: nat): nat {
    if w == 0 then 1 else 2 * Pow2(w - 1)
  }

  /** Bitwise or of two numbers of `w` bits. */
  function OrBits(a: nat, b: nat, w: nat): (r: nat)
    requires a < Pow2(w) && b < Pow2(w)
    ensures r < Pow2(w) && (r == 0 <==> a == 0 && b == 0)
  {
    if w == 0 then 0
    else 2 * OrBits(a / 2, b / 2, w - 1) + if a % 2 == 1 || b % 2 == 1 then 1 else 0
  }

  /** Bitwise exclusive or of two numbers of `w` bits. */
  function XorBits(a: nat, b: nat, w: nat): (r: nat)
    requires a < Pow2(w) && b < Pow2(w)
    ensures r < Pow2(w) && (r == 0 <==> a == b)
  {
    if w == 0 then 0
    else 2 * XorBits(a / 2, b / 2, w - 1) + if a % 2 != b % 2 then 1 else 0
  }

  lemma ByteIsEightBits()
    ensures Pow2(8) == 256
  {
    assert Pow2(4) == 16;
  }

  function Or(a: byte, b: byte): (r: byte)
    ensures r == 0 <==> a == 0 && b == 0
  {
    ByteIsEightBits();
    OrBits(a as nat, b as nat, 8) as byte
  }

  function Xor(a: byte, b: byte): (r: byte)
    ensures r == 0 <==> a == b
  {
    ByteIsEightBits();
    XorBits(a as nat, b as nat, 8) as byte
  }

  /** `add_pkcs_padding` for the pad lengths its byte counter can reach. */
  method AddPkcsPadding(output: array<byte>, outputLen: nat, dataLen: nat)
    requires outputLen < SIZE_MODULUS && dataLen < SIZE_MODULUS
    requires SizeMinus(outputLen, dataLen) < 256
    requires dataLen + SizeMinus(outputLen, dataLen) <= output.Length
    modifies output
    ensures output[..dataLen + SizeMinus(outputLen, dataLen)]
            == Pad(old(output[..dataLen]), SizeMinus(outputLen, dataLen))
    ensures output[dataLen + SizeMinus(outputLen, dataLen)..]
            == old(output[dataLen + SizeMinus(outputLen, dataLen)..])
  {
    var paddingLen := SizeMinus(outputLen, dataLen);
    var i: byte := 0;
    while i as int < paddingLen
      invariant i as int <= paddingLen
      invariant forall k :: 0 <= k < output.Length ==>
        output[k] == if dataLen <= k < dataLen + i as int then paddingLen as byte else old(output[k])
      decreases paddingLen - i as int
    {
      output[dataLen + i as int] := paddingLen as byte;
      i := i + 1;
    }
  }

  /** The byte counter after `k` turns of the add loop. */
  function Counter(k: nat): nat {
    k % 256
  }

  ghost predicate LoopEnds(paddingLen: nat) {
    exists k: nat :: Counter(k) >= paddingLen
  }

  /** The add loop ends exactly for pad lengths below 256: its counter is a byte. */
  lemma AddLoopEnds(paddingLen: nat)
    ensures LoopEnds(paddingLen) <==> paddingLen < 256
  {
    if paddingLen < 256 {
      assert Counter(paddingLen) == paddingLen;
    }
  }

  /** What `get_pkcs_padding` makes of a text. */
  function Unpad(s: seq<byte>): (d: seq<byte>)
    requires |s| > 0 && LastByteCounts(s)
  {
    s[..|s| - s[|s| - 1] as int]
  }

  /** Adding then removing gives the data back exactly for pad lengths 1 to 255 (a pad length of
      0 adds nothing, so what is removed is never nothing). */
  lemma AddThenGet(data: seq<byte>, n: nat)
    requires n < 256 && |data| + n > 0
    ensures LastByteCounts(Pad(data, n)) && Unpad(Pad(data, n)) == data <==> n >= 1
  {
    var s := Pad(data, n);
    if n >= 1 {
      assert s[|s| - 1] == n as byte;
      assert s[..|s| - n] == data;
    } else {
      assert s == data;
    }
  }

  /** Removing then adding gives every accepted text back. */
  lemma GetThenAdd(s: seq<byte>)
    requires |s| > 0 && LastByteCounts(s)
    ensures Pad(Unpad(s), |s| - |Unpad(s)|) == s
  {
  }

  /** So the padding of a text is unique. */
  lemma PadIsInjective(d: seq<byte>, n: nat, e: seq<byte>, m: nat)
    requires 1 <= n < 256 && 1 <= m < 256 && Pad(d, n) == Pad(e, m)
    ensures d == e && n == m
  {
    AddThenGet(d, n);
    AddThenGet(e, m);
  }
}
