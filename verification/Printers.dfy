/** The number, version and byte printers of PrvtProt_remoteConfig.c. */
module Printers {
  import opened Bytes

  // ---- PP_rmtCfg_ultoa ----

  function DigitChar(d: nat): char
    requires d < 36
  {
    if d < 10 then '0' + d as char else 'a' + (d - 10) as char
  }

  /** The value of a digit, 36 for anything that is none. */
  function DigitValue(c: char): (d: nat)
    ensures d <= 36
  {
    if '0' <= c <= '9' then (c - '0') as nat
    else if 'a' <= c <= 'z' then (c - 'a') as nat + 10
    else 36
  }

  lemma DigitRoundTrip(d: nat)
    requires d < 36
    ensures DigitValue(DigitChar(d)) == d && DigitChar(d) != '.' && DigitChar(d) != '\0'
    ensures DigitChar(d) == '0' <==> d == 0
  {
  }

  predicate Radix(radix: int) {
    2 <= radix <= 36
  }

  /** Reading a numeral, most significant digit first. */
  function ReadNumber(s: seq<char>, radix: int): nat
    requires Radix(radix)
  {
    if s == [] then 0 else ReadNumber(s[..|s| - 1], radix) * radix + DigitValue(s[|s| - 1])
  }

  /** `s` is the numeral of `v`: valid digits, no leading zero except for 0 itself, value `v`. */
  ghost predicate IsNumeral(s: seq<char>, radix: int, v: nat)
    requires Radix(radix)
  {
    && s != []
    && (forall i :: 0 <= i < |s| ==> DigitValue(s[i]) < radix && s[i] != '.' && s[i] != '\0')
    && (s[0] == '0' ==> s == ['0'])
    && ReadNumber(s, radix) == v
  }

  lemma DivFacts(v: nat, radix: int)
    requires Radix(radix)
    ensures 0 <= v % radix < radix && 0 <= v / radix
    ensures v > 0 ==> v / radix < v
    ensures v >= radix ==> v / radix >= 1
    ensures v < radix ==> v / radix == 0 && v % radix == v
    ensures (v / radix) * radix + v % radix == v
  {
    var q, r := v / radix, v % radix;
    assert v == radix * q + r;
    if q < 0 {
      Monotone(radix, q, -1);
    } else if q == 0 {
    } else {
      Monotone(radix, 1, q);
      Monotone(q, 2, radix);
    }
  }

  lemma Monotone(a: int, x: int, y: int)
    requires 0 <= a && x <= y
    ensures a * x <= a * y
  {
  }

  function Digits(v: nat, radix: int): seq<char>
    requires Radix(radix)
    decreases v
  {
    if v < radix then [DigitChar(v)]
    else
      DivFacts(v, radix);
      Digits(v / radix, radix) + [DigitChar(v % radix)]
  }

  lemma ReadSnoc(s: seq<char>, c: char, radix: int)
    requires Radix(radix)
    ensures ReadNumber(s + [c], radix) == ReadNumber(s, radix) * radix + DigitValue(c)
  {
    assert (s + [c])[..|s|] == s;
  }

  lemma NoLeadingZero(s: seq<char>, radix: int, v: nat)
    requires Radix(radix) && IsNumeral(s, radix, v) && v >= 1
    ensures s[0] != '0'
  {
    ReadSnoc([], '0', radix);
    assert [] + ['0'] == ['0'];
  }

  lemma NumeralSnoc(s: seq<char>, radix: int, q: nat, d: nat)
    requires Radix(radix) && IsNumeral(s, radix, q) && q >= 1 && d < radix
    ensures IsNumeral(s + [DigitChar(d)], radix, q * radix + d)
  {
    DigitRoundTrip(d);
    ReadSnoc(s, DigitChar(d), radix);
    NoLeadingZero(s, radix, q);
    var r := s + [DigitChar(d)];
    assert r[0] == s[0];
    assert forall i :: 0 <= i < |s| ==> r[i] == s[i];
  }

  lemma {:induction false} DigitsIsNumeral(v: nat, radix: int)
    requires Radix(radix)
    ensures IsNumeral(Digits(v, radix), radix, v)
    decreases v
  {
    DivFacts(v, radix);
    if v < radix {
      DigitRoundTrip(v);
      ReadSnoc([], DigitChar(v), radix);
      assert [] + [DigitChar(v)] == Digits(v, radix);
    } else {
      DigitsIsNumeral(v / radix, radix);
      NumeralSnoc(Digits(v / radix, radix), radix, v / radix, v % radix);
    }
  }

  function Pow(b: nat, n: nat): nat {
    if n == 0 then 1 else b * Pow(b, n - 1)
  }

  lemma {:induction false} DigitsFit(v: nat, radix: int, b: nat, n: nat)
    requires Radix(radix) && 2 <= b <= radix && n >= 1 && v < Pow(b, n)
    ensures |Digits(v, radix)| <= n
    decreases v
  {
    DivFacts(v, radix);
    if v >= radix {
      assert n > 1 by { assert Pow(b, 1) == b * Pow(b, 0) == b; }
      QuotientBound(v, radix, b, Pow(b, n - 1));
      DigitsFit(v / radix, radix, b, n - 1);
    }
  }

  lemma QuotientBound(v: nat, radix: int, b: nat, p: nat)
    requires Radix(radix) && b <= radix && v < b * p
    ensures v / radix < p
  {
    DivFacts(v, radix);
    if v / radix >= p {
      Monotone(radix, p, v / radix);
      Monotone(p, b, radix);
    }
  }

  /** Two numerals of one value are the same text: the numeral of a value is unique. */
  lemma {:induction false} NumeralIsUnique(s: seq<char>, radix: int, v: nat)
    requires Radix(radix) && IsNumeral(s, radix, v)
    ensures s == Digits(v, radix)
    decreases |s|
  {
    var n := |s| - 1;
    var front, q, d := s[..n], ReadNumber(s[..n], radix), DigitValue(s[n]);
    DivMod(q, d, radix);
    DigitOf(s[n]);
    DivFacts(v, radix);
    assert s == front + [s[n]];
    if front != [] {
      assert front[0] == s[0];
      PositiveValue(front, radix);
      Monotone(radix, 1, q);
      assert v >= radix;
      NumeralIsUnique(front, radix, q);
    }
  }

  lemma DigitOf(c: char)
    requires DigitValue(c) < 36
    ensures DigitChar(DigitValue(c)) == c
  {
  }

  lemma DivMod(q: nat, r: nat, radix: int)
    requires Radix(radix) && r < radix
    ensures (q * radix + r) / radix == q && (q * radix + r) % radix == r
  {
    var v := q * radix + r;
    DivFacts(v, radix);
    var d := q - v / radix;
    Distribute(radix, q, v / radix);
    if d >= 1 {
      Monotone(radix, 1, d);
    } else if d <= -1 {
      Monotone(radix, d, -1);
    }
  }

  lemma Distribute(a: int, x: int, y: int)
    ensures a * (x - y) == x * a - y * a
  {
  }

  lemma SingleDigit(c: char, radix: int)
    requires Radix(radix)
    ensures ReadNumber([c], radix) == DigitValue(c)
  {
    ReadSnoc([], c, radix);
    assert [] + [c] == [c];
  }

  lemma PositiveShift(q: nat, radix: int, d: nat)
    requires Radix(radix) && q >= 1
    ensures q * radix + d >= 1
  {
    Monotone(radix, 1, q);
  }

  lemma {:induction false} PositiveValue(s: seq<char>, radix: int)
    requires Radix(radix) && s != [] && s[0] != '0' && DigitValue(s[0]) < radix
    ensures ReadNumber(s, radix) >= 1
  {
    var front, c := s[..|s| - 1], s[|s| - 1];
    assert s == front + [c];
    if front == [] {
      DigitOf(c);
      SingleDigit(c, radix);
    } else {
      PositiveValue(front, radix);
      PositiveShift(ReadNumber(front, radix), radix, DigitValue(c));
      ReadSnoc(front, c, radix);
    }
  }

  function Reverse(s: seq<char>): (r: seq<char>)
    ensures |r| == |s|
    ensures forall i :: 0 <= i < |s| ==> r[i] == s[|s| - 1 - i]
  {
    if s == [] then [] else [s[|s| - 1]] + Reverse(s[..|s| - 1])
  }

  /** `PP_rmtCfg_ultoa`: refuses a radix outside 2..36 and else writes the numeral and a NUL; the
      32-bit value fits the 33 bytes of `tmp` in every radix. */
  method Ultoa(value: nat, str: array<char>, radix: int) returns (ret: int)
    requires value < 0x1_0000_0000
    requires Radix(radix) ==> |Digits(value, radix)| < str.Length
    modifies str
    ensures ret == if Radix(radix) then 0 else -1
    ensures !Radix(radix) ==> str[..] == old(str[..])
    ensures Radix(radix) ==>
      var n := |Digits(value, radix)|;
      str[..n] == Digits(value, radix) && str[n] == '\0' && str[n + 1..] == old(str[n + 1..])
  {
    var tmp := new char[33](_ => '\0');
    if radix > 36 || radix <= 1 {
      return -1;
    }
    var pos := 0;
    if value != 0 {
      var tp := PeelDigits(value, tmp, radix);
      pos := CopyBack(tmp, tp, str, Digits(value, radix));
    } else {
      str[pos] := '0';
      pos := pos + 1;
    }
    str[pos] := '\0';
    ret := 0;
  }

  /** The first loop of `PP_rmtCfg_ultoa`: the digits, least significant first, go to `tmp`. */
  method PeelDigits(value0: nat, tmp: array<char>, radix: int) returns (tp: nat)
    requires 0 < value0 < 0x1_0000_0000 && Radix(radix) && tmp.Length == 33
    modifies tmp
    ensures tp == |Digits(value0, radix)| <= 32
    ensures Reverse(tmp[..tp]) == Digits(value0, radix)
  {
    PowerOfTwo32();
    DigitsFit(value0, radix, 2, 32);
    ghost var all := Digits(value0, radix);
    tp := 0;
    var value := value0;
    while value != 0
      invariant 0 <= value && tp <= 32
      invariant Peeled(all, value, radix, tmp[..tp])
      decreases value
    {
      PeelMore(all, value, radix, tmp[..tp]);
      var i := value % radix;
      ghost var done := tmp[..tp];
      if i < 10 {
        tmp[tp] := '0' + i as char;
      } else {
        tmp[tp] := (i + 'a' as int - 10) as char;
      }
      value := value / radix;
      tp := tp + 1;
      assert tmp[..tp] == done + [DigitChar(i)];
    }
  }

  /** The characters `t`, read backwards, are the end of the text, and the rest is that of `v`. */
  ghost predicate Peeled(all: seq<char>, v: nat, radix: int, t: seq<char>)
    requires Radix(radix)
  {
    all == Remaining(v, radix) + Reverse(t)
  }

  lemma PeelMore(all: seq<char>, v: nat, radix: int, t: seq<char>)
    requires Radix(radix) && v > 0 && Peeled(all, v, radix, t)
    ensures 0 <= v % radix < radix && 0 <= v / radix < v
    ensures Peeled(all, v / radix, radix, t + [DigitChar(v % radix)])
    ensures |t| < |all|
  {
    LastDigit(v, radix);
    var c := DigitChar(v % radix);
    assert (t + [c])[..|t|] == t;
    assert Reverse(t + [c]) == [c] + Reverse(t);
    Regroup(all, Remaining(v / radix, radix), [c], Reverse(t));
  }

  /** The digits still to be peeled off `v`. */
  function Remaining(v: nat, radix: int): seq<char>
    requires Radix(radix)
  {
    if v == 0 then [] else Digits(v, radix)
  }

  lemma LastDigit(v: nat, radix: int)
    requires Radix(radix) && v > 0
    ensures 0 <= v % radix < radix && 0 <= v / radix < v
    ensures Remaining(v, radix) == Remaining(v / radix, radix) + [DigitChar(v % radix)]
  {
    DivFacts(v, radix);
  }

  /** The second loop of `PP_rmtCfg_ultoa`: `tmp` is copied backwards. */
  method CopyBack(tmp: array<char>, tp0: nat, str: array<char>, ghost text: seq<char>) returns (pos: nat)
    requires tp0 == |text| <= tmp.Length && tp0 < str.Length && tmp != str
    requires Reverse(tmp[..tp0]) == text
    modifies str
    ensures pos == tp0 && str[..tp0] == text && str[tp0..] == old(str[tp0..])
  {
    var tp := tp0;
    pos := 0;
    while tp > 0
      invariant 0 <= tp <= tp0 && pos + tp == tp0
      invariant forall k :: 0 <= k < str.Length ==> str[k] == if k < pos then text[k] else old(str[k])
    {
      tp := tp - 1;
      assert Reverse(tmp[..tp0])[pos] == tmp[tp];
      str[pos] := tmp[tp];
      pos := pos + 1;
    }
  }

  lemma PowerOfTwo32()
    ensures Pow(2, 32) == 0x1_0000_0000
  {
    assert Pow(2, 8) == 256;
    assert Pow(2, 16) == 0x1_0000;
    assert Pow(2, 24) == 0x100_0000;
  }

  // ---- getPP_rmtCfg_cfgVersion ----

  /** The four bytes from `4 * i`, most significant first; the shifted bytes do not overlap, so
      or-ing them is adding them. */
  function Word(cfg: seq<byte>, i: nat): (w: nat)
    requires 4 * i + 3 < |cfg|
    ensures w < 0x1_0000_0000
  {
    cfg[4 * i] as nat * 0x100_0000 + cfg[4 * i + 1] as nat * 0x1_0000
    + cfg[4 * i + 2] as nat * 0x100 + cfg[4 * i + 3] as nat
  }

  function WordBytes(w: nat): seq<int> {
    [w / 0x100_0000, w / 0x1_0000 % 0x100, w / 0x100 % 0x100, w % 0x100]
  }

  lemma FourBytes(a: nat, b: nat, c: nat, d: nat)
    requires a < 256 && b < 256 && c < 256 && d < 256
    ensures WordBytes(a * 0x100_0000 + b * 0x1_0000 + c * 0x100 + d) == [a, b, c, d]
  {
    var w := a * 0x100_0000 + b * 0x1_0000 + c * 0x100 + d;
    assert w / 0x100 == a * 0x1_0000 + b * 0x100 + c;
    assert w / 0x1_0000 == a * 0x100 + b;
  }

  /** The stored bytes as numbers. */
  function Numbers(s: seq<byte>): (r: seq<int>)
    ensures |r| == |s| && forall i :: 0 <= i < |s| ==> r[i] == s[i] as int
  {
    seq(|s|, i requires 0 <= i < |s| => s[i] as int)
  }

  function Words(cfg: seq<byte>): (ws: seq<nat>)
    requires |cfg| == 33
    ensures |ws| == 8 && forall i :: 0 <= i < 8 ==> ws[i] == Word(cfg, i)
  {
    seq(8, i requires 0 <= i < 8 => Word(cfg, i))
  }

  /** The decimal numerals of the words, a '.' between them. */
  function Dotted(ws: seq<nat>): seq<char>
    requires ws != []
  {
    Digits(ws[0], 10) + if |ws| == 1 then [] else ['.'] + Dotted(ws[1..])
  }

  /** The pieces between the dots. */
  function SplitAtDots(s: seq<char>, piece: seq<char> := []): (r: seq<seq<char>>)
    ensures r != []
  {
    if s == [] then [piece]
    else if s[0] == '.' then [piece] + SplitAtDots(s[1..], [])
    else SplitAtDots(s[1..], piece + [s[0]])
  }

  function ReadAll(pieces: seq<seq<char>>): (ws: seq<nat>)
    ensures |ws| == |pieces|
  {
    seq(|pieces|, i requires 0 <= i < |pieces| => ReadNumber(pieces[i], 10))
  }

  lemma {:induction false} SplitFirst(a: seq<char>, piece: seq<char>, rest: seq<char>)
    requires forall i :: 0 <= i < |a| ==> a[i] != '.'
    ensures SplitAtDots(a, piece) == [piece + a]
    ensures SplitAtDots(a + (['.'] + rest), piece) == [piece + a] + SplitAtDots(rest)
  {
    if a == [] {
      assert a + (['.'] + rest) == ['.'] + rest && piece + a == piece;
      assert (['.'] + rest)[1..] == rest;
    } else {
      assert (a + (['.'] + rest))[1..] == a[1..] + (['.'] + rest);
      assert piece + [a[0]] + a[1..] == piece + a;
      SplitFirst(a[1..], piece + [a[0]], rest);
    }
  }

  lemma ReadAllCons(a: seq<char>, ps: seq<seq<char>>)
    ensures ReadAll([a] + ps) == [ReadNumber(a, 10)] + ReadAll(ps)
  {
  }

  /** Splitting the dotted text and reading the pieces recovers the words. */
  lemma {:induction false} DottedRoundTrip(ws: seq<nat>)
    requires ws != []
    ensures ReadAll(SplitAtDots(Dotted(ws))) == ws
  {
    var a := Digits(ws[0], 10);
    DigitsIsNumeral(ws[0], 10);
    assert [] + a == a;
    if |ws| == 1 {
      SplitFirst(a, [], []);
      assert a + [] == a;
      ReadAllCons(a, []);
      assert [a] + [] == [a];
    } else {
      SplitFirst(a, [], Dotted(ws[1..]));
      DottedRoundTrip(ws[1..]);
      ReadAllCons(a, SplitAtDots(Dotted(ws[1..])));
    }
  }

  lemma {:induction false} DottedLength(ws: seq<nat>)
    requires ws != [] && forall i :: 0 <= i < |ws| ==> ws[i] < 0x1_0000_0000
    ensures |Dotted(ws)| <= 11 * |ws| - 1
  {
    assert Pow(10, 10) == 10_000_000_000 by {
      assert Pow(10, 5) == 100_000;
      assert Pow(10, 10) == 10 * (10 * (10 * (10 * (10 * Pow(10, 5)))));
    }
    DigitsFit(ws[0], 10, 10, 10);
    if |ws| > 1 {
      DottedLength(ws[1..]);
    }
  }

  /** The version text of a stored version. */
  function VersionText(cfg: seq<byte>): seq<char>
    requires |cfg| == 33
  {
    Dotted(Words(cfg))
  }

  function VersionBytes(ws: seq<nat>): seq<int> {
    if ws == [] then [] else VersionBytes(ws[..|ws| - 1]) + WordBytes(ws[|ws| - 1])
  }

  lemma VersionBytesSnoc(ws: seq<nat>, w: nat)
    ensures VersionBytes(ws + [w]) == VersionBytes(ws) + WordBytes(w)
  {
    assert (ws + [w])[..|ws|] == ws;
  }

  lemma NumbersAppend(a: seq<byte>, b: seq<byte>)
    ensures Numbers(a + b) == Numbers(a) + Numbers(b)
  {
  }

  lemma WordBack(cfg: seq<byte>, j: nat)
    requires |cfg| == 33 && j < 8
    ensures WordBytes(Words(cfg)[j]) == Numbers(cfg[4 * j..4 * j + 4])
  {
    FourBytes(cfg[4 * j] as nat, cfg[4 * j + 1] as nat, cfg[4 * j + 2] as nat, cfg[4 * j + 3] as nat);
  }

  lemma {:induction false} VersionBytesBack(cfg: seq<byte>, k: nat)
    requires |cfg| == 33 && k <= 8
    ensures VersionBytes(Words(cfg)[..k]) == Numbers(cfg[..4 * k])
  {
    if k > 0 {
      var j := k - 1;
      VersionBytesBack(cfg, j);
      WordBack(cfg, j);
      VersionBytesSnoc(Words(cfg)[..j], Words(cfg)[j]);
      NumbersAppend(cfg[..4 * j], cfg[4 * j..4 * j + 4]);
      assert Words(cfg)[..k] == Words(cfg)[..j] + [Words(cfg)[j]];
      assert cfg[..4 * k] == cfg[..4 * j] + cfg[4 * j..4 * j + 4];
    }
  }

  /** The dotted text is a faithful printing: it gives back all 32 bytes and takes at most 87
      characters. */
  lemma VersionRoundTrip(cfg: seq<byte>)
    requires |cfg| == 33
    ensures VersionBytes(ReadAll(SplitAtDots(VersionText(cfg)))) == Numbers(cfg[..32])
    ensures |VersionText(cfg)| <= 87
  {
    DottedRoundTrip(Words(cfg));
    VersionBytesBack(cfg, 8);
    assert Words(cfg)[..8] == Words(cfg);
    DottedLength(Words(cfg));
  }

  lemma VersionIsInjective(cfg: seq<byte>, other: seq<byte>)
    requires |cfg| == |other| == 33 && VersionText(cfg) == VersionText(other)
    ensures cfg[..32] == other[..32]
  {
    VersionRoundTrip(cfg);
    VersionRoundTrip(other);
    assert forall i :: 0 <= i < 32 ==> Numbers(cfg[..32])[i] == Numbers(other[..32])[i];
  }

  /** The text still to come before word `i`. */
  function TextFrom(ws: seq<nat>, i: nat): seq<char>
    requires i <= |ws|
  {
    if i == |ws| then [] else Dotted(ws[i..])
  }

  /** What word `i` adds. */
  function Piece(ws: seq<nat>, i: nat): seq<char>
    requires i < |ws|
  {
    Digits(ws[i], 10) + if i + 1 < |ws| then ['.'] else []
  }

  lemma TextStep(ws: seq<nat>, i: nat)
    requires i < |ws|
    ensures TextFrom(ws, i) == Piece(ws, i) + TextFrom(ws, i + 1)
  {
    assert ws[i..][1..] == ws[i + 1..];
  }

  /** The text is complete up to word `i`. */
  ghost predicate Printed(ws: seq<nat>, i: nat, head: seq<char>)
    requires i <= |ws| && ws != []
  {
    Dotted(ws) == head + TextFrom(ws, i)
  }

  lemma PrintedMore(ws: seq<nat>, i: nat, head: seq<char>)
    requires i < |ws| && Printed(ws, i, head)
    ensures Printed(ws, i + 1, head + Piece(ws, i)) && |head + Piece(ws, i)| <= |Dotted(ws)|
  {
    TextStep(ws, i);
    Regroup(Dotted(ws), head, Piece(ws, i), TextFrom(ws, i + 1));
  }

  lemma Regroup(whole: seq<char>, head: seq<char>, piece: seq<char>, rest: seq<char>)
    requires whole == head + (piece + rest)
    ensures whole == head + piece + rest && |head + piece| <= |whole|
  {
  }

  lemma PrintedAll(ws: seq<nat>, head: seq<char>)
    requires ws != [] && Printed(ws, |ws|, head)
    ensures head == Dotted(ws)
  {
  }

  /** Writing one character after `head` in a buffer that still holds `was` behind it. */
  lemma WriteNext(head: seq<char>, was: seq<char>, c: char)
    requires |head| < |was|
    ensures (head + was[|head|..])[|head| := c] == head + [c] + was[|head| + 1..]
  {
  }

  /** `getPP_rmtCfg_cfgVersion`: 88 bytes are enough for the text and its NUL. */
  method GetCfgVersion(cfgVersion: array<byte>, ver: array<char>)
    requires cfgVersion.Length == 33 && ver.Length >= 88
    modifies ver
    ensures var text := VersionText(cfgVersion[..]);
      |text| < ver.Length && ver[..] == text + ['\0'] + old(ver[..])[|text| + 1..]
  {
    DottedLength(Words(cfgVersion[..]));
    ghost var was := ver[..];
    var pos := PrintWords(cfgVersion, ver);
    WriteNext(VersionText(cfgVersion[..]), was, '\0');
    ver[pos] := '\0';
  }

  /** The outer loop. */
  method PrintWords(cfgVersion: array<byte>, ver: array<char>) returns (pos: nat)
    requires cfgVersion.Length == 33 && |VersionText(cfgVersion[..])| <= ver.Length
    modifies ver
    ensures pos == |VersionText(cfgVersion[..])|
    ensures ver[..] == VersionText(cfgVersion[..]) + old(ver[..])[pos..]
  {
    ghost var ws, was := Words(cfgVersion[..]), ver[..];
    ghost var head := [];
    pos := 0;
    var i := 0;
    while i < 33 / 4
      invariant 0 <= i <= 8 && pos == |head| <= |Dotted(ws)|
      invariant Printed(ws, i, head)
      invariant ver[..] == head + was[pos..]
    {
      PrintedMore(ws, i, head);
      pos := PutWordAndDot(cfgVersion, i, ver, pos, head, was);
      head := head + Piece(ws, i);
      i := i + 1;
    }
    PrintedAll(ws, head);
  }

  /** One turn of the outer loop. */
  method PutWordAndDot(cfgVersion: array<byte>, i: nat, ver: array<char>, pos0: nat,
                       ghost head: seq<char>, ghost was: seq<char>)
    returns (pos: nat)
    requires cfgVersion.Length == 33 && i < 8
    requires pos0 == |head| && |head + Piece(Words(cfgVersion[..]), i)| <= |was|
    requires ver[..] == head + was[|head|..]
    modifies ver
    ensures var head' := head + Piece(Words(cfgVersion[..]), i);
      pos == |head'| && ver[..] == head' + was[|head'|..]
  {
    ghost var word := Digits(Word(cfgVersion[..], i), 10);
    pos := PutWord(cfgVersion, i, ver, pos0, head, was);
    if i < 7 {
      WriteNext(head + word, was, '.');
      ver[pos] := '.';
      pos := pos + 1;
      assert head + word + ['.'] == head + (word + ['.']);
    }
  }

  /** One word is printed to a cleared buffer and its characters are appended to `ver`. */
  method PutWord(cfgVersion: array<byte>, i: nat, ver: array<char>, pos0: nat,
                 ghost head: seq<char>, ghost was: seq<char>)
    returns (pos: nat)
    requires cfgVersion.Length == 33 && i < 8
    requires pos0 == |head| && |head + Digits(Word(cfgVersion[..], i), 10)| <= |was|
    requires ver[..] == head + was[|head|..]
    modifies ver
    ensures var head' := head + Digits(Word(cfgVersion[..], i), 10);
      pos == |head'| && ver[..] == head' + was[|head'|..]
  {
    var tempVal := cfgVersion[4 * i] as nat * 0x100_0000 + cfgVersion[4 * i + 1] as nat * 0x1_0000
                   + cfgVersion[4 * i + 2] as nat * 0x100 + cfgVersion[4 * i + 3] as nat;
    var stringVal := new char[33](_ => '\0');
    PowerOfTwo32();
    DigitsFit(tempVal, 10, 2, 32);
    DigitsIsNumeral(tempVal, 10);
    var _ := Ultoa(tempVal, stringVal, 10);
    ghost var text := Digits(tempVal, 10);
    assert forall k :: 0 <= k < |text| ==> stringVal[k] == stringVal[..|text|][k];
    pos := AppendText(ver, pos0, stringVal, text, head, was);
  }

  /** The inner loop: the characters before the NUL are appended. */
  method AppendText(ver: array<char>, pos0: nat, stringVal: array<char>,
                    ghost text: seq<char>, ghost head: seq<char>, ghost was: seq<char>)
    returns (pos: nat)
    requires ver != stringVal && |text| < stringVal.Length && stringVal[|text|] == '\0'
    requires forall k :: 0 <= k < |text| ==> stringVal[k] == text[k] && text[k] != '\0'
    requires pos0 == |head| && |head + text| <= |was|
    requires ver[..] == head + was[|head|..]
    modifies ver
    ensures pos == |head + text| && ver[..] == head + text + was[pos..]
  {
    pos := pos0;
    var j := 0;
    while stringVal[j] != '\0'
      invariant 0 <= j <= |text| && pos == |head + text[..j]|
      invariant ver[..] == head + text[..j] + was[pos..]
      decreases |text| - j
    {
      WriteNext(head + text[..j], was, text[j]);
      ver[pos] := stringVal[j];
      assert head + text[..j] + [text[j]] == head + text[..j + 1];
      pos := pos + 1;
      j := j + 1;
    }
    assert text[..j] == text;
  }

  // ---- PP_rmtCfg_HexToStr ----

  function HexDigit(d: nat): (c: byte)
    requires d < 16
    ensures 48 <= c <= 57 || 65 <= c <= 70
  {
    var c := 48 + d;
    (if c > 57 then c + 7 else c) as byte
  }

  function HexValue(c: byte): (d: int) {
    if 48 <= c <= 57 then c as int - 48 else c as int - 55
  }

  /** Two upper-case hexadecimal digits a byte. */
  function HexText(s: seq<byte>): (r: seq<byte>)
    ensures |r| == 2 * |s|
    ensures forall i :: 0 <= i < |r| ==> 48 <= r[i] <= 57 || 65 <= r[i] <= 70
  {
    if s == [] then []
    else HexText(s[..|s| - 1]) + [HexDigit(s[|s| - 1] as nat / 16), HexDigit(s[|s| - 1] as nat % 16)]
  }

  function HexDecode(t: seq<byte>): seq<int> {
    if |t| < 2 then []
    else HexDecode(t[..|t| - 2]) + [16 * HexValue(t[|t| - 2]) + HexValue(t[|t| - 1])]
  }

  lemma HexPair(t: seq<byte>, b: byte)
    ensures HexDecode(t + [HexDigit(b as nat / 16), HexDigit(b as nat % 16)]) == HexDecode(t) + [b as int]
  {
    var h, l := b as nat / 16, b as nat % 16;
    assert 16 * h + l == b as int;
    HexDigitBack(h);
    HexDigitBack(l);
    DecodePair(t, HexDigit(h), HexDigit(l));
  }

  lemma DecodePair(t: seq<byte>, h: byte, l: byte)
    ensures HexDecode(t + [h, l]) == HexDecode(t) + [16 * HexValue(h) + HexValue(l)]
  {
    assert (t + [h, l])[..|t|] == t;
  }

  lemma HexDigitBack(d: nat)
    requires d < 16
    ensures HexValue(HexDigit(d)) == d
  {
  }

  lemma NumbersSnoc(s: seq<byte>, b: byte)
    ensures Numbers(s + [b]) == Numbers(s) + [b as int]
  {
  }

  /** The text decodes to the bytes. */
  lemma {:induction false} HexRoundTrip(s: seq<byte>)
    ensures HexDecode(HexText(s)) == Numbers(s)
  {
    if s != [] {
      var front, b := s[..|s| - 1], s[|s| - 1];
      HexRoundTrip(front);
      HexPair(HexText(front), b);
      assert s == front + [b];
      NumbersSnoc(front, b);
    }
  }

  /** `PP_rmtCfg_HexToStr`. */
  method HexToStr(dest: array<byte>, src: array<byte>, nLen: nat)
    requires dest != src && nLen <= src.Length && 2 * nLen < dest.Length
    modifies dest
    ensures dest[..2 * nLen] == HexText(src[..nLen]) && dest[2 * nLen] == 0
    ensures dest[2 * nLen + 1..] == old(dest[2 * nLen + 1..])
  {
    ghost var was := dest[..];
    var i := 0;
    while i < nLen
      invariant 0 <= i <= nLen
      invariant dest[..2 * i] == HexText(src[..i]) && dest[2 * i..] == was[2 * i..]
    {
      var ddh := 48 + src[i] as int / 16;
      var ddl := 48 + src[i] as int % 16;
      if ddh > 57 { ddh := ddh + 7; }
      if ddl > 57 { ddl := ddl + 7; }
      ghost var head := dest[..2 * i];
      dest[i * 2] := ddh as byte;
      dest[i * 2 + 1] := ddl as byte;
      i := i + 1;
      assert src[..i][..i - 1] == src[..i - 1];
      assert dest[..2 * i] == head + [dest[2 * i - 2], dest[2 * i - 1]];
    }
    dest[nLen * 2] := 0;
  }
}
