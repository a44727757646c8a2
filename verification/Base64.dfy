// The two hand-written Base64 codecs (src/security/jwt_handler.cpp and
// src/security/password_hasher.cpp), RFC 4648 sections 4 and 5.
//
// The loops pack three bytes in a uint32_t with shifts, ors and masks (module Bits); what
// they compute is stated with sums, quotients and remainders.
module Base64 {
  import Bits

  type byte = i: int | 0 <= i < 256
  type sextet = i: int | 0 <= i < 64
  type Table = s: string | |s| == 64 witness seq(64, _ => 'A')

  // kTable, and the alphabet of RFC 4648 section 5.
  const UPPER: string := "ABCDEFGHIJKLMNOPQRSTUVWXYZ"
  const LOWER: string := "abcdefghijklmnopqrstuvwxyz"
  const DIGITS: string := "0123456789"
  const TABLE: Table := UPPER + LOWER + DIGITS + "+/"
  const URL_TABLE: Table := UPPER + LOWER + DIGITS + "-_"

  // The decoders' `dec`: any other character counts as zero.
  function Dec(c: char): sextet {
    if 'A' <= c <= 'Z' then c as int - 'A' as int
    else if 'a' <= c <= 'z' then c as int - 'a' as int + 26
    else if '0' <= c <= '9' then c as int - '0' as int + 52
    else if c == '+' then 62
    else if c == '/' then 63
    else 0
  }

  function UrlChar(c: char): char { if c == '+' then '-' else if c == '/' then '_' else c }

  function StdChar(c: char): char { if c == '-' then '+' else if c == '_' then '/' else c }

  // Letters and digits in sequence, to look the tables up by arithmetic.
  function Run(first: char, n: nat): string
    requires first as int + n <= 128
  {
    seq(n, i requires 0 <= i < n => (first as int + i) as char)
  }

  lemma {:induction false} TableRuns(v: sextet)
    ensures v < 62 ==> TABLE[v] == URL_TABLE[v] == (Run('A', 26) + Run('a', 26) + Run('0', 10))[v]
    ensures TABLE[62] == '+' && TABLE[63] == '/' && URL_TABLE[62] == '-' && URL_TABLE[63] == '_'
  {
    assert Run('A', 26) == UPPER;
    assert Run('a', 26) == LOWER;
    assert Run('0', 10) == DIGITS;
  }

  // What the codecs need from a table.
  ghost predicate Decodes(table: Table) {
    forall v: sextet :: Dec(table[v]) == v && table[v] !in "=-_.$"
  }

  lemma {:induction false} TableDecodes()
    ensures Decodes(TABLE)
    ensures forall v: sextet :: URL_TABLE[v] == UrlChar(TABLE[v]) && URL_TABLE[v] !in "+/=.$"
  {
    forall v: sextet
      ensures Dec(TABLE[v]) == v && TABLE[v] !in "=-_.$"
      ensures URL_TABLE[v] == UrlChar(TABLE[v]) && URL_TABLE[v] !in "+/=.$"
    {
      TableRuns(v);
    }
  }

  // ── What the RFC asks for: character k stands for bits 6k to 6k+5 of the data ──

  function ByteAt(data: seq<byte>, i: nat): byte { if i < |data| then data[i] else 0 }

  // Six of the sixteen bits of two bytes, starting at bit `from`.
  function Cut(first: byte, second: byte, from: nat): sextet {
    var window := first as int * 256 + second;
    match from
    case 0 => window / 1024 % 64
    case 2 => window / 256 % 64
    case 4 => window / 64 % 64
    case _ => window / 16 % 64
  }

  function Sextet(data: seq<byte>, k: nat): sextet {
    Cut(ByteAt(data, 6 * k / 8), ByteAt(data, 6 * k / 8 + 1), 6 * k % 8)
  }

  function CeilDiv(n: nat, d: nat): nat
    requires d > 0
  {
    (n + d - 1) / d
  }

  function Unpadded(table: Table, data: seq<byte>): string {
    seq(CeilDiv(8 * |data|, 6), k requires 0 <= k => table[Sextet(data, k)])
  }

  // Padding fills the last group of four.
  function Padding(table: Table, data: seq<byte>): string {
    seq(4 * CeilDiv(|data|, 3), k requires 0 <= k =>
      if k < CeilDiv(8 * |data|, 6) then table[Sextet(data, k)] else '=')
  }

  function StdText(data: seq<byte>): string { Padding(TABLE, data) }

  function UrlText(data: seq<byte>): string { Unpadded(URL_TABLE, data) }

  // ── Arithmetic of a group ──────────────────────────────────────────────────

  lemma {:induction false} Multiple(k: int, d: int)
    requires d > 0
    ensures (k >= 1 ==> k * d >= d) && (k <= -1 ==> k * d <= -d)
  {
  }

  lemma {:induction false} DivMod(v: int, d: int, q: int, r: int)
    requires d > 0 && 0 <= r < d && v == q * d + r
    ensures v / d == q && v % d == r
  {
    Multiple(q - v / d, d);
    assert (q - v / d) * d == v % d - r;
  }

  // The fields of three packed bytes.
  lemma {:induction false} PackedFields(a: byte, b: byte, c: byte)
    ensures var val: int := a as int * 65536 + b as int * 256 + c;
      && val / 262144 % 64 == a / 4 && val / 4096 % 64 == a % 4 * 16 + b / 16
      && val / 64 % 64 == b % 16 * 4 + c / 64 && val % 64 == c % 64
      && val / 65536 == a && val / 256 % 256 == b && val % 256 == c
  {
    var a1, a0, b1, b0, c1, c0: int := a / 4, a % 4, b / 16, b % 16, c / 64, c % 64;
    var val: int := a as int * 65536 + b as int * 256 + c;
    var x1, x2 := a0 * 16 + b1, b0 * 4 + c1;
    DivMod(val, 64, (a1 * 64 + x1) * 64 + x2, c0);
    DivMod((a1 * 64 + x1) * 64 + x2, 64, a1 * 64 + x1, x2);
    DivMod(val, 4096, a1 * 64 + x1, x2 * 64 + c0);
    DivMod(a1 * 64 + x1, 64, a1, x1);
    DivMod(val, 262144, a1, x1 * 4096 + x2 * 64 + c0);
    DivMod(val, 256, a as int * 256 + b, c);
    DivMod(val, 65536, a, b as int * 256 + c);
    DivMod(a as int * 256 + b, 256, a, b);
  }

  // The four cuts of the windows over four bytes.
  lemma {:induction false} WindowFields(a: byte, b: byte, c: byte, d: byte)
    ensures Cut(a, b, 0) == a / 4 && Cut(a, b, 6) == a % 4 * 16 + b / 16
    ensures Cut(b, c, 4) == b % 16 * 4 + c / 64 && Cut(c, d, 2) == c % 64
  {
    DivMod(a as int * 256 + b, 1024, a / 4, a as int % 4 * 256 + b);
    DivMod(a as int * 256 + b, 16, a as int * 16 + b / 16, b % 16);
    DivMod(a as int * 16 + b / 16, 64, a / 4, a % 4 * 16 + b / 16);
    DivMod(b as int * 256 + c, 64, b as int * 4 + c / 64, c % 64);
    DivMod(b as int * 4 + c / 64, 64, b / 16, b % 16 * 4 + c / 64);
    DivMod(c as int * 256 + d, 256, c, d);
  }

  lemma {:induction false} SextetFields(data: seq<byte>, j: nat)
    ensures var a, b, c := ByteAt(data, 3 * j), ByteAt(data, 3 * j + 1), ByteAt(data, 3 * j + 2);
      && Sextet(data, 4 * j) == a / 4 && Sextet(data, 4 * j + 1) == a % 4 * 16 + b / 16
      && Sextet(data, 4 * j + 2) == b % 16 * 4 + c / 64 && Sextet(data, 4 * j + 3) == c % 64
  {
    hide Cut;
    WindowFields(ByteAt(data, 3 * j), ByteAt(data, 3 * j + 1), ByteAt(data, 3 * j + 2), ByteAt(data, 3 * j + 3));
    DivMod(6 * (4 * j), 8, 3 * j, 0);
    DivMod(6 * (4 * j + 1), 8, 3 * j, 6);
    DivMod(6 * (4 * j + 2), 8, 3 * j + 1, 4);
    DivMod(6 * (4 * j + 3), 8, 3 * j + 2, 2);
  }

  function Packed(data: seq<byte>, i: nat): nat {
    ByteAt(data, i) as int * 65536 + ByteAt(data, i + 1) as int * 256 + ByteAt(data, i + 2)
  }

  lemma {:induction false} PackedSextetsOf(data: seq<byte>, j: nat)
    ensures var val := Packed(data, 3 * j);
      && val / 262144 % 64 == Sextet(data, 4 * j) && val / 4096 % 64 == Sextet(data, 4 * j + 1)
      && val / 64 % 64 == Sextet(data, 4 * j + 2) && val % 64 == Sextet(data, 4 * j + 3)
  {
    SextetFields(data, j);
    PackedFields(ByteAt(data, 3 * j), ByteAt(data, 3 * j + 1), ByteAt(data, 3 * j + 2));
  }

  // The four characters that a group of one to three bytes adds.
  function GroupChars(table: Table, s0: sextet, s1: sextet, s2: sextet, s3: sextet, count: nat): string {
    [table[s0], table[s1], if count > 1 then table[s2] else '=', if count > 2 then table[s3] else '=']
  }

  lemma {:induction false} GroupText(table: Table, data: seq<byte>, j: nat)
    requires 3 * j < |data|
    ensures 4 * j + 4 <= |Padding(table, data)|
    ensures Padding(table, data)[4 * j..4 * j + 4] ==
      GroupChars(table, Sextet(data, 4 * j), Sextet(data, 4 * j + 1), Sextet(data, 4 * j + 2),
                 Sextet(data, 4 * j + 3), |data| - 3 * j)
  {
    var n, text := CeilDiv(8 * |data|, 6), Padding(table, data);
    assert 4 * j + 1 < n;
    assert 4 * j + 2 < n <==> |data| > 3 * j + 1;
    assert 4 * j + 3 < n <==> |data| > 3 * j + 2;
    assert text[4 * j] == table[Sextet(data, 4 * j)];
    assert text[4 * j + 1] == table[Sextet(data, 4 * j + 1)];
  }

  // The same four characters from the packed value, as the loop computes them.
  lemma {:induction false} PackedText(table: Table, data: seq<byte>, j: nat)
    requires 3 * j < |data|
    ensures 4 * j + 4 <= |Padding(table, data)|
    ensures var val := Packed(data, 3 * j);
      Padding(table, data)[4 * j..4 * j + 4] ==
        [table[val / 262144 % 64]] + [table[val / 4096 % 64]]
        + [if 3 * j + 1 < |data| then table[val / 64 % 64] else '=']
        + [if 3 * j + 2 < |data| then table[val % 64] else '=']
  {
    GroupText(table, data, j);
    PackedSextetsOf(data, j);
  }

  // ── The encoders ───────────────────────────────────────────────────────────

  ghost predicate IsPrefix(table: Table, data: seq<byte>, out: string, j: nat) {
    4 * j <= |Padding(table, data)| && out == Padding(table, data)[..4 * j]
  }

  lemma {:induction false} NextGroup(table: Table, data: seq<byte>, before: string, out: string, j: nat)
    requires 3 * j < |data| && IsPrefix(table, data, before, j)
    requires var val := Packed(data, 3 * j);
      out == before + [table[val / 262144 % 64]] + [table[val / 4096 % 64]]
        + [if 3 * j + 1 < |data| then table[val / 64 % 64] else '=']
        + [if 3 * j + 2 < |data| then table[val % 64] else '=']
    ensures IsPrefix(table, data, out, j + 1)
  {
    PackedText(table, data, j);
    var text := Padding(table, data);
    assert text[..4 * j + 4] == text[..4 * j] + text[4 * j..4 * j + 4];
  }

  // The encoding loop of both codecs.
  method EncodeGroups(kTable: Table, data: seq<byte>) returns (out: string)
    ensures out == Padding(kTable, data)
  {
    hide Bits.Or, Bits.And;
    ghost var j: nat := 0;
    out := "";
    var i := 0;
    while i < |data|
      invariant i == 3 * j && |out| == 4 * j
      invariant IsPrefix(kTable, data, out, j)
      invariant i >= |data| ==> j == CeilDiv(|data|, 3)
    {
      var val := data[i] as int * 65536;
      if i + 1 < |data| {
        val := Bits.Or(val, data[i + 1] as int * 256);
      }
      if i + 2 < |data| {
        val := Bits.Or(val, data[i + 2]);
      }
      Bits.PackedBits(ByteAt(data, i), ByteAt(data, i + 1), ByteAt(data, i + 2));
      Bits.PickedBits(val);
      assert val == Packed(data, 3 * j);
      ghost var before := out;
      out := out + [kTable[Bits.And(val / 262144, 0x3F)]];
      out := out + [kTable[Bits.And(val / 4096, 0x3F)]];
      out := out + [if i + 1 < |data| then kTable[Bits.And(val / 64, 0x3F)] else '='];
      out := out + [if i + 2 < |data| then kTable[Bits.And(val, 0x3F)] else '='];
      NextGroup(kTable, data, before, out, j);
      i, j := i + 3, j + 1;
    }
  }

  method B64Encode(data: seq<byte>) returns (out: string)
    ensures out == StdText(data)
  {
    out := EncodeGroups(TABLE, data);
  }

  method Base64UrlEncode(input: seq<byte>) returns (out: string)
    ensures out == UrlText(input)
  {
    out := EncodeGroups(TABLE, input);
    ghost var std := out;
    var i := 0;
    while i < |out|
      invariant 0 <= i <= |out| == |std|
      invariant forall k | 0 <= k < |std| :: out[k] == if k < i then UrlChar(std[k]) else std[k]
    {
      if out[i] == '+' {
        out := out[i := '-'];
      } else if out[i] == '/' {
        out := out[i := '_'];
      }
      i := i + 1;
    }
    TableDecodes();
    ghost var text := UrlText(input);
    assert forall k | 0 <= k < |text| :: text[k] == UrlChar(std[k]) && text[k] != '=';
    while out != "" && out[|out| - 1] == '='
      invariant |text| <= |out| <= |std|
      invariant forall k | 0 <= k < |out| :: out[k] == UrlChar(std[k])
      decreases |out|
    {
      out := out[..|out| - 1];
    }
    assert out == text;
  }

  // ── The decoders ───────────────────────────────────────────────────────────

  function Repacked(s0: sextet, s1: sextet, s2: sextet, s3: sextet): (val: nat)
    ensures val < 0x100_0000
  {
    s0 as int * 262144 + s1 as int * 4096 + s2 as int * 64 + s3
  }

  function Bytes(val: nat, two: bool, three: bool): seq<byte>
    requires val < 0x100_0000
  {
    [val / 65536] + (if two then [val / 256 % 256] else []) + (if three then [val % 256] else [])
  }

  function GroupBytes(g: string): seq<byte>
    requires |g| == 4
  {
    Bytes(Repacked(Dec(g[0]), Dec(g[1]), Dec(g[2]), Dec(g[3])), g[2] != '=', g[3] != '=')
  }

  // Whole groups of four; up to three left-over characters are ignored.
  function Decoded(s: string): seq<byte> {
    if |s| < 4 then [] else GroupBytes(s[..4]) + Decoded(s[4..])
  }

  function Repadded(s: string): string {
    seq(4 * CeilDiv(|s|, 4), k requires 0 <= k => if k < |s| then StdChar(s[k]) else '=')
  }

  function UrlDecoded(s: string): seq<byte> { Decoded(Repadded(s)) }

  lemma {:induction false} DecodedStep(s: string, i: nat)
    requires i + 4 <= |s|
    ensures Decoded(s[i..]) == GroupBytes([s[i], s[i + 1], s[i + 2], s[i + 3]]) + Decoded(s[i + 4..])
  {
    assert s[i..][..4] == [s[i], s[i + 1], s[i + 2], s[i + 3]];
    assert s[i..][4..] == s[i + 4..];
  }

  lemma {:induction false} LeftOver(s: string)
    requires |s| < 4
    ensures Decoded(s) == []
  {
  }

  lemma {:induction false} Append<T>(out: seq<T>, before: seq<T>, group: seq<T>, rest: seq<T>)
    requires out == before + group
    ensures out + rest == before + (group + rest)
  {
  }

  method B64Decode(s: string) returns (out: seq<byte>)
    ensures out == Decoded(s)
  {
    hide Bits.Or, Bits.And, Dec, Decoded;
    out := [];
    var i := 0;
    assert s[0..] == s;
    while i + 3 < |s|
      invariant 0 <= i <= |s|
      invariant out + Decoded(s[i..]) == Decoded(s)
    {
      var val: int := Bits.Or(
        Bits.Or(Bits.Or(Dec(s[i]) as int * 262144, Dec(s[i + 1]) as int * 4096), Dec(s[i + 2]) as int * 64),
        Dec(s[i + 3]));
      Bits.PackedSextets(Dec(s[i]), Dec(s[i + 1]), Dec(s[i + 2]), Dec(s[i + 3]));
      Bits.PickedBits(val);
      ghost var before, group := out, GroupBytes([s[i], s[i + 1], s[i + 2], s[i + 3]]);
      out := out + [val / 65536];
      if s[i + 2] != '=' {
        out := out + [Bits.And(val / 256, 0xFF)];
      }
      if s[i + 3] != '=' {
        out := out + [Bits.And(val, 0xFF)];
      }
      DecodedStep(s, i);
      Append(out, before, group, Decoded(s[i + 4..]));
      i := i + 4;
    }
    LeftOver(s[i..]);
  }

  method Base64UrlDecode(s: string) returns (out: seq<byte>)
    ensures out == UrlDecoded(s)
  {
    var padded := s;
    var i := 0;
    while i < |padded|
      invariant 0 <= i <= |padded| == |s|
      invariant forall k | 0 <= k < |s| :: padded[k] == if k < i then StdChar(s[k]) else s[k]
    {
      if padded[i] == '-' {
        padded := padded[i := '+'];
      } else if padded[i] == '_' {
        padded := padded[i := '/'];
      }
      i := i + 1;
    }
    ghost var text := Repadded(s);
    while |padded| % 4 != 0
      invariant |s| <= |padded| <= |text|
      invariant padded == text[..|padded|]
      decreases |text| - |padded|
    {
      padded := padded + "=";
    }
    assert padded == text;
    out := B64Decode(padded);
  }

  // ── Round trips ────────────────────────────────────────────────────────────

  // The text without its first group is the text of the data without its first bytes.
  lemma {:induction false} TextSplits(table: Table, data: seq<byte>)
    requires data != []
    ensures var rest := if |data| <= 3 then [] else data[3..];
      |Padding(table, data)| >= 4 && Padding(table, data)[4..] == Padding(table, rest)
  {
    hide Cut;
    var rest := if |data| <= 3 then [] else data[3..];
    forall k: nat | k < |Padding(table, rest)|
      ensures Padding(table, data)[k + 4] == Padding(table, rest)[k]
    {
      DivMod(6 * (k + 4), 8, 6 * k / 8 + 3, 6 * k % 8);
      assert Sextet(data, k + 4) == Sextet(rest, k);
    }
  }

  lemma {:induction false} RepackedBytes(a: byte, b: byte, c: byte, two: bool, three: bool)
    ensures var val: int := a as int * 65536 + b as int * 256 + c;
      && Repacked(val / 262144 % 64, val / 4096 % 64, val / 64 % 64, val % 64) == val
      && Bytes(val, two, three) == [a] + (if two then [b] else []) + (if three then [c] else [])
  {
    PackedFields(a, b, c);
  }

  // A padding character decodes as zero, which is what the missing bytes packed.
  lemma {:induction false} PadsAreZero(data: seq<byte>)
    ensures |data| <= 1 ==> Sextet(data, 2) == 0
    ensures |data| <= 2 ==> Sextet(data, 3) == 0
  {
    assert 6 * 2 / 8 == 1 && 6 * 3 / 8 == 2;
  }

  lemma {:induction false} GroupCharsDecode(table: Table, s0: sextet, s1: sextet, s2: sextet, s3: sextet, count: nat)
    requires Decodes(table) && (count <= 1 ==> s2 == 0) && (count <= 2 ==> s3 == 0)
    ensures GroupBytes(GroupChars(table, s0, s1, s2, s3, count)) == Bytes(Repacked(s0, s1, s2, s3), count > 1, count > 2)
  {
    assert table[s2] !in "=-_.$" && table[s3] !in "=-_.$";
  }

  lemma {:induction false} SextetsRepack(data: seq<byte>, two: bool, three: bool)
    ensures Bytes(Repacked(Sextet(data, 0), Sextet(data, 1), Sextet(data, 2), Sextet(data, 3)), two, three) ==
      [ByteAt(data, 0)] + (if two then [ByteAt(data, 1)] else []) + (if three then [ByteAt(data, 2)] else [])
  {
    hide Sextet;
    PackedSextetsOf(data, 0);
    RepackedBytes(ByteAt(data, 0), ByteAt(data, 1), ByteAt(data, 2), two, three);
  }

  lemma {:induction false} FirstBytes(data: seq<byte>)
    requires data != []
    ensures [ByteAt(data, 0)] + (if |data| > 1 then [ByteAt(data, 1)] else []) + (if |data| > 2 then [ByteAt(data, 2)] else [])
      == if |data| <= 3 then data else data[..3]
  {
  }

  lemma {:induction false} FirstGroup(table: Table, data: seq<byte>) returns (s0: sextet, s1: sextet, s2: sextet, s3: sextet)
    requires data != []
    ensures |Padding(table, data)| >= 4
    ensures Padding(table, data)[..4] == GroupChars(table, s0, s1, s2, s3, |data|)
    ensures (|data| <= 1 ==> s2 == 0) && (|data| <= 2 ==> s3 == 0)
    ensures Bytes(Repacked(s0, s1, s2, s3), |data| > 1, |data| > 2) == if |data| <= 3 then data else data[..3]
  {
    hide Sextet, Padding, Bytes, Repacked, ByteAt;
    s0, s1, s2, s3 := Sextet(data, 0), Sextet(data, 1), Sextet(data, 2), Sextet(data, 3);
    FirstBytes(data);
    SextetsRepack(data, |data| > 1, |data| > 2);
    PadsAreZero(data);
    GroupText(table, data, 0);
    assert Padding(table, data)[0..4] == Padding(table, data)[..4];
  }

  lemma {:induction false} GroupRoundTrip(table: Table, data: seq<byte>)
    requires data != [] && Decodes(table)
    ensures |Padding(table, data)| >= 4
    ensures GroupBytes(Padding(table, data)[..4]) == if |data| <= 3 then data else data[..3]
  {
    var s0, s1, s2, s3 := FirstGroup(table, data);
    GroupCharsDecode(table, s0, s1, s2, s3, |data|);
  }

  lemma {:induction false} PaddingRoundTrip(table: Table, data: seq<byte>)
    requires Decodes(table)
    ensures Decoded(Padding(table, data)) == data
    decreases |data|
  {
    if data != [] {
      GroupRoundTrip(table, data);
      TextSplits(table, data);
      PaddingRoundTrip(table, if |data| <= 3 then [] else data[3..]);
    }
  }

  lemma {:induction false} StdRoundTrip(data: seq<byte>)
    ensures Decoded(StdText(data)) == data
  {
    TableDecodes();
    PaddingRoundTrip(TABLE, data);
  }

  lemma {:induction false} RepaddedUnpadded(table: Table, urlTable: Table, data: seq<byte>)
    requires Decodes(table) && forall v: sextet :: urlTable[v] == UrlChar(table[v])
    ensures Repadded(Unpadded(urlTable, data)) == Padding(table, data)
  {
    hide Sextet;
    forall v: sextet ensures StdChar(urlTable[v]) == table[v] {
      assert table[v] !in "=-_.$";
    }
    assert |Unpadded(urlTable, data)| == CeilDiv(8 * |data|, 6);
    assert CeilDiv(CeilDiv(8 * |data|, 6), 4) == CeilDiv(|data|, 3);
  }

  lemma {:induction false} UrlRoundTrip(data: seq<byte>)
    ensures UrlDecoded(UrlText(data)) == data
  {
    TableDecodes();
    RepaddedUnpadded(TABLE, URL_TABLE, data);
    StdRoundTrip(data);
  }

  // Lengths, alphabets and padding of both texts.
  lemma {:induction false} TextShape(data: seq<byte>)
    ensures |StdText(data)| == 4 * CeilDiv(|data|, 3)
    ensures |UrlText(data)| == CeilDiv(4 * |data|, 3)
    ensures forall k | 0 <= k < |UrlText(data)| ::
      StdText(data)[k] in TABLE && UrlText(data)[k] == UrlChar(StdText(data)[k])
    ensures forall k | |UrlText(data)| <= k < |StdText(data)| :: StdText(data)[k] == '='
    ensures 0 <= |StdText(data)| - |UrlText(data)| <= 2
    ensures forall c | c in UrlText(data) :: c in URL_TABLE && c !in "+/=.$"
    ensures forall c | c in StdText(data) :: c !in "-_.$"
  {
    TableDecodes();
  }

  // ── Texts that no encoder made ─────────────────────────────────────────────

  // Groups of four are decoded one by one, and what is left over is ignored.
  lemma {:induction false} DecodedConcat(a: string, b: string)
    requires |a| % 4 == 0
    ensures Decoded(a + b) == Decoded(a) + Decoded(b)
    ensures |b| < 4 ==> Decoded(a + b) == Decoded(a)
    decreases |a|
  {
    hide GroupBytes;
    if a == "" {
      assert a + b == b;
    } else {
      assert (a + b)[..4] == a[..4] && (a + b)[4..] == a[4..] + b;
      DecodedConcat(a[4..], b);
    }
  }

  // A group yields three bytes, less one for each padding character in its last two places.
  lemma {:induction false} GroupLength(g: string)
    requires |g| == 4
    ensures |Decoded(g)| == 1 + (if g[2] == '=' then 0 else 1) + (if g[3] == '=' then 0 else 1)
  {
    hide Dec;
    assert g[..4] == g && g[4..] == "";
  }

  predicate InAlphabet(c: char) { 'A' <= c <= 'Z' || 'a' <= c <= 'z' || '0' <= c <= '9' || c == '+' || c == '/' }

  // Any character outside the alphabet, the padding character apart, reads as 'A'.
  lemma {:induction false} JunkReadsAsA(s: string, i: nat, c: char)
    requires i < |s| && !InAlphabet(c) && c != '='
    ensures Decoded(s[i := c]) == Decoded(s[i := 'A'])
    decreases |s|
  {
    var t, u := s[i := c], s[i := 'A'];
    if |s| >= 4 {
      if i < 4 {
        assert t[4..] == u[4..];
        JunkInGroup(s[..4], i, c);
        assert t[..4] == s[..4][i := c] && u[..4] == s[..4][i := 'A'];
      } else {
        JunkReadsAsA(s[4..], i - 4, c);
        assert t[4..] == s[4..][i - 4 := c] && u[4..] == s[4..][i - 4 := 'A'];
        assert t[..4] == u[..4];
      }
    }
  }

  lemma {:induction false} JunkInGroup(g: string, i: nat, c: char)
    requires |g| == 4 && i < 4 && !InAlphabet(c) && c != '='
    ensures GroupBytes(g[i := c]) == GroupBytes(g[i := 'A'])
  {
    hide Repacked, Bytes;
    assert Dec(c) == 0 == Dec('A');
  }

  // The URL decoder translates the two other characters and supplies the missing padding.
  lemma {:induction false} UrlDecodedLaws(s: string, i: nat)
    ensures |s| % 4 != 0 ==> UrlDecoded(s + "=") == UrlDecoded(s)
    ensures i < |s| ==> UrlDecoded(s[i := '-']) == UrlDecoded(s[i := '+'])
    ensures i < |s| ==> UrlDecoded(s[i := '_']) == UrlDecoded(s[i := '/'])
    ensures |s| % 4 == 0 && '-' !in s && '_' !in s ==> UrlDecoded(s) == Decoded(s)
  {
    hide Decoded;
    if |s| % 4 != 0 {
      assert Repadded(s + "=") == Repadded(s);
    }
    if i < |s| {
      assert Repadded(s[i := '-']) == Repadded(s[i := '+']);
      assert Repadded(s[i := '_']) == Repadded(s[i := '/']);
    }
    if |s| % 4 == 0 && '-' !in s && '_' !in s {
      assert forall k | 0 <= k < |s| :: s[k] in s;
      assert Repadded(s) == s;
    }
  }

  lemma {:induction false} VectorSextets()
    ensures var d := [0x66]; Sextet(d, 0) == 25 && Sextet(d, 1) == 32
    ensures var d := [0x66, 0x6F]; Sextet(d, 0) == 25 && Sextet(d, 1) == 38 && Sextet(d, 2) == 60
    ensures var d := [0x66, 0x6F, 0x6F];
      Sextet(d, 0) == 25 && Sextet(d, 1) == 38 && Sextet(d, 2) == 61 && Sextet(d, 3) == 47
  {
  }

  lemma {:induction false} VectorChars()
    ensures TABLE[25] == 'Z' && TABLE[32] == 'g' && TABLE[38] == 'm' && TABLE[47] == 'v'
    ensures TABLE[60] == '8' && TABLE[61] == '9'
  {
    hide TABLE, URL_TABLE;
    TableRuns(25);
    TableRuns(32);
    TableRuns(38);
    TableRuns(47);
    TableRuns(60);
    TableRuns(61);
  }

  // From section 10 of RFC 4648, the bytes of "f", "fo" and "foo".
  lemma {:induction false} TestVectors()
    ensures StdText([0x66]) == "Zg==" && StdText([0x66, 0x6F]) == "Zm8=" && StdText([0x66, 0x6F, 0x6F]) == "Zm9v"
  {
    hide StdText, TABLE, Sextet;
    VectorSextets();
    VectorChars();
    VectorText([0x66]);
    VectorText([0x66, 0x6F]);
    VectorText([0x66, 0x6F, 0x6F]);
  }

  lemma {:induction false} VectorText(data: seq<byte>)
    requires 1 <= |data| <= 3
    ensures StdText(data) == GroupChars(TABLE, Sextet(data, 0), Sextet(data, 1), Sextet(data, 2), Sextet(data, 3), |data|)
  {
    hide Sextet;
    GroupText(TABLE, data, 0);
    assert |StdText(data)| == 4;
    assert StdText(data)[0..4] == StdText(data);
  }
}
