/** The time-ordered ids of dump sessions: UUID version 7, RFC 9562 section 5.7 (internal/dump/dump.go). */
module Ids {
  import opened Wrappers
  import opened Strings
  import opened Bytes

  /** The digits of %x. */
  function Digit(d: nat): char
    requires d < 16
  {
    if d < 10 then ('0' as int + d) as char else ('a' as int + d - 10) as char
  }

  function HexOf(b: Byte): string
  {
    [Digit(b / 16), Digit(b % 16)]
  }

  function Hex(bs: seq<Byte>): (r: string)
    ensures |r| == 2 * |bs|
  {
    if bs == [] then "" else Hex(bs[..|bs| - 1]) + HexOf(bs[|bs| - 1])
  }

  /** The layout %x-%x-%x-%x-%x over 16 bytes. */
  function Format(b: seq<Byte>): string
    requires |b| == 16
  {
    Hex(b[..4]) + "-" + Hex(b[4..6]) + "-" + Hex(b[6..8]) + "-" + Hex(b[8..10]) + "-" + Hex(b[10..])
  }

  /**
   * The 16 bytes of an id: the millisecond's lowest 48 bits, the
   * version, the variant and what is left of the random bytes.
   */
  function IdBytes(ms: nat, random: seq<Byte>): (r: seq<Byte>)
    requires |random| == 16
    ensures |r| == 16
  {
    ToBytes(ms, 6) + [0x70 + random[6] % 16, random[7], 0x80 + random[8] % 64] + random[9..]
  }

  /** The timestamp goes into the first six bytes, the highest first. */
  method Stamp(b: array<Byte>, ms: nat)
    requires b.Length == 16
    modifies b
    ensures b[0] == ms / 0x100_0000_0000 % 256 && b[1] == ms / 0x1_0000_0000 % 256 && b[2] == ms / 0x100_0000 % 256
    ensures b[3] == ms / 0x1_0000 % 256 && b[4] == ms / 0x100 % 256 && b[5] == ms % 256
    ensures forall i :: 6 <= i < 16 ==> b[i] == old(b[i])
  {
    b[0] := ms / 0x100_0000_0000 % 256;
    b[1] := ms / 0x1_0000_0000 % 256;
    b[2] := ms / 0x100_0000 % 256;
    b[3] := ms / 0x1_0000 % 256;
    b[4] := ms / 0x100 % 256;
    b[5] := ms % 256;
  }

  method NewID(ms: nat, random: seq<Byte>) returns (id: string)
    requires |random| == 16
    ensures id == Format(IdBytes(ms, random))
  {
    hide ToBytes, Format, Hex;
    var b := new Byte[16](i requires 0 <= i < 16 => random[i]);
    Stamp(b, ms);
    b[6] := b[6] % 16 + 0x70;
    b[8] := b[8] % 64 + 0x80;
    SixBytes(ms);
    SameBytes(b[..], IdBytes(ms, random));
    id := Format(b[..]);
  }

  lemma SameBytes(s: seq<Byte>, t: seq<Byte>)
    requires |s| == |t| && forall i :: 0 <= i < |s| ==> s[i] == t[i]
    ensures s == t
  {
  }

  lemma SixBytes(ms: nat)
    ensures ToBytes(ms, 6) == [ms / 0x100_0000_0000 % 256, ms / 0x1_0000_0000 % 256, ms / 0x100_0000 % 256,
                               ms / 0x1_0000 % 256, ms / 0x100 % 256, ms % 256]
  {
    assert ToBytes(ms / 0x100_0000_0000, 1) == [ms / 0x100_0000_0000 % 256];
    assert ToBytes(ms / 0x1_0000_0000, 2) == ToBytes(ms / 0x100_0000_0000, 1) + [ms / 0x1_0000_0000 % 256];
    assert ToBytes(ms / 0x100_0000, 3) == ToBytes(ms / 0x1_0000_0000, 2) + [ms / 0x100_0000 % 256];
    assert ToBytes(ms / 0x1_0000, 4) == ToBytes(ms / 0x100_0000, 3) + [ms / 0x1_0000 % 256];
    assert ToBytes(ms / 0x100, 5) == ToBytes(ms / 0x1_0000, 4) + [ms / 0x100 % 256];
  }

  // ---- reading the time back ----

  function DigitValue(c: char): Option<nat>
  {
    if '0' <= c <= '9' then Some(c as int - '0' as int)
    else if 'a' <= c <= 'f' then Some(c as int - 'a' as int + 10)
    else if 'A' <= c <= 'F' then Some(c as int - 'A' as int + 10)
    else None
  }

  function ParseDigits(s: string): Option<nat>
  {
    if s == "" then Some(0)
    else
      var head, last := ParseDigits(s[..|s| - 1]), DigitValue(s[|s| - 1]);
      if head.Some? && last.Some? then Some(head.value * 16 + last.value) else None
  }

  /** strconv.ParseInt in base 16, on text too short to overflow: a sign, and at least one digit. */
  function ParseHex(s: string): Option<int>
  {
    if s == "" then None
    else if s[0] == '+' || s[0] == '-' then
      var r := if s[1..] == "" then None else ParseDigits(s[1..]);
      if r == None then None else var v: int := r.value; Some(if s[0] == '-' then -v else v)
    else
      var r := ParseDigits(s);
      if r == None then None else Some(r.value)
  }

  /** The millisecond an id starts with. */
  function ParseIDTime(id: string): Option<int>
  {
    if |id| != 36 || id[8] != '-' || id[14] != '7' then None
    else ParseHex(id[..8] + id[9..13])
  }

  /** When a session started, by the name of its directory; `modTime` is the file system's answer. */
  function SessionStart(name: string, modTime: Option<int>, now: int): int
  {
    var i := Index(name, "__");
    var ms := ParseIDTime(if i != -1 then name[..i] else name);
    if ms.Some? then ms.value else if modTime.Some? then modTime.value else now
  }

  // ---- the time comes back ----

  lemma DigitBack(d: nat)
    requires d < 16
    ensures DigitValue(Digit(d)) == Some(d) && Digit(d) != '-' && Digit(d) != '+' && Digit(d) != '_'
  {
  }

  lemma {:induction false} HexBack(bs: seq<Byte>)
    ensures ParseDigits(Hex(bs)) == Some(FromBytes(bs))
    ensures forall i :: 0 <= i < |Hex(bs)| ==> Hex(bs)[i] != '-' && Hex(bs)[i] != '+' && Hex(bs)[i] != '_'
  {
    if bs != [] {
      var bs', b := bs[..|bs| - 1], bs[|bs| - 1];
      HexBack(bs');
      DigitBack(b / 16);
      DigitBack(b % 16);
      var s := Hex(bs);
      assert s[..|s| - 1] == Hex(bs') + [Digit(b / 16)];
      assert s[..|s| - 1][..|s| - 2] == Hex(bs');
    }
  }

  lemma {:induction false} HexConcat(a: seq<Byte>, b: seq<Byte>)
    ensures Hex(a + b) == Hex(a) + Hex(b)
  {
    if b == [] {
      assert a + b == a;
    } else {
      assert (a + b)[..|a + b| - 1] == a + b[..|b| - 1];
      HexConcat(a, b[..|b| - 1]);
    }
  }

  /** Where the parts of an id are. */
  lemma FormatParts(b: seq<Byte>)
    requires |b| == 16
    ensures var id := Format(b);
            && |id| == 36 && id[..8] == Hex(b[..4]) && id[8] == '-' && id[9..13] == Hex(b[4..6]) && id[13] == '-'
            && id[14] == Digit(b[6] / 16)
  {
    hide Hex;
    var h := Hex(b[6..8]);
    assert h[0] == Digit(b[6] / 16) by { FirstDigit(b[6], b[7]); assert b[6..8] == [b[6], b[7]]; }
  }

  lemma FirstDigit(x: Byte, y: Byte)
    ensures Hex([x, y])[0] == Digit(x / 16)
  {
    assert [x, y][..1] == [x] && [x][..0] == [];
  }

  /** An id keeps the lowest 48 bits of its millisecond. */
  lemma TimeKept(ms: nat, random: seq<Byte>)
    requires |random| == 16
    ensures ParseIDTime(Format(IdBytes(ms, random))) == Some(ms % Power(6))
  {
    hide Hex, Format, ParseDigits, ToBytes, FromBytes, Power;
    var b := IdBytes(ms, random);
    FormatParts(b);
    var id := Format(b);
    assert b[..4] + b[4..6] == ToBytes(ms, 6);
    HexConcat(b[..4], b[4..6]);
    HexBack(ToBytes(ms, 6));
    BytesKeep(ms, 6);
  }

  /** The millisecond comes back exactly when 48 bits hold it. */
  lemma TimeComesBack(ms: nat, random: seq<Byte>)
    requires |random| == 16
    ensures ParseIDTime(Format(IdBytes(ms, random))) == Some(ms) <==> ms < 0x1_0000_0000_0000
  {
    hide ParseIDTime, Format, IdBytes;
    TimeKept(ms, random);
    assert Power(6) == 0x1_0000_0000_0000 by { assert Power(3) == 0x100_0000; }
  }

  /** A session's start is read off its directory's name, in progress or finished. */
  lemma SessionStartBack(ms: nat, random: seq<Byte>, suffix: string, modTime: Option<int>, now: int)
    requires |random| == 16 && ms < 0x1_0000_0000_0000
    ensures var id := Format(IdBytes(ms, random));
            SessionStart(id, modTime, now) == ms && SessionStart(id + "__START_" + suffix, modTime, now) == ms
  {
    hide ParseIDTime, IdBytes, Format;
    var id := Format(IdBytes(ms, random));
    TimeComesBack(ms, random);
    NoUnderscore(IdBytes(ms, random));
    NotIn(id, "");
    var name := id + "__START_" + suffix;
    assert name == id + ("__START_" + suffix);
    assert OccursAt(name, "__", |id|) by { assert name[|id|..|id| + 2] == "__"; }
    FirstUnderscores(id, name);
    assert name[..|id|] == id;
  }

  lemma NoUnderscore(b: seq<Byte>)
    requires |b| == 16
    ensures forall i :: 0 <= i < |Format(b)| ==> Format(b)[i] != '_'
  {
    hide Hex;
    HexBack(b[..4]);
    HexBack(b[4..6]);
    HexBack(b[6..8]);
    HexBack(b[8..10]);
    HexBack(b[10..]);
  }

  lemma NotIn(id: string, more: string)
    requires forall i :: 0 <= i < |id| ==> id[i] != '_'
    ensures Index(id, "__") == -1
  {
    var r := Index(id, "__");
    if r != -1 {
      OccursChar(id, "__", r, 0);
    }
  }

  lemma FirstUnderscores(id: string, name: string)
    requires id <= name && (forall i :: 0 <= i < |id| ==> id[i] != '_') && OccursAt(name, "__", |id|)
    ensures Index(name, "__") == |id|
  {
    forall i | 0 <= i < |id| ensures !OccursAt(name, "__", i) {
      OccursPointwise(name, "__", i);
      assert name[i + 0] == id[i];
    }
  }

  // ---- ids sort by time ----

  /** Go's order on strings. */
  predicate Less(a: string, b: string)
  {
    b != "" && (a == "" || a[0] < b[0] || (a[0] == b[0] && Less(a[1..], b[1..])))
  }

  lemma {:induction false} LessBehind(p: string, a: string, b: string)
    requires Less(a, b)
    ensures Less(p + a, p + b)
  {
    if p == "" {
      assert p + a == a && p + b == b;
    } else {
      LessBehind(p[1..], a, b);
      assert (p + a)[1..] == p[1..] + a && (p + b)[1..] == p[1..] + b;
    }
  }

  lemma {:induction false} LessAhead(a: string, b: string, x: string, y: string)
    requires |a| == |b| && Less(a, b)
    ensures Less(a + x, b + y)
  {
    assert (a + x)[1..] == a[1..] + x && (b + y)[1..] == b[1..] + y;
    if a[0] == b[0] {
      LessAhead(a[1..], b[1..], x, y);
    }
  }

  lemma DigitsSort(d: nat, e: nat)
    requires d < e < 16
    ensures Digit(d) < Digit(e)
  {
  }

  lemma HexOfSorts(x: Byte, y: Byte)
    requires x < y
    ensures Less(HexOf(x), HexOf(y))
  {
    hide Digit;
    if x / 16 < y / 16 {
      DigitsSort(x / 16, y / 16);
    } else {
      DigitsSort(x % 16, y % 16);
      assert HexOf(x)[1..] == [Digit(x % 16)] && HexOf(y)[1..] == [Digit(y % 16)];
    }
  }

  /** Hexadecimal text of one length sorts as the numbers do. */
  lemma {:induction false} HexSorts(s: seq<Byte>, t: seq<Byte>)
    requires |s| == |t| && FromBytes(s) < FromBytes(t)
    ensures Less(Hex(s), Hex(t))
  {
    hide Less, HexOf;
    var s', t', x, y := s[..|s| - 1], t[..|t| - 1], s[|s| - 1], t[|t| - 1];
    if FromBytes(s') == FromBytes(t') {
      BytesInjective(s', t');
      HexOfSorts(x, y);
      LessBehind(Hex(s'), HexOf(x), HexOf(y));
    } else {
      HexSorts(s', t');
      LessAhead(Hex(s'), Hex(t'), HexOf(x), HexOf(y));
    }
  }

  lemma FromSix(b: seq<Byte>)
    requires |b| >= 6
    ensures FromBytes(b[..6]) == FromBytes(b[..4]) * 0x1_0000 + FromBytes(b[4..6])
  {
    assert b[..6][..5] == b[..5] && b[..5][..4] == b[..4];
    assert b[4..6][..1] == [b[4]] && [b[4]][..0] == [];
    assert FromBytes([b[4]]) == b[4];
  }

  lemma TwoBytesBound(b: seq<Byte>)
    requires |b| == 2
    ensures FromBytes(b) < 0x1_0000
  {
    assert b[..1] == [b[0]] && [b[0]][..0] == [];
    assert FromBytes([b[0]]) == b[0];
  }

  /** An earlier millisecond gives a lexicographically smaller id, whatever the random bytes. */
  lemma IdsSortByTime(ms: nat, random: seq<Byte>, ms': nat, random': seq<Byte>)
    requires |random| == 16 && |random'| == 16 && ms < ms' < 0x1_0000_0000_0000
    ensures Less(Format(IdBytes(ms, random)), Format(IdBytes(ms', random')))
  {
    hide Hex, Less, ToBytes, FromBytes, Power;
    var b, c := IdBytes(ms, random), IdBytes(ms', random');
    Power6();
    BytesBack(ms, 6);
    BytesBack(ms', 6);
    assert b[..6] == ToBytes(ms, 6) && c[..6] == ToBytes(ms', 6);
    FromSix(b);
    FromSix(c);
    TwoBytesBound(b[4..6]);
    TwoBytesBound(c[4..6]);
    var bTail := "-" + Hex(b[6..8]) + "-" + Hex(b[8..10]) + "-" + Hex(b[10..]);
    var cTail := "-" + Hex(c[6..8]) + "-" + Hex(c[8..10]) + "-" + Hex(c[10..]);
    assert Format(b) == Hex(b[..4]) + ("-" + (Hex(b[4..6]) + bTail));
    assert Format(c) == Hex(c[..4]) + ("-" + (Hex(c[4..6]) + cTail));
    if FromBytes(b[..4]) < FromBytes(c[..4]) {
      HexSorts(b[..4], c[..4]);
      LessAhead(Hex(b[..4]), Hex(c[..4]), "-" + (Hex(b[4..6]) + bTail), "-" + (Hex(c[4..6]) + cTail));
    } else {
      BytesInjective(b[..4], c[..4]);
      HexSorts(b[4..6], c[4..6]);
      LessAhead(Hex(b[4..6]), Hex(c[4..6]), bTail, cTail);
      LessBehind("-", Hex(b[4..6]) + bTail, Hex(c[4..6]) + cTail);
      LessBehind(Hex(b[..4]), "-" + (Hex(b[4..6]) + bTail), "-" + (Hex(c[4..6]) + cTail));
    }
  }

  lemma Power6()
    ensures Power(6) == 0x1_0000_0000_0000
  {
    assert Power(3) == 0x100_0000;
  }

  // ---- the layout, and what an id tells apart ----

  lemma {:induction false} HexAt(bs: seq<Byte>, i: nat)
    requires i < |bs|
    ensures Hex(bs)[2 * i] == Digit(bs[i] / 16) && Hex(bs)[2 * i + 1] == Digit(bs[i] % 16)
  {
    hide Digit;
    if i < |bs| - 1 {
      HexAt(bs[..|bs| - 1], i);
    }
  }

  predicate IsLowerHex(c: char)
  {
    '0' <= c <= '9' || 'a' <= c <= 'f'
  }

  lemma {:induction false} HexIsLower(bs: seq<Byte>)
    ensures forall i :: 0 <= i < |Hex(bs)| ==> IsLowerHex(Hex(bs)[i])
  {
    if bs != [] {
      HexIsLower(bs[..|bs| - 1]);
    }
  }

  /**
   * An id is 36 characters: lower-case digits around four dashes, with the version and the variant where they belong.
   */
  lemma IdLayout(ms: nat, random: seq<Byte>)
    requires |random| == 16
    ensures var id := Format(IdBytes(ms, random));
            && |id| == 36 && id[14] == '7' && id[19] in {'8', '9', 'a', 'b'}
            && forall i :: 0 <= i < 36 ==> if i in {8, 13, 18, 23} then id[i] == '-' else IsLowerHex(id[i])
  {
    hide Hex, ToBytes, IsLowerHex;
    var b := IdBytes(ms, random);
    FormatParts(b);
    HexIsLower(b[..4]);
    HexIsLower(b[4..6]);
    HexIsLower(b[6..8]);
    HexIsLower(b[8..10]);
    HexIsLower(b[10..]);
    HexAt(b[8..10], 0);
    assert Format(b)[19] == Hex(b[8..10])[0];
    assert b[8] / 16 == 8 + random[8] % 64 / 16;
  }

  /** What two ids that are the same have in common. */
  predicate SameBits(ms: nat, random: seq<Byte>, ms': nat, random': seq<Byte>)
    requires |random| == 16 && |random'| == 16
  {
    && ms % 0x1_0000_0000_0000 == ms' % 0x1_0000_0000_0000
    && random[6] % 16 == random'[6] % 16 && random[7] == random'[7] && random[8] % 64 == random'[8] % 64
    && random[9..] == random'[9..]
  }

  lemma HexInjective(s: seq<Byte>, t: seq<Byte>)
    requires |s| == |t| && Hex(s) == Hex(t)
    ensures s == t
  {
    HexBack(s);
    HexBack(t);
    BytesInjective(s, t);
  }

  lemma FormatInjective(b: seq<Byte>, c: seq<Byte>)
    requires |b| == |c| == 16 && Format(b) == Format(c)
    ensures b == c
  {
    hide Hex;
    var id := Format(b);
    assert Hex(b[..4]) == id[..8] == Hex(c[..4]);
    assert Hex(b[4..6]) == id[9..13] == Hex(c[4..6]);
    assert Hex(b[6..8]) == id[14..18] == Hex(c[6..8]);
    assert Hex(b[8..10]) == id[19..23] == Hex(c[8..10]);
    assert Hex(b[10..]) == id[24..] == Hex(c[10..]);
    HexInjective(b[..4], c[..4]);
    HexInjective(b[4..6], c[4..6]);
    HexInjective(b[6..8], c[6..8]);
    HexInjective(b[8..10], c[8..10]);
    HexInjective(b[10..], c[10..]);
    assert b == b[..4] + b[4..6] + b[6..8] + b[8..10] + b[10..];
    assert c == c[..4] + c[4..6] + c[6..8] + c[8..10] + c[10..];
  }

  /** Ids are the same exactly when their 48 bits of time and their 74 random bits are. */
  lemma IdsTellApart(ms: nat, random: seq<Byte>, ms': nat, random': seq<Byte>)
    requires |random| == 16 && |random'| == 16
    ensures Format(IdBytes(ms, random)) == Format(IdBytes(ms', random')) <==> SameBits(ms, random, ms', random')
  {
    hide Format, ToBytes, FromBytes, Power;
    var b, c := IdBytes(ms, random), IdBytes(ms', random');
    Power6();
    BytesKeep(ms, 6);
    BytesKeep(ms', 6);
    if Format(b) == Format(c) {
      FormatInjective(b, c);
      assert b[..6] == ToBytes(ms, 6) && c[..6] == ToBytes(ms', 6);
      assert b[6..9] == c[6..9] && b[9..] == random[9..] && c[9..] == random'[9..];
      assert b[6] == c[6] && b[7] == c[7] && b[8] == c[8];
    }
    if SameBits(ms, random, ms', random') {
      BytesInjective(ToBytes(ms, 6), ToBytes(ms', 6));
    }
  }
}
