/**
 Variable length integers and parameter lists, as the firmware and the host write and
 read them.  Bytes are numbers; shifts and masks are divisions and remainders.
 */
module Vlq {
  import opened Bytes
  import opened Clock32

  /** An integer that was read and the position behind it, or nothing if the bytes end within it. */
  datatype Reading = Nothing | Read(value: int, next: nat)

  // ---------- Writing ----------

  /** The seven bits of v from bit shift on, with the continuation mark. */
  function More(v: int, shift: int): (r: u8)
    requires shift > 0
  {
    (v / shift) % 128 + 128
  }

  const S7: int := 0x80
  const S14: int := 0x4000
  const S21: int := 0x20_0000
  const S28: int := 0x1000_0000

  /** The firmware's encoder: the number of bytes depends on the signed reading of v. */
  function EncodeC(v: u32): (r: seq<u8>) {
    var sv := Signed(v);
    var f4: seq<u8> := [v % 128];
    var f3 := [More(v, S7)] + f4;
    var f2 := [More(v, S14)] + f3;
    var f1 := [More(v, S21)] + f2;
    if -32 <= sv < 96 then f4
    else if -0x1000 <= sv < 0x3000 then f3
    else if -0x8_0000 <= sv < 0x18_0000 then f2
    else if -0x400_0000 <= sv < 0xC00_0000 then f1
    else [v / S28 + 128] + f1
  }

  /** The host's encoder, for any integer. */
  function EncodePy(v: int): (r: seq<u8>) {
    (if v >= 0xC00_0000 || v < -0x400_0000 then [More(v, S28)] else [])
    + (if v >= 0x18_0000 || v < -0x8_0000 then [More(v, S21)] else [])
    + (if v >= 0x3000 || v < -0x1000 then [More(v, S14)] else [])
    + (if v >= 0x60 || v < -0x20 then [More(v, S7)] else [])
    + [v % 128]
  }

  // ---------- Reading ----------

  /** The value that the first byte of an integer starts with; both bits below the mark set means negative. */
  function First(c: u8): (r: int) {
    if (c / 32) % 4 == 3 then c % 128 - 128 else c % 128
  }

  /** Reads on from pos with the value v so far, as long as bytes carry the continuation mark. */
  function ParseOn(s: seq<u8>, pos: nat, v: int, c: u8): (r: Reading)
    requires pos <= |s|
    decreases |s| - pos
  {
    if c < 128 then Read(v, pos)
    else if pos == |s| then Nothing
    else ParseOn(s, pos + 1, v * 128 + s[pos] % 128, s[pos])
  }

  /** The integer at pos and the position behind it. */
  function Parse(s: seq<u8>, pos: nat): (r: Reading)
  {
    if pos >= |s| then Nothing else ParseOn(s, pos + 1, First(s[pos]), s[pos])
  }

  /** The host's reader: 32-bit unsigned unless the parameter is signed. */
  method ParsePy(s: seq<u8>, pos: nat, signed: bool) returns (r: Reading)
    ensures r == match Parse(s, pos)
                 case Nothing => Nothing
                 case Read(v, p) => Read(if signed then v else Wrap(v), p)
  {
    if pos >= |s| {
      return Nothing;
    }
    var c: u8, p: nat := s[pos], pos + 1;
    var v := c % 128;
    if (c / 32) % 4 == 3 {
      v := v - 128;
    }
    while c >= 128
      invariant pos < p <= |s|
      invariant ParseOn(s, p, v, c) == Parse(s, pos)
      decreases |s| - p, c
    {
      if p == |s| {
        return Nothing;
      }
      c := s[p];
      p := p + 1;
      v := v * 128 + c % 128;
    }
    r := Read(if signed then v else Wrap(v), p);
  }

  /** The firmware's reader: all arithmetic is modulo 2^32. */
  method ParseC(s: seq<u8>, pos: nat) returns (r: Reading)
    ensures r == match Parse(s, pos)
                 case Nothing => Nothing
                 case Read(v, p) => Read(Wrap(v), p)
  {
    if pos >= |s| {
      return Nothing;
    }
    var c: u8, p: nat := s[pos], pos + 1;
    var v: u32 := c % 128;
    if (c / 32) % 4 == 3 {
      v := Wrap(v - 128);
    }
    ghost var w := First(s[pos]);
    while c >= 128
      invariant pos < p <= |s| && v == Wrap(w)
      invariant ParseOn(s, p, w, c) == Parse(s, pos)
      decreases |s| - p, c
    {
      if p == |s| {
        return Nothing;
      }
      c := s[p];
      p := p + 1;
      WrapShiftIn(w, c % 128);
      v := Wrap(v * 128 + c % 128);
      w := w * 128 + c % 128;
    }
    r := Read(v, p);
  }

  lemma WrapShiftIn(w: int, b: int)
    ensures Wrap(Wrap(w) * 128 + b) == Wrap(w * 128 + b)
  {
    var k := w / WRAP;
    assert w == k * WRAP + Wrap(w);
    WrapShift(Wrap(w) * 128 + b, k * 128);
  }

  // ---------- What reading makes of what was written ----------

  /** n bytes that carry the lowest seven-bit groups of v, the last one without a mark. */
  function Groups(v: int, n: nat): (s: seq<u8>)
    requires n > 0
    ensures |s| == n
    decreases n
  {
    if n == 1 then [v % 128] else Marked(v / 128, n - 1) + [v % 128]
  }

  function Marked(v: int, n: nat): (s: seq<u8>)
    requires n > 0
    ensures |s| == n
    decreases n
  {
    if n == 1 then [v % 128 + 128] else Marked(v / 128, n - 1) + [v % 128 + 128]
  }

  /** v without its lowest n seven-bit groups. */
  function High(v: int, n: nat): (r: int)
    decreases n
  {
    if n == 0 then v else High(v / 128, n - 1)
  }

  /** The value read from n bytes written for v: all groups but the first are those of v. */
  function ReadBack(v: int, n: nat): (r: int)
    requires n > 0
    decreases n
  {
    if n == 1 then First(v % 128) else ReadBack(v / 128, n - 1) * 128 + v % 128
  }

  lemma FirstMark(c: u8)
    requires c < 128
    ensures First(c + 128) == First(c)
  {
  }

  lemma MarkedLast(v: int, n: nat)
    requires n > 0
    ensures Marked(v, n)[n-1] == v % 128 + 128
    ensures n > 1 ==> Marked(v, n)[..n-1] == Marked(v / 128, n - 1)
  {
  }

  /** The last byte of a part of s, and the part without it. */
  lemma LastOf(s: seq<u8>, pos: nat, n: nat, m: seq<u8>)
    requires n > 0 && pos + n <= |s| && s[pos..pos+n] == m
    ensures s[pos+n-1] == m[n-1] && s[pos..pos+n-1] == m[..n-1]
  {
    assert m[n-1] == s[pos..pos+n][n-1];
  }

  lemma ParseFirst(s: seq<u8>, pos: nat, v: int)
    requires pos < |s| && s[pos] == v % 128 + 128
    ensures Parse(s, pos) == ParseOn(s, pos + 1, ReadBack(v, 1), s[pos])
  {
    FirstMark(v % 128);
  }

  lemma {:induction false} ParseMarked(s: seq<u8>, pos: nat, v: int, n: nat)
    requires n > 0 && pos + n <= |s| && s[pos..pos+n] == Marked(v, n)
    ensures Parse(s, pos) == ParseOn(s, pos + n, ReadBack(v, n), s[pos+n-1]) && s[pos+n-1] >= 128
    decreases n
  {
    hide Parse, First;
    MarkedLast(v, n);
    LastOf(s, pos, n, Marked(v, n));
    if n > 1 {
      ParseMarked(s, pos, v / 128, n - 1);
    } else {
      ParseFirst(s, pos, v);
    }
  }

  /** Reading n bytes written for v, wherever they stand and whatever follows them. */
  lemma ParseGroups(s: seq<u8>, pos: nat, v: int, n: nat)
    requires n > 0 && pos + n <= |s| && s[pos..pos+n] == Groups(v, n)
    ensures Parse(s, pos) == Read(ReadBack(v, n), pos + n)
  {
    hide First;
    LastOf(s, pos, n, Groups(v, n));
    if n > 1 {
      var m := Marked(v / 128, n - 1);
      assert Groups(v, n)[..n-1] == m && Groups(v, n)[n-1] == v % 128;
      ParseMarked(s, pos, v / 128, n - 1);
    }
  }

  /** A value whose high part fits the first byte is read back exactly; in any case it is read back modulo 2^32. */
  lemma {:induction false} ReadBackExact(v: int, n: nat)
    requires n > 0
    ensures ReadBack(v, n) == v <==> -32 <= High(v, n - 1) < 96
    decreases n
  {
    if n > 1 {
      ReadBackExact(v / 128, n - 1);
    }
  }

  function Pow128(n: nat): (r: int) {
    if n == 0 then 1 else 128 * Pow128(n - 1)
  }

  lemma {:induction false} ReadBackOff(v: int, n: nat) returns (k: int)
    requires n > 0
    ensures ReadBack(v, n) == v - k * Pow128(n)
    decreases n
  {
    if n == 1 {
      k := (v - First(v % 128)) / 128;
      assert Pow128(1) == 128;
    } else {
      k := ReadBackOff(v / 128, n - 1);
      assert k * Pow128(n) == 128 * (k * Pow128(n - 1));
    }
  }

  /** Five bytes carry every value modulo 2^32. */
  lemma ReadBackFive(v: int)
    ensures Wrap(ReadBack(v, 5)) == Wrap(v)
  {
    var k := ReadBackOff(v, 5);
    assert Pow128(5) == 8 * WRAP by {
      assert Pow128(2) == 0x4000 && Pow128(4) == 128 * Pow128(3) && Pow128(3) == 128 * Pow128(2);
    }
    assert v - k * Pow128(5) == v + (-8 * k) * WRAP;
    WrapShift(v, -8 * k);
  }

  // ---------- The two encoders in terms of byte groups ----------

  /** The number of bytes the host writes for v. */
  function LengthPy(v: int): (n: nat)
    ensures 1 <= n <= 5
  {
    if -0x20 <= v < 0x60 then 1
    else if -0x1000 <= v < 0x3000 then 2
    else if -0x8_0000 <= v < 0x18_0000 then 3
    else if -0x400_0000 <= v < 0xC00_0000 then 4
    else 5
  }

  lemma Shifts(v: int)
    ensures v / 128 == v / S7 && v / 128 / 128 == v / S14
    ensures v / 128 / 128 / 128 == v / S21 && v / 128 / 128 / 128 / 128 == v / S28
  {
  }

  lemma MarkedUnfold(v: int)
    ensures Marked(v, 1) == [v % 128 + 128]
    ensures Marked(v, 2) == [v / 128 % 128 + 128, v % 128 + 128]
    ensures Marked(v, 3) == [v / 128 / 128 % 128 + 128, v / 128 % 128 + 128, v % 128 + 128]
    ensures Marked(v, 4)
         == [v / 128 / 128 / 128 % 128 + 128, v / 128 / 128 % 128 + 128, v / 128 % 128 + 128, v % 128 + 128]
  {
    var a, b, c := v / 128, v / 128 / 128, v / 128 / 128 / 128;
    assert Marked(c, 1) == [c % 128 + 128] && Marked(b, 1) == [b % 128 + 128] && Marked(a, 1) == [a % 128 + 128];
    assert Marked(b, 2) == Marked(c, 1) + [b % 128 + 128] && Marked(a, 2) == Marked(b, 1) + [a % 128 + 128];
    assert Marked(a, 3) == Marked(b, 2) + [a % 128 + 128];
  }

  lemma HighUnfold(v: int)
    ensures High(v, 0) == v && High(v, 1) == v / 128 && High(v, 2) == v / 128 / 128
    ensures High(v, 3) == v / 128 / 128 / 128 && High(v, 4) == v / 128 / 128 / 128 / 128
  {
    var a, b := v / 128, v / 128 / 128;
    assert High(v, 2) == High(a, 1) && High(v, 3) == High(a, 2) == High(b, 1);
    assert High(v, 4) == High(a, 3) == High(b, 2) == High(b / 128, 1);
  }

  lemma GroupsUnfold(v: int)
    ensures Groups(v, 1) == [v % 128]
    ensures Groups(v, 2) == [More(v, S7), v % 128]
    ensures Groups(v, 3) == [More(v, S14), More(v, S7), v % 128]
    ensures Groups(v, 4) == [More(v, S21), More(v, S14), More(v, S7), v % 128]
    ensures Groups(v, 5) == [More(v, S28), More(v, S21), More(v, S14), More(v, S7), v % 128]
    ensures High(v, 0) == v && High(v, 1) == v / S7 && High(v, 2) == v / S14 && High(v, 3) == v / S21 && High(v, 4) == v / S28
  {
    hide Marked, High;
    Shifts(v);
    MarkedUnfold(v / 128);
    HighUnfold(v);
  }

  lemma EncodePyGroups(v: int)
    ensures EncodePy(v) == Groups(v, LengthPy(v))
  {
    GroupsUnfold(v);
  }

  lemma DivideLess(v: int, k: int)
    ensures (v - 128 * k) / 128 == v / 128 - k && (v - 128 * k) % 128 == v % 128
  {
  }

  /** The groups below bit 28 do not see a change by 2^32. */
  lemma MoreOfSigned(v: int)
    ensures (v - WRAP) % 128 == v % 128
    ensures More(v - WRAP, S7) == More(v, S7)
    ensures More(v - WRAP, S14) == More(v, S14)
    ensures More(v - WRAP, S21) == More(v, S21)
  {
    Shifts(v);
    Shifts(v - WRAP);
    DivideLess(v, 0x200_0000);
    DivideLess(v / 128, 0x4_0000);
    DivideLess(v / 128 / 128, 0x800);
    DivideLess(v / 128 / 128 / 128, 0x10);
  }

  lemma MoreSigned(v: u32)
    ensures Signed(v) % 128 == v % 128
    ensures More(Signed(v), S7) == More(v, S7)
    ensures More(Signed(v), S14) == More(v, S14)
    ensures More(Signed(v), S21) == More(v, S21)
    ensures More(v, S28) == v / S28 + 128
  {
    MoreOfSigned(v);
  }

  /** The firmware writes what the host writes for the signed reading, except in the top byte of five. */
  lemma EncodeCGroups(v: u32)
    ensures var n := LengthPy(Signed(v));
            EncodeC(v) == if n == 5 then Groups(v, 5) else Groups(Signed(v), n)
  {
    hide More, Groups, High, Signed;
    MoreSigned(v);
    GroupsUnfold(Signed(v));
    GroupsUnfold(v);
  }

  // ---------- Main results ----------

  /** s holds the bytes e at pos. */
  ghost predicate Holds(s: seq<u8>, pos: nat, e: seq<u8>) {
    pos + |e| <= |s| && s[pos..pos+|e|] == e
  }

  /** The host reads back exactly what it wrote, for signed parameters, in the range that five bytes carry. */
  lemma PyReadsPy(s: seq<u8>, pos: nat, v: int)
    requires Holds(s, pos, EncodePy(v))
    ensures var r := Parse(s, pos);
            && r.Read? && r.next == pos + |EncodePy(v)| && Wrap(r.value) == Wrap(v)
            && (r.value == v <==> -0x2_0000_0000 <= v < 0x6_0000_0000)
  {
    var n := LengthPy(v);
    EncodePyGroups(v);
    ParseGroups(s, pos, v, n);
    ReadBackExact(v, n);
    GroupsUnfold(v);
    if n == 5 {
      ReadBackFive(v);
    }
  }

  lemma SignedFacts(v: u32)
    ensures Wrap(Signed(v)) == v
    ensures Signed(v) == v || Signed(v) == v - WRAP
    ensures Signed(v) == v <==> Signed(v) >= 0
  {
    WrapShift(v, -1);
  }

  /** The value that is read from the bytes the firmware writes for v. */
  lemma ReadOfC(s: seq<u8>, pos: nat, v: u32)
    requires Holds(s, pos, EncodeC(v))
    ensures var sv := Signed(v);
            Parse(s, pos) == Read(if LengthPy(sv) == 5 then v else sv, pos + |EncodeC(v)|)
  {
    hide Signed;
    var w, n := if LengthPy(Signed(v)) == 5 then v else Signed(v), LengthPy(Signed(v));
    EncodeCGroups(v);
    ParseGroups(s, pos, w, n);
    ReadBackExact(w, n);
    GroupsUnfold(w);
  }

  /**
   What the firmware writes for a 32-bit value is read as that value by the firmware and,
   unsigned, by the host; a signed parameter is read by the host as the signed value if
   that is at least -2^26, and 2^32 too high below.
   */
  lemma EveryoneReadsC(s: seq<u8>, pos: nat, v: u32)
    requires Holds(s, pos, EncodeC(v))
    ensures var r := Parse(s, pos);
            && r.Read? && r.next == pos + |EncodeC(v)| && Wrap(r.value) == v
            && (r.value == Signed(v) <==> Signed(v) >= -0x400_0000)
            && (r.value != Signed(v) ==> r.value == Signed(v) + WRAP)
  {
    hide EncodeC, Parse;
    ReadOfC(s, pos, v);
    SignedFacts(v);
  }

  /** Reading n more bytes multiplies by 128 each time and adds less than that. */
  lemma {:induction false} ParseOnRange(s: seq<u8>, pos: nat, v: int, c: u8)
    requires pos <= |s|
    ensures var r := ParseOn(s, pos, v, c);
            r.Read? ==> r.next >= pos && v * Pow128(r.next - pos) <= r.value < (v + 1) * Pow128(r.next - pos)
    decreases |s| - pos
  {
    if c >= 128 && pos < |s| {
      ParseOnRange(s, pos + 1, v * 128 + s[pos] % 128, s[pos]);
      assert ParseOn(s, pos, v, c) == ParseOn(s, pos + 1, v * 128 + s[pos] % 128, s[pos]);
      var r := ParseOn(s, pos, v, c);
      if r.Read? {
        Pow128Positive(r.next - pos - 1);
        OneMoreGroup(v, s[pos] % 128, Pow128(r.next - pos - 1), r.value);
      }
    }
  }

  lemma OneMoreGroup(v: int, d: int, p: int, value: int)
    requires 0 <= d < 128 && p > 0 && (v * 128 + d) * p <= value < (v * 128 + d + 1) * p
    ensures v * (128 * p) <= value < (v + 1) * (128 * p)
  {
    assert (v * 128 + d) * p == v * (128 * p) + d * p;
    assert (v * 128 + d + 1) * p == (v + 1) * (128 * p) - (127 - d) * p;
    TimesOrdered(0, d, p);
    TimesOrdered(0, 127 - d, p);
  }

  lemma Pow128Positive(n: nat)
    ensures Pow128(n) > 0
  {
  }

  /** What can be read from n bytes. */
  lemma ParseRange(s: seq<u8>, pos: nat)
    ensures var r := Parse(s, pos);
            r.Read? ==> r.next > pos && -32 * Pow128(r.next - pos - 1) <= r.value < 96 * Pow128(r.next - pos - 1)
  {
    if pos < |s| {
      var f := First(s[pos]);
      ParseOnRange(s, pos + 1, f, s[pos]);
      var r := Parse(s, pos);
      if r.Read? {
        var p := Pow128(r.next - pos - 1);
        Pow128Positive(r.next - pos - 1);
        TimesOrdered(-32, f, p);
        TimesOrdered(f + 1, 96, p);
      }
    }
  }

  lemma TimesOrdered(a: int, b: int, p: int)
    requires p > 0
    ensures a <= b ==> a * p <= b * p
  {
  }

  /** No sequence of bytes that is read as v is shorter than what the host writes for it. */
  lemma EncodingIsShortest(s: seq<u8>, pos: nat)
    ensures var r := Parse(s, pos); r.Read? ==> r.next - pos >= |EncodePy(r.value)|
  {
    var r := Parse(s, pos);
    ParseRange(s, pos);
    if r.Read? {
      EncodePyGroups(r.value);
      var n := r.next - pos;
      assert Pow128(0) == 1 && Pow128(1) == 128 && Pow128(2) == 0x4000 && Pow128(3) == 0x20_0000;
    }
  }

  /** The first signed parameter that the host reads 2^32 too high. */
  method SignedTooLow() returns (r: Reading)
    ensures EncodeC(Wrap(-0x400_0001)) == [0x8f, 0xdf, 0xff, 0xff, 0x7f]
    ensures r == Read(-0x400_0001 + WRAP, 5)
  {
    var v := Wrap(-0x400_0001);
    var s: seq<u8> := [0x8f, 0xdf, 0xff, 0xff, 0x7f];
    assert v == 0xfbff_ffff && Signed(v) == -0x400_0001;
    assert EncodeC(v) == s;
    hide EncodeC, Parse;
    EveryoneReadsC(s, 0, v);
    r := ParsePy(s, 0, true);
  }

  /** Encoded integers keep within the maximum lengths declared for the parameter types. */
  lemma LengthsWithinTypes(v: int)
    ensures |EncodePy(v)| <= 5
    ensures -0x8000 <= v < 0x1_0000 ==> |EncodePy(v)| <= 3
    ensures 0 <= v < 0x100 ==> |EncodePy(v)| <= 2
    ensures 0 <= v < WRAP ==> |EncodeC(v)| == |EncodePy(Signed(v))|
  {
    EncodePyGroups(v);
    if 0 <= v < WRAP {
      EncodeCGroups(v);
      EncodePyGroups(Signed(v));
    }
  }
}
