/** Message blocks: length, sequence number, content, check sum and sync byte. */
module Frames {
  import opened Bytes

  const MESSAGE_MIN: int := 5
  const MESSAGE_MAX: int := 64
  const MESSAGE_PAYLOAD_MAX: int := 59
  const MESSAGE_SYNC: u8 := 0x7e

  // ---------- Check sum ----------

  /** One byte of the firmware's check sum. */
  function CrcStep(crc: bv16, byte: bv8): (r: bv16) {
    var d := byte ^ ((crc & 0xff) as bv8);
    var data := d ^ (d << 4);
    (((data as bv16) << 8) | (crc >> 8)) ^ ((data >> 4) as bv16) ^ ((data as bv16) << 3)
  }

  /** One byte of the host's check sum, on integers that are never cut to 16 bits. */
  function CrcStepPy(crc: bv32, byte: bv32): (r: bv32) {
    var d := byte ^ (crc & 0xff);
    var data := d ^ ((d & 0x0f) << 4);
    ((data << 8) | (crc >> 8)) ^ (data >> 4) ^ (data << 3)
  }

  function Wide(crc: bv16): (r: bv32) {
    crc as bv32
  }

  function WideByte(byte: bv8): (r: bv32) {
    byte as bv32
  }

  /** Both sides compute the same check sum byte by byte. */
  lemma CrcStepsAgree(crc: bv16, byte: bv8)
    ensures CrcStepPy(crc as bv32, byte as bv32) == CrcStep(crc, byte) as bv32
  {
  }

  lemma WideStepsAgree(crc: bv16, byte: bv8)
    ensures CrcStepPy(Wide(crc), WideByte(byte)) == Wide(CrcStep(crc, byte))
  {
    hide CrcStep, CrcStepPy;
    CrcStepsAgree(crc, byte);
  }

  // ---------- The check sum as a polynomial division ----------

  /** The polynomial x^16 + x^12 + x^5 + 1, lowest power first and without the highest. */
  const CCITT: bv16 := 0x8408

  /** One bit of the division, with the bits of every byte taken lowest first. */
  function Divide(crc: bv16): (r: bv16) {
    if crc & 1 == 1 then (crc >> 1) ^ CCITT else crc >> 1
  }

  function DivideBits(crc: bv16, n: nat): (r: bv16) {
    if n == 0 then crc else Divide(DivideBits(crc, n - 1))
  }

  function OneBit(x: bv16): (r: bv16) {
    (x >> 1) ^ ((x & 1) << 15) ^ ((x & 1) << 10) ^ ((x & 1) << 3)
  }

  function TwoBits(x: bv16): (r: bv16) {
    (x >> 2) ^ ((x & 3) << 14) ^ ((x & 3) << 9) ^ ((x & 3) << 2)
  }

  function FourBits(x: bv16): (r: bv16) {
    (x >> 4) ^ ((x & 15) << 12) ^ ((x & 15) << 7) ^ (x & 15)
  }

  lemma DivideOne(x: bv16)
    ensures Divide(x) == OneBit(x)
  {
    if x & 1 == 1 {
      assert (x & 1) << 15 == 0x8000;
    } else {
      LowBit(x);
    }
  }

  lemma LowBit(x: bv16)
    ensures x & 1 == 0 || x & 1 == 1
  {
  }

  lemma OneOne(x: bv16)
    ensures OneBit(OneBit(x)) == TwoBits(x)
  {
  }

  lemma TwoTwo(x: bv16)
    ensures TwoBits(TwoBits(x)) == FourBits(x)
  {
  }

  function EightBits(x: bv16): (r: bv16) {
    var t := (x ^ (x << 4)) & 0xff;
    (x >> 8) ^ (t << 8) ^ (t >> 4) ^ (t << 3)
  }

  lemma FourFour(x: bv16)
    ensures FourBits(FourBits(x)) == EightBits(x)
  {
  }

  lemma StepIsEight(crc: bv16, byte: bv8)
    ensures EightBits(crc ^ (byte as bv16)) == CrcStep(crc, byte)
  {
  }

  lemma DivideFour(x: bv16, n: nat)
    ensures DivideBits(x, n + 4) == FourBits(DivideBits(x, n))
  {
    var y := DivideBits(x, n);
    assert DivideBits(x, n + 2) == Divide(Divide(y));
    assert DivideBits(x, n + 4) == Divide(Divide(DivideBits(x, n + 2)));
    hide *;
    DivideOne(y);
    DivideOne(OneBit(y));
    OneOne(y);
    DivideOne(TwoBits(y));
    DivideOne(OneBit(TwoBits(y)));
    OneOne(TwoBits(y));
    TwoTwo(y);
  }

  /** A step of the check sum divides the eight bits of a byte by the polynomial. */
  lemma StepDivides(crc: bv16, byte: bv8)
    ensures CrcStep(crc, byte) == DivideBits(crc ^ (byte as bv16), 8)
  {
    var x := crc ^ (byte as bv16);
    assert DivideBits(x, 0) == x;
    hide *;
    DivideFour(x, 0);
    DivideFour(x, 4);
    FourFour(x);
    StepIsEight(crc, byte);
  }

  /** The remainder of all bytes, starting from all ones. */
  function Remainder(s: seq<u8>): (r: bv16) {
    if s == [] then 0xffff else DivideBits(Remainder(s[..|s|-1]) ^ (Bits(s[|s|-1]) as bv16), 8)
  }

  lemma {:induction false} CrcDivides(s: seq<u8>)
    ensures CrcOf(s) == Remainder(s)
  {
    hide CrcStep, DivideBits, Bits;
    if s != [] {
      CrcDivides(s[..|s|-1]);
      StepDivides(CrcOf(s[..|s|-1]), Bits(s[|s|-1]));
    }
  }

  lemma ZeroByte()
    ensures CrcOf([0x00]) == 0x0f87
  {
    assert CrcStep(0xffff, 0x00) == 0x0f87;
    assert [0x00][..0] == [];
  }

  function Bits(b: u8): (r: bv8) {
    b as bv8
  }

  function CrcOf(s: seq<u8>): (r: bv16) {
    if s == [] then 0xffff else CrcStep(CrcOf(s[..|s|-1]), Bits(s[|s|-1]))
  }

  function CrcHi(s: seq<u8>): (r: u8) {
    ((CrcOf(s) >> 8) as bv8) as int
  }

  function CrcLo(s: seq<u8>): (r: u8) {
    ((CrcOf(s) & 0xff) as bv8) as int
  }

  method Crc16(s: seq<u8>) returns (crc: bv16)
    ensures crc == CrcOf(s)
  {
    hide CrcStep, CrcStepPy, Bits;
    crc := 0xffff;
    var i := 0;
    while i < |s|
      invariant 0 <= i <= |s| && crc == CrcOf(s[..i])
    {
      assert s[..i+1][..i] == s[..i];
      crc := CrcStep(crc, Bits(s[i]));
      i := i + 1;
    }
    assert s[..i] == s;
  }

  method Crc16Py(s: seq<u8>) returns (crc: bv32)
    ensures crc == Wide(CrcOf(s))
  {
    crc := 0xffff;
    assert crc == Wide(CrcOf(s[..0]));
    hide CrcStep, CrcStepPy, Bits, Wide, WideByte;
    var i := 0;
    while i < |s|
      invariant 0 <= i <= |s| && crc == Wide(CrcOf(s[..i]))
    {
      assert s[..i+1][..i] == s[..i];
      WideStepsAgree(CrcOf(s[..i]), Bits(s[i]));
      crc := CrcStepPy(crc, WideByte(Bits(s[i])));
      i := i + 1;
    }
    assert s[..i] == s;
  }

  // ---------- Checking a block ----------

  datatype Checked = MoreData | Bad | Good(length: nat)

  /** The check sum bytes of the block of n bytes at the front of s are those of its content. */
  predicate SumMatches(s: seq<u8>, n: nat)
    requires MESSAGE_MIN <= n <= |s|
  {
    s[n-3] == CrcHi(s[..n-3]) && s[n-2] == CrcLo(s[..n-3])
  }

  /** What the bytes received so far say of the block at their front. */
  function Check(s: seq<u8>): (c: Checked)
    ensures c.Good? ==> MESSAGE_MIN <= c.length <= MESSAGE_MAX && c.length <= |s|
  {
    if |s| < MESSAGE_MIN then MoreData
    else if s[0] < MESSAGE_MIN || s[0] > MESSAGE_MAX then Bad
    else if s[1] / 16 != 1 then Bad
    else if |s| < s[0] then MoreData
    else if s[s[0]-1] != MESSAGE_SYNC then Bad
    else if !SumMatches(s, s[0]) then Bad
    else Good(s[0])
  }

  /** The host's check of a packet: its length, 0 if data is missing and -1 if it is not a packet. */
  method CheckPacket(s: seq<u8>) returns (r: int)
    ensures r == match Check(s) case MoreData => 0 case Bad => -1 case Good(n) => n
  {
    hide SumMatches;
    if |s| < MESSAGE_MIN {
      return 0;
    }
    var msglen := s[0];
    if msglen < MESSAGE_MIN || msglen > MESSAGE_MAX {
      return -1;
    }
    if s[1] / 16 != 1 {
      return -1;
    }
    if |s| < msglen {
      return 0;
    }
    if s[msglen-1] != MESSAGE_SYNC {
      return -1;
    }
    var crc := Crc16Py(s[..msglen-3]);
    CrcBytes(s[..msglen-3], crc);
    SumByBytes(s, msglen);
    if s[msglen-3] != ((crc >> 8) as bv8) as int || s[msglen-2] != ((crc & 0xff) as bv8) as int {
      return -1;
    }
    r := msglen;
  }

  lemma SumByBytes(s: seq<u8>, n: nat)
    requires MESSAGE_MIN <= n <= |s|
    ensures SumMatches(s, n) <==> s[n-3] == CrcHi(s[..n-3]) && s[n-2] == CrcLo(s[..n-3])
  {
  }

  lemma CrcBytes(s: seq<u8>, crc: bv32)
    requires crc == Wide(CrcOf(s))
    ensures crc >> 8 < 256 && ((crc >> 8) as bv8) as int == CrcHi(s)
    ensures crc & 0xff < 256 && ((crc & 0xff) as bv8) as int == CrcLo(s)
  {
  }

  /** The block that carries a payload under a sequence number; host and firmware build the same one. */
  function Frame(seqnr: u8, payload: seq<u8>): (f: seq<u8>)
    requires 0x10 <= seqnr < 0x20 && |payload| <= MESSAGE_PAYLOAD_MAX
    ensures |f| == |payload| + 5
  {
    var head: seq<u8> := [MESSAGE_MIN + |payload|, seqnr] + payload;
    head + [CrcHi(head), CrcLo(head), MESSAGE_SYNC]
  }

  /** A framed payload passes the check, whatever follows it. */
  lemma FrameIsGood(seqnr: u8, payload: seq<u8>, rest: seq<u8>)
    requires 0x10 <= seqnr < 0x20 && |payload| <= MESSAGE_PAYLOAD_MAX
    ensures Check(Frame(seqnr, payload) + rest) == Good(|payload| + 5)
  {
    hide CrcHi, CrcLo;
    var head: seq<u8> := [MESSAGE_MIN + |payload|, seqnr] + payload;
    var s := Frame(seqnr, payload) + rest;
    assert s[..|head|] == head;
    SumByBytes(s, |payload| + 5);
  }

  /** More bytes change a check only if it was waiting for them. */
  lemma CheckExtends(s: seq<u8>, more: seq<u8>)
    requires !Check(s).MoreData?
    ensures Check(s + more) == Check(s)
  {
    hide CrcHi, CrcLo;
    var t := s + more;
    if MESSAGE_MIN <= s[0] <= |s| {
      assert t[..s[0]-3] == s[..s[0]-3];
    }
  }

  function Word(hi: int, lo: int): (r: int) {
    256 * hi + lo
  }

  /** The two check sum bytes, high one first, are the check sum. */
  lemma CrcFromBytes(s: seq<u8>)
    ensures Word(CrcHi(s), CrcLo(s)) == CrcOf(s) as int
  {
    var c := CrcOf(s);
    HighAndLow(c);
  }

  lemma SameWord(hi: u8, lo: u8, hi': u8, lo': u8)
    ensures Word(hi, lo) == Word(hi', lo') <==> hi == hi' && lo == lo'
  {
  }

  lemma HighAndLow(c: bv16)
    ensures ((c >> 8) as bv8) as int * 256 + ((c & 0xff) as bv8) as int == c as int
  {
  }

  /** Where the parts of a block are. */
  lemma FrameLayout(seqnr: u8, payload: seq<u8>)
    requires 0x10 <= seqnr < 0x20 && |payload| <= MESSAGE_PAYLOAD_MAX
    ensures var f, n := Frame(seqnr, payload), |payload| + 5;
            && |f| == n == f[0] && f[1] == seqnr && f[2..n-3] == payload
            && Word(f[n-3], f[n-2]) == Remainder(f[..n-3]) as int && f[n-1] == 0x7e
  {
    hide CrcHi, CrcLo, CrcOf, Remainder;
    var head: seq<u8> := [MESSAGE_MIN + |payload|, seqnr] + payload;
    assert Frame(seqnr, payload)[..|payload|+2] == head;
    CrcFromBytes(head);
    CrcDivides(head);
  }

  /** Exactly these bytes are a block. */
  lemma GoodBlock(s: seq<u8>, n: nat)
    ensures Check(s) == Good(n) <==>
              && 5 <= n <= 64 && n <= |s| && s[0] == n && s[1] / 16 == 1
              && Word(s[n-3], s[n-2]) == Remainder(s[..n-3]) as int && s[n-1] == 0x7e
  {
    hide CrcHi, CrcLo, CrcOf, Remainder, Word;
    if 5 <= n <= |s| {
      CrcFromBytes(s[..n-3]);
      SameWord(s[n-3], s[n-2], CrcHi(s[..n-3]), CrcLo(s[..n-3]));
      CrcDivides(s[..n-3]);
    }
  }

  /** A check waits exactly while the bytes at hand are fewer than five, or than those of a possible block. */
  lemma WaitsForMore(s: seq<u8>)
    ensures Check(s).MoreData? <==> |s| < 5 || (|s| < s[0] <= 64 && s[1] / 16 == 1)
  {
  }
}
