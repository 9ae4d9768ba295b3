/** Parameter lists of messages: how the host and the firmware write and read them. */
module Messages {
  import opened Bytes
  import opened Clock32
  import opened Vlq

  datatype ParamType = IntParam(signed: bool) | BufferParam

  datatype Value = IntValue(v: int) | BufferValue(bytes: seq<u8>)

  datatype Params = Error | Params(values: seq<Value>, next: nat)

  function Min(a: nat, b: nat): (r: nat) {
    if a <= b then a else b
  }

  /** The bytes of one parameter; the writer is the firmware or the host. */
  function EncodeValue(x: Value, firmware: bool): (r: seq<u8>)
    requires x.BufferValue? ==> |x.bytes| < 256
    ensures x.BufferValue? ==> |r| == |x.bytes| + 1 && r[0] == |x.bytes| && r[1..] == x.bytes
  {
    match x
    case IntValue(v) => if firmware then EncodeC(Wrap(v)) else EncodePy(v)
    case BufferValue(b) => [|b|] + b
  }

  ghost predicate Short(values: seq<Value>) {
    forall i :: 0 <= i < |values| && values[i].BufferValue? ==> |values[i].bytes| < 256
  }

  function EncodeParams(values: seq<Value>, firmware: bool): (r: seq<u8>)
    requires Short(values)
  {
    if values == [] then [] else EncodeValue(values[0], firmware) + EncodeParams(values[1..], firmware)
  }

  // ---------- Reading on the host ----------

  /** One parameter at pos; a buffer that runs past the end is cut off silently. */
  function HostValue(t: ParamType, s: seq<u8>, pos: nat): (r: Params) {
    match t
    case IntParam(signed) =>
      (match Parse(s, pos)
       case Nothing => Error
       case Read(v, p) => Params([IntValue(if signed then v else Wrap(v))], p))
    case BufferParam =>
      if pos >= |s| then Error
      else Params([BufferValue(s[pos+1..Min(pos + 1 + s[pos], |s|)])], pos + 1 + s[pos])
  }

  // ---------- Reading in the firmware ----------

  /** One parameter at pos of a message that ends at maxend; the bytes behind it are still in the buffer. */
  function FirmwareValue(t: ParamType, s: seq<u8>, maxend: nat, pos: nat): (r: Params) {
    if pos > maxend then Error
    else
      match t
      case IntParam(_) =>
        (match Parse(s, pos)
         case Nothing => Error
         case Read(v, p) => Params([IntValue(Wrap(v))], p))
      case BufferParam =>
        if pos >= |s| || pos + 1 + s[pos] > maxend || maxend > |s| then Error
        else Params([BufferValue(s[pos+1..pos+1+s[pos]])], pos + 1 + s[pos])
  }

  // ---------- Reading all parameters ----------

  type Reader = (ParamType, nat) -> Params

  function HostReader(s: seq<u8>): (r: Reader) {
    (t: ParamType, p: nat) => HostValue(t, s, p)
  }

  function FirmwareReader(s: seq<u8>, maxend: nat): (r: Reader) {
    (t: ParamType, p: nat) => FirmwareValue(t, s, maxend, p)
  }

  function ReadAll(read: Reader, types: seq<ParamType>, pos: nat): (r: Params) {
    if types == [] then Params([], pos)
    else
      match read(types[0], pos)
      case Error => Error
      case Params(x, p) =>
        (match ReadAll(read, types[1..], p)
         case Error => Error
         case Params(xs, e) => Params(x + xs, e))
  }

  /** The parameters so far followed by one more. */
  function Extended(read: Reader, sofar: Params, t: ParamType): (r: Params) {
    match sofar
    case Error => Error
    case Params(xs, p) =>
      (match read(t, p)
       case Error => Error
       case Params(x, e) => Params(xs + x, e))
  }

  lemma {:induction false} ReadAllStep(read: Reader, types: seq<ParamType>, k: nat, pos: nat)
    requires k < |types|
    ensures ReadAll(read, types[..k+1], pos) == Extended(read, ReadAll(read, types[..k], pos), types[k])
    decreases k
  {
    var a := types[..k+1];
    var h := read(types[0], pos);
    if k == 0 {
      assert a == [types[0]] && a[1..] == [] && types[..0] == [];
      if h.Params? {
        assert ReadAll(read, a[1..], h.next) == Params([], h.next);
        assert h.values + [] == [] + h.values;
      }
    } else {
      assert a[1..] == types[1..][..k] && types[..k][1..] == types[1..][..k-1];
      if h.Params? {
        ReadAllStep(read, types[1..], k - 1, h.next);
        var r := ReadAll(read, types[1..][..k-1], h.next);
        if r.Params? {
          var l := read(types[k], r.next);
          if l.Params? {
            assert h.values + (r.values + l.values) == (h.values + r.values) + l.values;
          }
        }
      }
    }
  }

  lemma {:induction false} ErrorStays(read: Reader, types: seq<ParamType>, k: nat, pos: nat)
    requires k <= |types| && ReadAll(read, types[..k], pos) == Error
    ensures ReadAll(read, types, pos) == Error
    decreases |types| - k
  {
    if k < |types| {
      ReadAllStep(read, types, k, pos);
      ErrorStays(read, types, k + 1, pos);
    } else {
      assert types[..k] == types;
    }
  }

  /** The loop of the host over the parameters of a message. */
  method ParseMessage(types: seq<ParamType>, s: seq<u8>, pos: nat) returns (r: Params)
    ensures r == ReadAll(HostReader(s), types, pos)
  {
    var values: seq<Value>, p: nat := [], pos;
    var k := 0;
    while k < |types|
      invariant 0 <= k <= |types|
      invariant ReadAll(HostReader(s), types[..k], pos) == Params(values, p)
    {
      ReadAllStep(HostReader(s), types, k, pos);
      match types[k] {
        case IntParam(signed) =>
          var x := ParsePy(s, p, signed);
          if x.Nothing? {
            ErrorStays(HostReader(s), types, k + 1, pos);
            return Error;
          }
          values, p := values + [IntValue(x.value)], x.next;
        case BufferParam =>
          if p >= |s| {
            ErrorStays(HostReader(s), types, k + 1, pos);
            return Error;
          }
          values, p := values + [BufferValue(s[p+1..Min(p + 1 + s[p], |s|)])], p + 1 + s[p];
      }
      k := k + 1;
    }
    assert types[..k] == types;
    r := Params(values, p);
  }

  /** The loop of the firmware over the parameters of a command. */
  method CommandParsef(types: seq<ParamType>, s: seq<u8>, maxend: nat, pos: nat) returns (r: Params)
    requires maxend <= |s|
    ensures r == ReadAll(FirmwareReader(s, maxend), types, pos)
  {
    var args: seq<Value>, p: nat := [], pos;
    var k := 0;
    while k < |types|
      invariant 0 <= k <= |types|
      invariant ReadAll(FirmwareReader(s, maxend), types[..k], pos) == Params(args, p)
    {
      ReadAllStep(FirmwareReader(s, maxend), types, k, pos);
      if p > maxend {
        ErrorStays(FirmwareReader(s, maxend), types, k + 1, pos);
        return Error;
      }
      match types[k] {
        case IntParam(_) =>
          var x := ParseC(s, p);
          if x.Nothing? {
            ErrorStays(FirmwareReader(s, maxend), types, k + 1, pos);
            return Error;
          }
          args, p := args + [IntValue(x.value)], x.next;
        case BufferParam =>
          if p >= |s| || p + 1 + s[p] > maxend {
            ErrorStays(FirmwareReader(s, maxend), types, k + 1, pos);
            return Error;
          }
          args, p := args + [BufferValue(s[p+1..p+1+s[p]])], p + 1 + s[p];
      }
      k := k + 1;
    }
    assert types[..k] == types;
    r := Params(args, p);
  }

  // ---------- Round trips ----------

  /** The value can be sent by the writer as a parameter of the type and be told from all others. */
  ghost predicate Fits(t: ParamType, x: Value, firmware: bool) {
    match x
    case BufferValue(b) => t.BufferParam? && |b| < 256
    case IntValue(v) =>
      && t.IntParam?
      && (!t.signed ==> 0 <= v < WRAP)
      && (t.signed && firmware ==> -0x400_0000 <= v < HALF)
      && (t.signed && !firmware ==> -0x2_0000_0000 <= v < 0x6_0000_0000)
  }

  ghost predicate AllFit(types: seq<ParamType>, values: seq<Value>, firmware: bool) {
    |types| == |values| && forall i :: 0 <= i < |types| ==> Fits(types[i], values[i], firmware)
  }

  /** What the firmware gets for a value: integers modulo 2^32. */
  function Received(x: Value): (r: Value)
    ensures x.IntValue? ==> r.IntValue? && 0 <= r.v < 0x1_0000_0000 && (r.v - x.v) % 0x1_0000_0000 == 0
    ensures x.BufferValue? ==> r == x
  {
    match x
    case IntValue(v) => IntValue(Wrap(v))
    case BufferValue(_) => x
  }

  function AllReceived(values: seq<Value>): (r: seq<Value>)
    ensures |r| == |values|
  {
    if values == [] then [] else [Received(values[0])] + AllReceived(values[1..])
  }

  lemma HostReadsBuffer(t: ParamType, b: seq<u8>, s: seq<u8>, pos: nat)
    requires t.BufferParam? && |b| < 256 && Holds(s, pos, [|b|] + b)
    ensures HostValue(t, s, pos) == Params([BufferValue(b)], pos + |b| + 1)
  {
    assert s[pos] == (s[pos..pos+|b|+1])[0] == |b|;
    assert s[pos+1..pos+1+|b|] == (s[pos..pos+|b|+1])[1..] == b;
  }

  lemma HostReadsInt(t: ParamType, v: int, firmware: bool, s: seq<u8>, pos: nat)
    requires Fits(t, IntValue(v), firmware) && Holds(s, pos, EncodeValue(IntValue(v), firmware))
    ensures HostValue(t, s, pos) == Params([IntValue(v)], pos + |EncodeValue(IntValue(v), firmware)|)
  {
    hide EncodeC, EncodePy, Parse, Holds;
    if firmware {
      EveryoneReadsC(s, pos, Wrap(v));
      SignedFacts(Wrap(v));
      if v < 0 {
        WrapShift(v, 1);
      }
    } else {
      PyReadsPy(s, pos, v);
    }
  }

  lemma HostReadsValue(t: ParamType, x: Value, firmware: bool, s: seq<u8>, pos: nat)
    requires Fits(t, x, firmware) && Holds(s, pos, EncodeValue(x, firmware))
    ensures HostValue(t, s, pos) == Params([x], pos + |EncodeValue(x, firmware)|)
  {
    match x
    case IntValue(v) => HostReadsInt(t, v, firmware, s, pos);
    case BufferValue(b) => HostReadsBuffer(t, b, s, pos);
  }

  lemma FirmwareReadsValue(t: ParamType, x: Value, s: seq<u8>, maxend: nat, pos: nat)
    requires t.IntParam? == x.IntValue? && (x.BufferValue? ==> |x.bytes| < 256)
    requires Holds(s, pos, EncodeValue(x, false)) && pos + |EncodeValue(x, false)| <= maxend <= |s|
    ensures FirmwareValue(t, s, maxend, pos) == Params([Received(x)], pos + |EncodeValue(x, false)|)
  {
    match x
    case IntValue(v) =>
      PyReadsPy(s, pos, v);
    case BufferValue(b) =>
      assert s[pos] == (s[pos..pos+|b|+1])[0] == |b|;
      assert s[pos+1..pos+1+|b|] == (s[pos..pos+|b|+1])[1..] == b;
  }

  lemma HoldsParts(s: seq<u8>, pos: nat, a: seq<u8>, b: seq<u8>)
    requires Holds(s, pos, a + b)
    ensures Holds(s, pos, a) && Holds(s, pos + |a|, b)
  {
    var c := s[pos..pos+|a|+|b|];
    assert s[pos..pos+|a|] == c[..|a|] && s[pos+|a|..pos+|a|+|b|] == c[|a|..];
  }

  /** The host gets back every parameter list that the host or the firmware wrote. */
  lemma {:induction false} HostReadsParams(types: seq<ParamType>, values: seq<Value>, firmware: bool, s: seq<u8>, pos: nat)
    requires AllFit(types, values, firmware) && Short(values) && Holds(s, pos, EncodeParams(values, firmware))
    ensures ReadAll(HostReader(s), types, pos) == Params(values, pos + |EncodeParams(values, firmware)|)
    decreases |values|
  {
    hide HostValue, EncodeValue, Fits;
    if values != [] {
      var e := EncodeValue(values[0], firmware);
      HoldsParts(s, pos, e, EncodeParams(values[1..], firmware));
      HostReadsValue(types[0], values[0], firmware, s, pos);
      HostReadsParams(types[1..], values[1..], firmware, s, pos + |e|);
    }
  }

  /** The firmware gets every parameter list that the host wrote, with integers modulo 2^32, and no error. */
  lemma {:induction false} FirmwareReadsParams(types: seq<ParamType>, values: seq<Value>, s: seq<u8>, maxend: nat, pos: nat)
    requires |types| == |values| && Short(values)
    requires forall i :: 0 <= i < |types| ==> types[i].IntParam? == values[i].IntValue?
    requires Holds(s, pos, EncodeParams(values, false)) && pos + |EncodeParams(values, false)| <= maxend <= |s|
    ensures ReadAll(FirmwareReader(s, maxend), types, pos)
         == Params(AllReceived(values), pos + |EncodeParams(values, false)|)
    decreases |values|
  {
    hide FirmwareValue, EncodeValue;
    if values != [] {
      var e := EncodeValue(values[0], false);
      HoldsParts(s, pos, e, EncodeParams(values[1..], false));
      FirmwareReadsValue(types[0], values[0], s, maxend, pos);
      FirmwareReadsParams(types[1..], values[1..], s, maxend, pos + |e|);
    }
  }
}
