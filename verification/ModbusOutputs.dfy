/**
 The robot's digital outputs behind Modbus registers: the single and the batch setter of app/robot_rtde.py. Registers
 are read and written as in sections 6.3 and 6.6 of the MODBUS Application Protocol Specification V1.1b3.
 */
module ModbusOutputs {
  import opened Outcomes

  /** A register's sixteen bits, lowest first. */
  type Register = bits: seq<bool> | |bits| == 16 witness seq(16, i => false)

  datatype Bank = Standard | Configurable | Tool | OtherBank

  datatype Output = Output(bank: Bank, index: int, enabled: bool)

  datatype OutputError = UnknownBank | InvalidIndex | LinkFailed

  /** The register and bit behind an output. */
  datatype Pin = Pin(register: nat, bit: nat)

  const STANDARD_REGISTER: nat := 1
  const CONFIGURABLE_REGISTER: nat := 31

  function PinOf(bank: Bank, index: int): (r: Result<Pin, OutputError>)
    ensures r.Success? ==> r.value.register in [STANDARD_REGISTER, CONFIGURABLE_REGISTER] && r.value.bit < 16
  {
    if bank.OtherBank? then Failure(UnknownBank)
    else if !(0 <= index <= if bank.Tool? then 1 else 7) then Failure(InvalidIndex)
    else match bank
      case Standard => Success(Pin(STANDARD_REGISTER, index))
      case Configurable => Success(Pin(CONFIGURABLE_REGISTER, index))
      case Tool => Success(Pin(STANDARD_REGISTER, index + 8))
  }

  /** Different outputs never share a bit, though standard and tool outputs share a register. */
  lemma {:induction false} PinsNeverCollide(a: Bank, i: int, b: Bank, j: int)
    requires PinOf(a, i).Success? && PinOf(a, i) == PinOf(b, j)
    ensures a == b && i == j
  {
    assert PinOf(a, i).value.bit == if a.Tool? then i + 8 else i;
  }

  /** Which output a bit of a register drives, if any. */
  function DrivenBy(pin: Pin): Option<(Bank, int)> {
    if pin.register == 31 && pin.bit < 8 then Some((Configurable, pin.bit))
    else if pin.register == 1 && pin.bit < 8 then Some((Standard, pin.bit))
    else if pin.register == 1 && pin.bit < 10 then Some((Tool, pin.bit - 8))
    else None
  }

  /** An output is found at exactly the bit that it drives; one that drives none names no bank or an index beyond it. */
  lemma {:induction false} PinIsDriven(bank: Bank, index: int, pin: Pin)
    ensures PinOf(bank, index) == Success(pin) <==> DrivenBy(pin) == Some((bank, index))
    ensures PinOf(bank, index) == Failure(UnknownBank) <==> bank == OtherBank
    ensures PinOf(bank, index) == Failure(InvalidIndex) <==>
              bank != OtherBank && (index < 0 || index >= 8 || (bank == Tool && index >= 2))
  {
    assert 0 <= index < 8 ==> DrivenBy(Pin(1, index)) == Some((Standard, index));
  }

  // ---------- bits of a register ----------

  /** `word | (1 << bit)` or `word & ~(1 << bit)`. */
  function WithBit(word: Register, bit: nat, on: bool): Register
    requires bit < 16
  {
    word[bit := on]
  }

  function Value(bits: seq<bool>): nat {
    if bits == [] then 0 else (if bits[0] then 1 else 0) + 2 * Value(bits[1..])
  }

  function PowerOfTwo(n: nat): nat {
    if n == 0 then 1 else 2 * PowerOfTwo(n - 1)
  }

  /** Setting or clearing a bit moves the register's value by that power of two, or not at all; it stays in sixteen bits. */
  lemma {:induction false} ValueWithBit(bits: seq<bool>, bit: nat, on: bool)
    requires bit < |bits|
    ensures Value(bits[bit := on]) ==
              Value(bits) + (if on && !bits[bit] then PowerOfTwo(bit) else 0) - (if !on && bits[bit] then PowerOfTwo(bit) else 0)
    ensures Value(bits) < PowerOfTwo(|bits|)
    decreases bits
  {
    ValueIsBounded(bits);
    if bit > 0 {
      assert bits[bit := on][1..] == bits[1..][bit - 1 := on];
      ValueWithBit(bits[1..], bit - 1, on);
    } else {
      assert bits[bit := on][1..] == bits[1..];
    }
  }

  lemma {:induction false} ValueIsBounded(bits: seq<bool>)
    ensures Value(bits) < PowerOfTwo(|bits|)
  {
    if bits != [] {
      ValueIsBounded(bits[1..]);
    }
  }

  // ---------- one output, and a list of them ----------

  type Registers = map<nat, Register>

  predicate HasOutputs(registers: Registers) {
    STANDARD_REGISTER in registers && CONFIGURABLE_REGISTER in registers
  }

  predicate AllValid(outputs: seq<Output>) {
    forall i | 0 <= i < |outputs| :: PinOf(outputs[i].bank, outputs[i].index).Success?
  }

  /** Entry `i` is the first that names no output, and why. */
  predicate FirstInvalid(outputs: seq<Output>, i: nat, error: OutputError) {
    i < |outputs| && AllValid(outputs[..i]) && PinOf(outputs[i].bank, outputs[i].index) == Failure(error)
  }

  /** The registers once one output has been set. */
  function SetOne(registers: Registers, o: Output): (after: Registers)
    requires HasOutputs(registers) && PinOf(o.bank, o.index).Success?
    ensures HasOutputs(after)
  {
    var pin := PinOf(o.bank, o.index).value;
    registers[pin.register := WithBit(registers[pin.register], pin.bit, o.enabled)]
  }

  /** Setting outputs one after another, in the order listed. */
  function SetEach(registers: Registers, outputs: seq<Output>): (after: Registers)
    requires HasOutputs(registers) && AllValid(outputs)
    ensures HasOutputs(after)
  {
    if outputs == [] then registers else
      var n := |outputs| - 1;
      SetOne(SetEach(registers, outputs[..n]), outputs[n])
  }

  predicate Names(o: Output, pin: Pin) {
    PinOf(o.bank, o.index) == Success(pin)
  }

  /** What is asked last of a pin, if anything. */
  function LastAsked(outputs: seq<Output>, pin: Pin): Option<bool> {
    if outputs == [] then None else
      var n := |outputs| - 1;
      if Names(outputs[n], pin) then Some(outputs[n].enabled) else LastAsked(outputs[..n], pin)
  }

  function BitOf(registers: Registers, pin: Pin): bool
    requires pin.register in registers && pin.bit < 16
  {
    registers[pin.register][pin.bit]
  }

  /** Each bit ends as what was asked of it last, and otherwise as it was; other registers are untouched. */
  ghost predicate AsAsked(before: Registers, outputs: seq<Output>, after: Registers) {
    && after.Keys == before.Keys
    && forall r: nat, b: nat :: r in before && b < 16 ==> BitAsAsked(before, outputs, after, Pin(r, b))
  }

  predicate BitAsAsked(before: Registers, outputs: seq<Output>, after: Registers, pin: Pin)
    requires pin.register in before && pin.register in after && pin.bit < 16
  {
    var asked := LastAsked(outputs, pin);
    BitOf(after, pin) == if asked.Some? then asked.value else BitOf(before, pin)
  }

  lemma {:induction false} SetEachIsAsAsked(registers: Registers, outputs: seq<Output>)
    requires HasOutputs(registers) && AllValid(outputs)
    ensures AsAsked(registers, outputs, SetEach(registers, outputs))
    decreases |outputs|
  {
    if outputs != [] {
      var n := |outputs| - 1;
      SetEachIsAsAsked(registers, outputs[..n]);
      var earlier, after := SetEach(registers, outputs[..n]), SetEach(registers, outputs);
      var pin := PinOf(outputs[n].bank, outputs[n].index).value;
      forall r: nat, b: nat | r in registers && b < 16
        ensures BitAsAsked(registers, outputs, after, Pin(r, b))
      {
        assert BitAsAsked(registers, outputs[..n], earlier, Pin(r, b));
      }
    }
  }

  /** Registers are determined by what was asked. */
  lemma {:induction false} AsAskedIsUnique(before: Registers, outputs: seq<Output>, a: Registers, b: Registers)
    requires AsAsked(before, outputs, a) && AsAsked(before, outputs, b)
    ensures a == b
  {
    forall r | r in a
      ensures a[r] == b[r]
    {
      forall i: nat | i < 16
        ensures a[r][i] == b[r][i]
      {
        assert BitAsAsked(before, outputs, a, Pin(r, i)) && BitAsAsked(before, outputs, b, Pin(r, i));
      }
    }
  }

  // ---------- the setters ----------

  /** The requests for each register, gathered by bit. */
  type Updates = map<nat, map<nat, bool>>

  /** The registers some output lies in. */
  function Named(outputs: seq<Output>): set<nat> {
    set i | 0 <= i < |outputs| && PinOf(outputs[i].bank, outputs[i].index).Success? :: PinOf(outputs[i].bank, outputs[i].index).value.register
  }

  ghost predicate Gathered(updates: Updates, outputs: seq<Output>) {
    && (forall r: nat, b: nat :: Asked(updates, Pin(r, b)) == LastAsked(outputs, Pin(r, b)))
    && (forall r | r in updates :: r in [STANDARD_REGISTER, CONFIGURABLE_REGISTER] && forall b | b in updates[r] :: b < 16)
    && updates.Keys == Named(outputs)
  }

  function Asked(updates: Updates, pin: Pin): Option<bool> {
    if pin.register in updates && pin.bit in updates[pin.register] then Some(updates[pin.register][pin.bit]) else None
  }

  /** The registers of the updates, each once. */
  ghost predicate Orders(order: seq<nat>, updates: Updates) {
    && (forall i, j | 0 <= i < j < |order| :: order[i] != order[j])
    && (forall r :: r in order <==> r in updates)
  }

  /** `setdefault` and assignment. */
  function Request(updates: Updates, pin: Pin, on: bool): Updates {
    updates[pin.register := (if pin.register in updates then updates[pin.register] else map[])[pin.bit := on]]
  }

  lemma {:induction false} GatherOneMore(updates: Updates, outputs: seq<Output>, o: Output)
    requires Gathered(updates, outputs) && PinOf(o.bank, o.index).Success?
    ensures Gathered(Request(updates, PinOf(o.bank, o.index).value, o.enabled), outputs + [o])
  {
    var pin, more := PinOf(o.bank, o.index).value, outputs + [o];
    var after := Request(updates, pin, o.enabled);
    assert more[..|outputs|] == outputs;
    forall r: nat, b: nat
      ensures Asked(after, Pin(r, b)) == LastAsked(more, Pin(r, b))
    {
      assert Asked(updates, Pin(r, b)) == LastAsked(outputs, Pin(r, b));
    }
    forall r
      ensures r in Named(more) <==> r in Named(outputs) || r == pin.register
    {
      if i :| 0 <= i < |outputs| && PinOf(outputs[i].bank, outputs[i].index).Success? && PinOf(outputs[i].bank, outputs[i].index).value.register == r {
        assert more[i] == outputs[i];
      }
      assert more[|outputs|] == o;
    }
    assert after.Keys == Named(more);
  }

  lemma {:induction false} OrderOneMore(order: seq<nat>, updates: Updates, pin: Pin, on: bool)
    requires Orders(order, updates)
    ensures Orders(if pin.register in updates then order else order + [pin.register], Request(updates, pin, on))
  {
  }

  function Portion(registers: Registers, touched: set<nat>): Registers {
    map r | r in touched && r in registers :: registers[r]
  }

  /** The cache once the touched registers' values have been put into it. */
  function Refreshed(cache: Option<Registers>, registers: Registers, touched: set<nat>): Option<Registers> {
    if cache.None? then None else Some(cache.value + Portion(registers, touched))
  }

  /** No register is left with only some of its bits changed. */
  predicate EachOldOrNew(before: Registers, final: Registers, after: Registers) {
    && after.Keys == before.Keys == final.Keys
    && forall r | r in after :: after[r] == before[r] || after[r] == final[r]
  }

  /** The first `i` registers have their final words, the others are as before. */
  ghost predicate DoneUpTo(before: Registers, final: Registers, now: Registers, order: seq<nat>, i: nat) {
    && now.Keys == before.Keys == final.Keys && i <= |order|
    && forall r | r in now :: now[r] == if r in order[..i] then final[r] else before[r]
  }

  /** The word a register ends with. */
  lemma {:induction false} UpdatedWord(before: Registers, updates: Updates, outputs: seq<Output>, r: nat)
    requires HasOutputs(before) && AllValid(outputs) && Gathered(updates, outputs) && r in before
    ensures r in SetEach(before, outputs)
    ensures SetEach(before, outputs)[r] == if r in updates then WithBits(before[r], updates[r]) else before[r]
  {
    var final := SetEach(before, outputs);
    SetEachIsAsAsked(before, outputs);
    var word := if r in updates then WithBits(before[r], updates[r]) else before[r];
    forall b: nat | b < 16
      ensures final[r][b] == word[b]
    {
      assert BitAsAsked(before, outputs, final, Pin(r, b));
      assert Asked(updates, Pin(r, b)) == LastAsked(outputs, Pin(r, b));
    }
  }

  /** Distinct members of a set are no more than the set. */
  lemma {:induction false} NoMoreThan(order: seq<nat>, members: set<nat>)
    requires forall i, j | 0 <= i < j < |order| :: order[i] != order[j]
    requires forall r | r in order :: r in members
    ensures |order| <= |members|
    decreases |order|
  {
    if order != [] {
      var n := |order| - 1;
      NoMoreThan(order[..n], members - {order[n]});
      assert order[n] in order;
    }
  }

  lemma {:induction false} AtMostTwo(order: seq<nat>, updates: Updates, outputs: seq<Output>)
    requires Orders(order, updates) && Gathered(updates, outputs)
    ensures |order| <= 2
  {
    NoMoreThan(order, {STANDARD_REGISTER, CONFIGURABLE_REGISTER});
  }

  /** A word with the gathered bits set. */
  function WithBits(word: Register, bits: map<nat, bool>): Register {
    seq(16, i requires 0 <= i < 16 => if i in bits then bits[i] else word[i])
  }

  /** One read, and one write if the word changes. */
  function OperationsFor(word: Register, bits: map<nat, bool>): (n: nat)
    ensures 1 <= n <= 2
  {
    if WithBits(word, bits) == word then 1 else 2
  }

  /** The registers whose word changes. */
  function Changed(before: Registers, final: Registers): set<nat> {
    set r | r in before && r in final && final[r] != before[r]
  }

  /** A batch reads each register it names once, and writes those that change. */
  function OperationsForAll(before: Registers, outputs: seq<Output>): nat
    requires HasOutputs(before) && AllValid(outputs)
  {
    |Named(outputs)| + |Changed(before, SetEach(before, outputs))|
  }

  /** What the registers of the list take, one after another. */
  function Spent(before: Registers, final: Registers, order: seq<nat>): nat
    requires forall r | r in order :: r in before && r in final
  {
    if order == [] then 0 else
      var n := |order| - 1;
      assert order[n] in order;
      Spent(before, final, order[..n]) + if final[order[n]] == before[order[n]] then 1 else 2
  }

  function Members(order: seq<nat>): set<nat> {
    set r | r in order
  }

  lemma {:induction false} OneMoreMember(order: seq<nat>, last: nat, some: set<nat>)
    requires last !in order
    ensures |Members(order + [last])| == |Members(order)| + 1
    ensures |Members(order + [last]) * some| == |Members(order) * some| + if last in some then 1 else 0
  {
    var members := Members(order);
    assert Members(order + [last]) == members + {last};
    if last in some {
      assert (members + {last}) * some == members * some + {last};
    } else {
      assert (members + {last}) * some == members * some;
    }
  }

  lemma {:induction false} SpentInSets(before: Registers, final: Registers, order: seq<nat>)
    requires forall r | r in order :: r in before && r in final
    requires forall i, j | 0 <= i < j < |order| :: order[i] != order[j]
    ensures Spent(before, final, order) == |Members(order)| + |Members(order) * Changed(before, final)|
    decreases |order|
  {
    if order != [] {
      var n := |order| - 1;
      var fewer, last := order[..n], order[n];
      assert last in order;
      assert last in Changed(before, final) <==> final[last] != before[last];
      SpentInSets(before, final, fewer);
      hide Changed, Members;
      OneMoreMember(fewer, last, Changed(before, final));
      assert order == fewer + [last];
    }
  }

  lemma {:induction false} SpentGrows(before: Registers, final: Registers, order: seq<nat>, i: nat)
    requires (forall r | r in order :: r in before && r in final) && i < |order|
    ensures Spent(before, final, order[..i + 1]) == Spent(before, final, order[..i]) + if final[order[i]] == before[order[i]] then 1 else 2
    ensures Spent(before, final, order[..i + 1]) <= Spent(before, final, order)
    decreases |order| - i
  {
    assert order[..i + 1][..i] == order[..i];
    if i + 1 < |order| {
      SpentGrows(before, final, order, i + 1);
    } else {
      assert order[..i + 1] == order;
    }
  }

  lemma {:induction false} NothingSpent(before: Registers, final: Registers, order: seq<nat>)
    requires forall r | r in order :: r in before && r in final
    ensures Spent(before, final, order[..0]) == 0
  {
  }

  lemma {:induction false} SpentNext(before: Registers, order: seq<nat>, i: nat, updates: Updates, outputs: seq<Output>)
    requires HasOutputs(before) && AllValid(outputs) && Gathered(updates, outputs) && Orders(order, updates) && i < |order|
    requires forall r | r in order :: r in before && r in SetEach(before, outputs)
    ensures order[i] in updates && order[i] in before
    ensures var final := SetEach(before, outputs);
            && Spent(before, final, order[..i + 1]) == Spent(before, final, order[..i]) + OperationsFor(before[order[i]], updates[order[i]])
            && Spent(before, final, order[..i + 1]) <= Spent(before, final, order)
  {
    FinalWords(before, updates, outputs);
    assert order[i] in order;
    SpentGrows(before, SetEach(before, outputs), order, i);
  }

  lemma {:induction false} SpentInAll(before: Registers, order: seq<nat>, updates: Updates, outputs: seq<Output>)
    requires HasOutputs(before) && AllValid(outputs) && Gathered(updates, outputs) && Orders(order, updates)
    ensures forall r | r in order :: r in before && r in SetEach(before, outputs)
    ensures Spent(before, SetEach(before, outputs), order) == OperationsForAll(before, outputs)
  {
    FinalWords(before, updates, outputs);
    var final := SetEach(before, outputs);
    SpentInSets(before, final, order);
    assert Members(order) == Named(outputs);
    assert Changed(before, final) <= Members(order);
    assert Members(order) * Changed(before, final) == Changed(before, final);
  }

  /** Of the device: how many more register reads and writes succeed, and whether the one that fails took effect. */
  datatype Link = Link(budget: nat, lands: bool)

  class OutputServer {
    var registers: Registers
    var cache: Option<Registers>
    /** The registers written, in order. */
    var written: seq<nat>

    constructor (registers: Registers, cache: Option<Registers>)
      requires HasOutputs(registers)
      ensures this.registers == registers && this.cache == cache && written == []
    {
      this.registers, this.cache, written := registers, cache, [];
    }

    /** Write Single Register. */
    method Write(register: nat, value: Register, link: Link) returns (ok: bool)
      requires register in registers
      modifies `registers, `written
      ensures ok == (link.budget > 0)
      ensures registers == if ok || link.lands then old(registers)[register := value] else old(registers)
      ensures written == if ok || link.lands then old(written) + [register] else old(written)
    {
      ok := link.budget > 0;
      if ok || link.lands {
        registers := registers[register := value];
        written := written + [register];
      }
    }

    /** One register of a batch: read it, set its bits, and write it back if that changed it. Fails only for want of budget. */
    method UpdateRegister(register: nat, bits: map<nat, bool>, link: Link) returns (r: Result<Register,
          OutputError>, left: Link)
      requires register in registers && forall b | b in bits :: b < 16
      modifies `registers, `written
      ensures r.Success? ==> r.value == WithBits(old(registers)[register], bits) && registers == old(registers)[register := r.value]
      ensures r.Success? ==> written == if r.value != old(registers)[register] then old(written) + [register] else old(written)
      ensures r.Failure? ==> r.error == LinkFailed
      ensures r.Failure? ==> registers == old(registers) || registers == old(registers)[register := WithBits(old(registers)[register], bits)]
      ensures |written| <= |old(written)| + 1
      ensures var spent := OperationsFor(old(registers)[register], bits);
              r.Success? == (link.budget >= spent) && (r.Success? ==> left == link.(budget := link.budget - spent))
    {
      left := link;
      if left.budget == 0 {
        return Failure(LinkFailed), left;
      }
      left := left.(budget := left.budget - 1);
      var currentValue := registers[register];
      var nextValue := SetBits(currentValue, bits);
      if nextValue != currentValue {
        var ok := Write(register, nextValue, left);
        if !ok {
          return Failure(LinkFailed), left;
        }
        left := left.(budget := left.budget - 1);
      }
      assert registers == old(registers)[register := nextValue];
      return Success(nextValue), left;
    }

    method SetBits(word: Register, bits: map<nat, bool>) returns (next: Register)
      requires forall b | b in bits :: b < 16
      ensures next == WithBits(word, bits)
    {
      next := word;
      var remaining := bits;
      while remaining != map[]
        invariant forall b | b in remaining :: b in bits && remaining[b] == bits[b]
        invariant forall i: nat | i < 16 :: next[i] == if i in bits && i !in remaining then bits[i] else word[i]
        decreases |remaining|
      {
        var bit :| bit in remaining.Keys;
        next := WithBit(next, bit, bits[bit]);
        var fewer := remaining - {bit};
        assert remaining.Keys == fewer.Keys + {bit};
        remaining := fewer;
      }
    }

    /** `set_robot_digital_output`. */
    method SetOutput(o: Output, link: Link) returns (r: Result<(), OutputError>)
      requires HasOutputs(registers)
      modifies this
      ensures PinOf(o.bank, o.index).Failure? ==>
                r == Failure(PinOf(o.bank, o.index).error) && registers == old(registers) && cache == old(cache) && written == old(written)
      ensures r.Success? ==> registers == SetOne(old(registers), o) && cache == Refreshed(old(cache), registers, Named([o]))
      ensures r.Success? ==> written == if registers == old(registers) then old(written) else old(written) + [PinOf(o.bank, o.index).value.register]
      ensures PinOf(o.bank, o.index).Success? && r.Failure? ==>
                r == Failure(LinkFailed) && cache == old(cache) && registers in [old(registers), SetOne(old(registers), o)]
      ensures PinOf(o.bank, o.index).Success? ==>
                (r.Success? <==> link.budget >= if SetOne(old(registers), o) == old(registers) then 1 else 2)
    {
      var pin :- PinOf(o.bank, o.index);
      var bits: map<nat, bool> := map[pin.bit := o.enabled];
      assert WithBits(registers[pin.register], bits) == WithBit(registers[pin.register], pin.bit, o.enabled);
      assert registers[pin.register := registers[pin.register]] == registers;
      assert SetOne(registers, o) == registers <==> WithBits(registers[pin.register], bits) == registers[pin.register];
      NamedAlone(o);
      var updated, _ := UpdateRegister(pin.register, bits, link);
      if updated.Failure? {
        return Failure(LinkFailed);
      }
      if cache.Some? {
        cache := Some(cache.value[pin.register := updated.value]);
        RefreshOne(old(cache).value, registers, pin.register);
      }
      return Success(());
    }

    /**
     `set_robot_digital_outputs`: either every output is set as if one by one, or, when an entry is invalid, nothing
     is touched, or, when the link fails, each register holds all of its changes or none.
     */
    method SetOutputs(outputs: seq<Output>, link: Link) returns (r: Result<(), OutputError>)
      requires HasOutputs(registers)
      modifies this
      ensures !AllValid(outputs) ==>
                && r.Failure? && (exists i: nat :: FirstInvalid(outputs, i, r.error))
                && registers == old(registers) && cache == old(cache) && written == old(written)
      ensures r.Success? ==>
                && AllValid(outputs) && registers == SetEach(old(registers), outputs)
                && cache == Refreshed(old(cache), registers, Named(outputs))
      ensures r.Failure? && AllValid(outputs) ==>
                && r == Failure(LinkFailed) && cache == old(cache)
                && EachOldOrNew(old(registers), SetEach(old(registers), outputs), registers)
      ensures AllValid(outputs) ==> (r.Success? <==> link.budget >= OperationsForAll(old(registers), outputs))
      ensures |written| <= |old(written)| + 2
    {
      var gathered := Gather(outputs);
      if gathered.Failure? {
        return Failure(gathered.error);
      }
      r := ApplyUpdates(gathered.value.0, gathered.value.1, outputs, link);
    }

    /** All entries are checked before anything is sent. */
    method Gather(outputs: seq<Output>) returns (r: Result<(seq<nat>, Updates), OutputError>)
      ensures r.Success? == AllValid(outputs)
      ensures r.Success? ==> Gathered(r.value.1, outputs) && Orders(r.value.0, r.value.1)
      ensures r.Failure? ==> exists i: nat :: FirstInvalid(outputs, i, r.error)
    {
      hide Gathered, Orders, Request;
      var order: seq<nat>, updates: Updates := [], map[];
      NothingAsked();
      for i := 0 to |outputs|
        invariant AllValid(outputs[..i]) && Gathered(updates, outputs[..i]) && Orders(order, updates)
      {
        var o := outputs[i];
        var pin := PinOf(o.bank, o.index);
        if pin.Failure? {
          assert FirstInvalid(outputs, i, pin.error);
          return Failure(pin.error);
        }
        GatherOneMore(updates, outputs[..i], o);
        OrderOneMore(order, updates, pin.value, o.enabled);
        assert outputs[..i] + [o] == outputs[..i + 1];
        if pin.value.register !in updates {
          order := order + [pin.value.register];
        }
        updates := Request(updates, pin.value, o.enabled);
      }
      assert outputs[..|outputs|] == outputs;
      return Success((order, updates));
    }

    method ApplyUpdates(order: seq<nat>, updates: Updates, outputs: seq<Output>, link: Link) returns (r: Result<(),
          OutputError>)
      requires HasOutputs(registers) && AllValid(outputs) && Gathered(updates, outputs) && Orders(order, updates)
      modifies this
      ensures r.Success? ==>
                && registers == SetEach(old(registers), outputs)
                && cache == Refreshed(old(cache), registers, Named(outputs))
      ensures r.Failure? ==>
                && r == Failure(LinkFailed) && cache == old(cache)
                && EachOldOrNew(old(registers), SetEach(old(registers), outputs), registers)
      ensures r.Success? <==> link.budget >= OperationsForAll(old(registers), outputs)
      ensures |written| <= |old(written)| + 2
    {
      AtMostTwo(order, updates, outputs);
      hide SetEach, Gathered, Orders, DoneUpTo, Portion, Named;
      r := WriteAll(order, updates, outputs, link);
      if r.Success? {
        assert updates.Keys == Named(outputs) by { KeysAreNamed(updates, outputs); }
        if cache.Some? {
          cache := Some(cache.value + Portion(registers, updates.Keys));
        }
      }
    }

    /** The next register of the loop. */
    method WriteNext(order: seq<nat>, i: nat, updates: Updates, link: Link, ghost before: Registers,
          ghost outputs: seq<Output>) returns (ok: bool, left: Link)
      requires HasOutputs(before) && AllValid(outputs) && Gathered(updates, outputs) && Orders(order, updates)
      requires DoneUpTo(before, SetEach(before, outputs), registers, order, i) && i < |order|
      requires order[i] in updates && order[i] in before
      modifies `registers, `written
      ensures ok ==> DoneUpTo(before, SetEach(before, outputs), registers, order, i + 1)
      ensures !ok ==> EachOldOrNew(before, SetEach(before, outputs), registers)
      ensures var spent := OperationsFor(before[order[i]], updates[order[i]]);
              ok == (link.budget >= spent) && (ok ==> left.budget == link.budget - spent)
      ensures |written| <= |old(written)| + 1
    {
      hide *;
      ghost var earlier, final := registers, SetEach(before, outputs);
      NextRegister(before, updates, outputs, registers, order, i);
      var updated;
      updated, left := UpdateRegister(order[i], updates[order[i]], link);
      ok := updated.Success?;
      if ok {
        DoneOneMore(before, final, earlier, registers, order, i);
      } else {
        StoppedPartWay(before, final, earlier, registers, order, i);
      }
    }

    /** The loop over the registers. */
    method WriteAll(order: seq<nat>, updates: Updates, outputs: seq<Output>, link: Link) returns (r: Result<(), OutputError>)
      requires HasOutputs(registers) && AllValid(outputs) && Gathered(updates, outputs) && Orders(order, updates)
      modifies `registers, `written
      ensures r.Success? ==> registers == SetEach(old(registers), outputs)
      ensures r.Failure? ==> r == Failure(LinkFailed) && EachOldOrNew(old(registers), SetEach(old(registers), outputs), registers)
      ensures r.Success? <==> link.budget >= OperationsForAll(old(registers), outputs)
      ensures |written| <= |old(written)| + |order|
    {
      hide *;
      ghost var before, final := registers, SetEach(registers, outputs);
      SpentInAll(before, order, updates, outputs);
      NoneDone(before, final, order, updates, outputs);
      var left := link;
      NothingSpent(before, final, order);
      for i := 0 to |order|
        invariant DoneUpTo(before, final, registers, order, i)
        invariant |written| <= |old(written)| + i
        invariant left.budget + Spent(before, final, order[..i]) == link.budget
      {
        SpentNext(before, order, i, updates, outputs);
        var ok;
        ok, left := WriteNext(order, i, updates, left, before, outputs);
        if !ok {
          return Failure(LinkFailed);
        }
      }
      assert order[..|order|] == order;
      AllDone(before, updates, outputs, registers, order);
      return Success(());
    }
  }

  lemma {:induction false} KeysAreNamed(updates: Updates, outputs: seq<Output>)
    requires Gathered(updates, outputs)
    ensures updates.Keys == Named(outputs)
  {
  }

  lemma {:induction false} NoneDone(before: Registers, final: Registers, order: seq<nat>, updates: Updates,
        outputs: seq<Output>)
    requires HasOutputs(before) && AllValid(outputs) && Gathered(updates, outputs) && final == SetEach(before, outputs)
    ensures DoneUpTo(before, final, before, order, 0)
  {
    FinalWords(before, updates, outputs);
  }

  lemma {:induction false} RefreshOne(cached: Registers, registers: Registers, r: nat)
    requires r in registers
    ensures Some(cached[r := registers[r]]) == Refreshed(Some(cached), registers, {r})
  {
    assert Portion(registers, {r}) == map[r := registers[r]];
    assert cached[r := registers[r]] == cached + Portion(registers, {r});
  }

  lemma {:induction false} DoneOneMore(before: Registers, final: Registers, earlier: Registers, now: Registers,
        order: seq<nat>, i: nat)
    requires DoneUpTo(before, final, earlier, order, i) && i < |order|
    requires order[i] in earlier && now == earlier[order[i] := final[order[i]]]
    ensures DoneUpTo(before, final, now, order, i + 1)
  {
    assert order[..i + 1] == order[..i] + [order[i]];
  }

  /** Whether or not the register at hand took its change, each register is as before or final. */
  lemma {:induction false} StoppedPartWay(before: Registers, final: Registers, earlier: Registers, now: Registers,
        order: seq<nat>, i: nat)
    requires DoneUpTo(before, final, earlier, order, i) && i < |order|
    requires order[i] in earlier && (now == earlier || now == earlier[order[i] := final[order[i]]])
    ensures EachOldOrNew(before, final, now)
  {
  }

  lemma {:induction false} AllDone(before: Registers, updates: Updates, outputs: seq<Output>, now: Registers, order: seq<nat>)
    requires HasOutputs(before) && AllValid(outputs) && Gathered(updates, outputs) && Orders(order, updates)
    requires DoneUpTo(before, SetEach(before, outputs), now, order, |order|)
    ensures now == SetEach(before, outputs)
  {
    FinalWords(before, updates, outputs);
    assert order[..|order|] == order;
  }

  lemma {:induction false} NextRegister(before: Registers, updates: Updates, outputs: seq<Output>, now: Registers,
        order: seq<nat>, i: nat)
    requires HasOutputs(before) && AllValid(outputs) && Gathered(updates, outputs) && Orders(order, updates)
    requires DoneUpTo(before, SetEach(before, outputs), now, order, i) && i < |order|
    ensures order[i] in updates && order[i] in now && order[i] in before && order[i] in SetEach(before, outputs)
    ensures forall b | b in updates[order[i]] :: b < 16
    ensures now[order[i]] == before[order[i]] && SetEach(before, outputs)[order[i]] == WithBits(now[order[i]], updates[order[i]])
  {
    FinalWords(before, updates, outputs);
    assert order[i] in order;
  }

  lemma {:induction false} NothingAsked()
    ensures Gathered(map[], []) && Orders([], map[])
  {
    assert Named([]) == {};
  }

  lemma {:induction false} NamedAlone(o: Output)
    requires PinOf(o.bank, o.index).Success?
    ensures Named([o]) == {PinOf(o.bank, o.index).value.register}
  {
    assert [o][0] == o;
  }

  lemma {:induction false} FinalWords(before: Registers, updates: Updates, outputs: seq<Output>)
    requires HasOutputs(before) && AllValid(outputs) && Gathered(updates, outputs)
    ensures var final := SetEach(before, outputs);
            && final.Keys == before.Keys
            && forall r | r in before :: final[r] == if r in updates then WithBits(before[r], updates[r]) else before[r]
  {
    SetEachIsAsAsked(before, outputs);
    forall r | r in before
      ensures SetEach(before, outputs)[r] == if r in updates then WithBits(before[r], updates[r]) else before[r]
    {
      UpdatedWord(before, updates, outputs, r);
    }
  }
}
