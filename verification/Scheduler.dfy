/** The out-of-order scheduler as a function on values. The reservation stations are one table:
    with a station per functional unit, the ADD entries come first, then DIV, then MEM, as
    their tags do. */
module Scheduler {

  datatype OpType = Add | Div | Mem

  function Latency(op: OpType): nat {
    match op
    case Add => 2
    case Div => 15
    case Mem => 20
  }

  /** Marks an unused or ready source and a register without an alias. */
  const NONE: int := -1

  datatype Inst = Inst(op: OpType, dest: nat, src1: int, src2: int)

  /** An entry of a reservation station; `start` is 0 until it executes. */
  datatype Entry = Entry(valid: bool, op: OpType, dest: nat, src1: int, src2: int, start: nat)

  datatype Stations = Unified(size: nat) | PerUnit(add: nat, div: nat, mem: nat)

  datatype Stats = Stats(insts: nat, stalls: nat, maxFired: nat, maxCompleted: nat,
                         maxAdd: nat, maxDiv: nat, maxMem: nat)

  /** Register r has alias rat[r - 1], and entry k has tag k + 1. */
  datatype Sched = Sched(rat: seq<int>, table: seq<Entry>, cycle: nat, stats: Stats)

  function Slots(st: Stations): nat {
    match st
    case Unified(n) => n
    case PerUnit(a, d, m) => a + d + m
  }

  /** The entries that may hold an operation of the given type. */
  function Low(st: Stations, op: OpType): nat {
    match st
    case Unified(_) => 0
    case PerUnit(a, d, _) => match op case Add => 0 case Div => a case Mem => a + d
  }

  function High(st: Stations, op: OpType): (h: nat)
    ensures Low(st, op) <= h <= Slots(st)
  {
    match st
    case Unified(n) => n
    case PerUnit(a, d, m) => match op case Add => a case Div => a + d case Mem => a + d + m
  }

  predicate ValidInst(inst: Inst, regs: nat) {
    && 1 <= inst.dest <= regs
    && (inst.src1 == NONE || 1 <= inst.src1 <= regs)
    && (inst.src2 == NONE || 1 <= inst.src2 <= regs)
  }

  /** Destinations name registers. */
  predicate Fits(s: Sched) {
    forall k :: 0 <= k < |s.table| && s.table[k].valid ==> 1 <= s.table[k].dest <= |s.rat|
  }

  // ---------------------------------------------------------------- issue

  function Alias(rat: seq<int>, src: int): int
    requires src == NONE || 1 <= src <= |rat|
  {
    if src == NONE then NONE else rat[src - 1]
  }

  /** The first free entry of table[lo..hi], or hi. */
  function FirstFree(table: seq<Entry>, lo: nat, hi: nat): (k: nat)
    requires lo <= hi <= |table|
    ensures lo <= k <= hi && (k < hi ==> !table[k].valid)
    ensures forall j :: lo <= j < k ==> table[j].valid
    decreases hi - lo
  {
    if lo == hi || !table[lo].valid then lo else FirstFree(table, lo + 1, hi)
  }

  function FreeSlot(st: Stations, s: Sched, op: OpType): nat
    requires |s.table| == Slots(st)
  {
    FirstFree(s.table, Low(st, op), High(st, op))
  }

  predicate CanIssue(st: Stations, s: Sched, op: OpType)
    requires |s.table| == Slots(st)
  {
    FreeSlot(st, s, op) < High(st, op)
  }

  function TryIssue(st: Stations, s: Sched, inst: Inst): (r: Sched)
    requires |s.table| == Slots(st) && ValidInst(inst, |s.rat|)
    ensures |r.table| == |s.table| && |r.rat| == |s.rat| && (Fits(s) ==> Fits(r))
  {
    if CanIssue(st, s, inst.op) then
      var k := FreeSlot(st, s, inst.op);
      s.(rat := s.rat[inst.dest - 1 := k + 1],
         table := s.table[k := Entry(true, inst.op, inst.dest, Alias(s.rat, inst.src1), Alias(s.rat, inst.src2), 0)],
         stats := s.stats.(insts := s.stats.insts + 1))
    else s.(stats := s.stats.(stalls := s.stats.stalls + 1))
  }

  // ---------------------------------------------------------------- completion

  predicate Completing(e: Entry, cycle: nat) {
    e.valid && e.start != 0 && cycle == e.start + Latency(e.op)
  }

  function Hear(e: Entry, tag: int): Entry {
    if e.valid then
      e.(src1 := if e.src1 == tag then NONE else e.src1, src2 := if e.src2 == tag then NONE else e.src2)
    else e
  }

  function Broadcast(table: seq<Entry>, tag: int): (r: seq<Entry>)
    ensures |r| == |table|
  {
    seq(|table|, k requires 0 <= k < |table| => Hear(table[k], tag))
  }

  /** Entry k completes if its time has come: its register loses its alias, whatever the
      alias is, and the entry's tag is broadcast. */
  function CompleteSlot(s: Sched, k: nat): (r: Sched)
    requires Fits(s) && k < |s.table|
    ensures Fits(r) && |r.table| == |s.table| && |r.rat| == |s.rat| && r.cycle == s.cycle && r.stats == s.stats
  {
    var e := s.table[k];
    if !Completing(e, s.cycle) then s
    else s.(rat := s.rat[e.dest - 1 := NONE], table := Broadcast(s.table[k := e.(valid := false)], k + 1))
  }

  /** Entries 0, ..., k-1, in this order. */
  function Complete(s: Sched, k: nat): (r: Sched)
    requires Fits(s) && k <= |s.table|
    ensures Fits(r) && |r.table| == |s.table| && |r.rat| == |s.rat| && r.cycle == s.cycle && r.stats == s.stats
  {
    if k == 0 then s else CompleteSlot(Complete(s, k - 1), k - 1)
  }

  // ---------------------------------------------------------------- execution

  predicate Startable(e: Entry) {
    e.valid && e.src1 == NONE && e.src2 == NONE && e.start == 0
  }

  /** One operation of each type starts per cycle: the first one that can. */
  predicate Fires(table: seq<Entry>, k: nat)
    requires k < |table|
  {
    Startable(table[k]) && forall j :: 0 <= j < k ==> !(Startable(table[j]) && table[j].op == table[k].op)
  }

  function FireTable(table: seq<Entry>, cycle: nat): (r: seq<Entry>)
    ensures |r| == |table|
  {
    seq(|table|, k requires 0 <= k < |table| => if Fires(table, k) then table[k].(start := cycle) else table[k])
  }

  predicate Active(e: Entry, op: OpType) {
    e.valid && e.start > 0 && e.op == op
  }

  function Count(flags: seq<bool>): nat {
    if flags == [] then 0 else Count(flags[..|flags| - 1]) + if flags[|flags| - 1] then 1 else 0
  }

  function Completions(table: seq<Entry>, cycle: nat): nat {
    Count(seq(|table|, k requires 0 <= k < |table| => Completing(table[k], cycle)))
  }

  function Starts(table: seq<Entry>): nat {
    Count(seq(|table|, k requires 0 <= k < |table| => Fires(table, k)))
  }

  function Running(table: seq<Entry>, op: OpType): nat {
    Count(seq(|table|, k requires 0 <= k < |table| => Active(table[k], op)))
  }

  function Max(a: nat, b: nat): nat { if a > b then a else b }

  function ClearCompleted(s: Sched): (r: Sched)
    requires Fits(s)
    ensures Fits(r) && |r.table| == |s.table| && |r.rat| == |s.rat|
  {
    Complete(s, |s.table|).(stats := s.stats.(maxCompleted := Max(s.stats.maxCompleted, Completions(s.table, s.cycle))))
  }

  function StartReady(s: Sched): (r: Sched)
    requires Fits(s)
    ensures Fits(r) && |r.table| == |s.table| && |r.rat| == |s.rat|
  {
    var t := FireTable(s.table, s.cycle);
    s.(table := t,
       stats := s.stats.(maxFired := Max(s.stats.maxFired, Starts(s.table)),
                         maxAdd := Max(s.stats.maxAdd, Running(t, Add)),
                         maxDiv := Max(s.stats.maxDiv, Running(t, Div)),
                         maxMem := Max(s.stats.maxMem, Running(t, Mem))))
  }

  function Step(s: Sched): (r: Sched)
    requires Fits(s)
    ensures Fits(r) && |r.table| == |s.table| && |r.rat| == |s.rat|
  {
    StartReady(ClearCompleted(s.(cycle := s.cycle + 1)))
  }

  predicate Empty(s: Sched) {
    forall k :: 0 <= k < |s.table| ==> !s.table[k].valid
  }

  function Initial(st: Stations, regs: nat): (s: Sched)
    ensures Fits(s)
  {
    Sched(seq(regs, _ => NONE), seq(Slots(st), _ => Entry(false, Add, 0, 0, 0, 0)), 1, Stats(0, 0, 0, 0, 0, 0, 0))
  }

  // ---------------------------------------------------------------- the driver

  /** The scheduler and the number of instructions it has accepted from the trace. */
  datatype Run = Run(s: Sched, next: nat)

  predicate Good(st: Stations, regs: nat, trace: seq<Inst>) {
    && (forall i :: 0 <= i < |trace| ==> ValidInst(trace[i], regs))
    && (forall op :: Low(st, op) < High(st, op))
  }

  predicate Sized(st: Stations, regs: nat, trace: seq<Inst>, r: Run) {
    && |r.s.table| == Slots(st) && |r.s.rat| == regs && Fits(r.s) && r.next <= |trace|
    && forall i :: 0 <= i < |trace| ==> ValidInst(trace[i], regs)
  }

  /** The instruction at hand is tried, if there is one. */
  function Feed(st: Stations, regs: nat, trace: seq<Inst>, r: Run): (r': Run)
    requires Sized(st, regs, trace, r)
    ensures Sized(st, regs, trace, r')
  {
    if r.next == |trace| then r
    else Run(TryIssue(st, r.s, trace[r.next]), if CanIssue(st, r.s, trace[r.next].op) then r.next + 1 else r.next)
  }

  /** One cycle of the driver: try to issue while the trace lasts, then step. */
  function Advance(st: Stations, regs: nat, trace: seq<Inst>, r: Run): (r': Run)
    requires Sized(st, regs, trace, r)
    ensures Sized(st, regs, trace, r')
  {
    var x := Feed(st, regs, trace, r);
    Run(Step(x.s), x.next)
  }

  predicate Finished(trace: seq<Inst>, r: Run) {
    r.next == |trace| && Empty(r.s)
  }

  /** The run after m cycles. */
  function After(st: Stations, regs: nat, trace: seq<Inst>, m: nat): (r: Run)
    requires Good(st, regs, trace)
    ensures Sized(st, regs, trace, r)
  {
    if m == 0 then Run(Initial(st, regs), 0) else Advance(st, regs, trace, After(st, regs, trace, m - 1))
  }

  lemma AfterNext(st: Stations, regs: nat, trace: seq<Inst>, m: nat)
    requires Good(st, regs, trace)
    ensures After(st, regs, trace, m + 1) == Advance(st, regs, trace, After(st, regs, trace, m))
  {
  }
}
