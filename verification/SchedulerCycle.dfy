/** One cycle of the scheduler seen from outside: what every entry, alias and counter is at its
    end, from what they were at its beginning, all entries at once and with the operations'
    durations spelled out. */
module SchedulerCycle {
  import opened Scheduler
  import opened SchedulerInv
  import SchedulerOrder

  /** Cycles from the start of an operation to its completion. */
  function Takes(op: OpType): nat {
    match op
    case Add => 2
    case Div => 15
    case Mem => 20
  }

  // ---------------------------------------------------------------- the new instruction

  /** Entry k is for operations of this type. */
  predicate Serves(st: Stations, op: OpType, k: nat) {
    match st
    case Unified(n) => k < n
    case PerUnit(a, d, m) =>
      match op case Add => k < a case Div => a <= k < a + d case Mem => a + d <= k < a + d + m
  }

  /** The next instruction of the trace goes into entry k: the free entry with the lowest tag
      among those for its type. */
  predicate Enters(st: Stations, trace: seq<Inst>, r: Run, k: nat) {
    && r.next < |trace| && k < |r.s.table| && !r.s.table[k].valid && Serves(st, trace[r.next].op, k)
    && forall j {:trigger r.s.table[j]} :: 0 <= j < k && Serves(st, trace[r.next].op, j) ==> r.s.table[j].valid
  }

  /** There is one, and every entry for its type is taken. */
  predicate Stalls(st: Stations, trace: seq<Inst>, r: Run) {
    && r.next < |trace|
    && forall j {:trigger r.s.table[j]} :: 0 <= j < |r.s.table| && Serves(st, trace[r.next].op, j) ==>
         r.s.table[j].valid
  }

  /** A source is ready or waits for the tag its register stands for. */
  function Wanted(rat: seq<int>, src: int): int {
    if 1 <= src <= |rat| then rat[src - 1] else NONE
  }

  function NewEntry(trace: seq<Inst>, r: Run): Entry
    requires r.next < |trace|
  {
    var i := trace[r.next];
    Entry(true, i.op, i.dest, Wanted(r.s.rat, i.src1), Wanted(r.s.rat, i.src2), 0)
  }

  function WithNew(st: Stations, trace: seq<Inst>, r: Run, k: nat): Entry
    requires k < |r.s.table|
  {
    if Enters(st, trace, r, k) then NewEntry(trace, r) else r.s.table[k]
  }

  // ---------------------------------------------------------------- completion

  /** The operation in entry k has run for its time when the coming cycle begins. */
  predicate Ends(r: Run, k: nat) {
    && k < |r.s.table| && r.s.table[k].valid && r.s.table[k].start != 0
    && r.s.table[k].start + Takes(r.s.table[k].op) == r.s.cycle + 1
  }

  predicate Heard(r: Run, src: int) { src >= 1 && Ends(r, src - 1) }

  function Relieved(r: Run, src: int): int { if Heard(r, src) then NONE else src }

  /** Entry k when the operations that end have made room and told those that wait for them. */
  function Remaining(st: Stations, trace: seq<Inst>, r: Run, k: nat): Entry
    requires k < |r.s.table|
  {
    var e := WithNew(st, trace, r, k);
    e.(valid := e.valid && !Ends(r, k), src1 := Relieved(r, e.src1), src2 := Relieved(r, e.src2))
  }

  /** The register loses its alias to whichever of its writers ends, and otherwise takes the new
      instruction's tag. */
  predicate Freed(r: Run, x: nat) {
    exists k {:trigger Ends(r, k)} :: 0 <= k < |r.s.table| && Ends(r, k) && r.s.table[k].dest == x
  }

  // ---------------------------------------------------------------- start

  predicate ReadyAt(st: Stations, trace: seq<Inst>, r: Run, k: nat) {
    && k < |r.s.table|
    && var e := Remaining(st, trace, r, k); e.valid && e.src1 == NONE && e.src2 == NONE && e.start == 0
  }

  predicate SameType(st: Stations, trace: seq<Inst>, r: Run, j: nat, k: nat)
    requires j < |r.s.table| && k < |r.s.table|
  {
    WithNew(st, trace, r, j).op == WithNew(st, trace, r, k).op
  }

  /** Of the ready operations of each type the one with the lowest tag starts. */
  predicate StartsAt(st: Stations, trace: seq<Inst>, r: Run, k: nat) {
    && ReadyAt(st, trace, r, k)
    && forall j {:trigger ReadyAt(st, trace, r, j)} :: 0 <= j < k && ReadyAt(st, trace, r, j) ==>
         !SameType(st, trace, r, j, k)
  }

  // ---------------------------------------------------------------- counts

  function Ended(r: Run, n: nat): nat {
    if n == 0 then 0 else Ended(r, n - 1) + if Ends(r, n - 1) then 1 else 0
  }

  function Started(st: Stations, trace: seq<Inst>, r: Run, n: nat): nat {
    if n == 0 then 0 else Started(st, trace, r, n - 1) + if StartsAt(st, trace, r, n - 1) then 1 else 0
  }

  /** How many of the first n entries are being executed. */
  function Executing(table: seq<Entry>, op: OpType, n: nat): nat
    requires n <= |table|
  {
    if n == 0 then 0
    else Executing(table, op, n - 1)
         + if table[n - 1].valid && table[n - 1].start != 0 && table[n - 1].op == op then 1 else 0
  }

  function Larger(a: nat, b: nat): nat { if b <= a then a else b }

  /** x is the run one cycle after r. */
  ghost predicate Follows(st: Stations, trace: seq<Inst>, r: Run, x: Run) {
    var n := |r.s.table|;
    && |x.s.table| == n && |x.s.rat| == |r.s.rat| && x.s.cycle == r.s.cycle + 1
    && x.next == (if r.next < |trace| && !Stalls(st, trace, r) then r.next + 1 else r.next)
    && (forall k :: 0 <= k < n ==>
          var e := Remaining(st, trace, r, k);
          && x.s.table[k].valid == e.valid
          && (e.valid ==> x.s.table[k] == e.(start := if StartsAt(st, trace, r, k) then r.s.cycle + 1 else e.start)))
    && (forall y: nat {:trigger x.s.rat[y - 1]} :: 1 <= y <= |r.s.rat| && Freed(r, y) ==> x.s.rat[y - 1] == NONE)
    && (forall y: nat, k: nat {:trigger x.s.rat[y - 1], Enters(st, trace, r, k)} ::
          1 <= y <= |r.s.rat| && !Freed(r, y) && Enters(st, trace, r, k) && trace[r.next].dest == y ==>
            x.s.rat[y - 1] == k + 1)
    && (forall y: nat {:trigger x.s.rat[y - 1]} ::
          1 <= y <= |r.s.rat| && !Freed(r, y)
          && !(r.next < |trace| && !Stalls(st, trace, r) && trace[r.next].dest == y) ==>
            x.s.rat[y - 1] == r.s.rat[y - 1])
    && x.s.stats == Stats(r.s.stats.insts + (if r.next < |trace| && !Stalls(st, trace, r) then 1 else 0),
                          r.s.stats.stalls + (if Stalls(st, trace, r) then 1 else 0),
                          Larger(r.s.stats.maxFired, Started(st, trace, r, n)),
                          Larger(r.s.stats.maxCompleted, Ended(r, n)),
                          Larger(r.s.stats.maxAdd, Executing(x.s.table, Add, n)),
                          Larger(r.s.stats.maxDiv, Executing(x.s.table, Div, n)),
                          Larger(r.s.stats.maxMem, Executing(x.s.table, Mem, n)))
  }

  // ---------------------------------------------------------------- the scheduler follows

  lemma FedEntries(st: Stations, regs: nat, trace: seq<Inst>, r: Run)
    requires Sized(st, regs, trace, r)
    ensures var f := Feed(st, regs, trace, r);
            && |f.s.table| == |r.s.table| && f.s.cycle == r.s.cycle
            && (forall k :: 0 <= k < |r.s.table| ==> f.s.table[k] == WithNew(st, trace, r, k))
            && f.next == (if r.next < |trace| && !Stalls(st, trace, r) then r.next + 1 else r.next)
  {
    if r.next < |trace| {
      assert ValidInst(trace[r.next], regs);
      var op := trace[r.next].op;
      var k := FreeSlot(st, r.s, op);
      if k < High(st, op) {
        assert forall j :: Enters(st, trace, r, j) ==> j == k;
        assert Enters(st, trace, r, k);
        assert !r.s.table[k].valid;
      } else {
        assert Stalls(st, trace, r);
        assert forall j :: !Enters(st, trace, r, j);
      }
    }
  }

  lemma FedAliases(st: Stations, regs: nat, trace: seq<Inst>, r: Run)
    requires Sized(st, regs, trace, r)
    ensures var f := Feed(st, regs, trace, r);
            && |f.s.rat| == |r.s.rat|
            && (forall y: nat, k: nat {:trigger f.s.rat[y - 1], Enters(st, trace, r, k)} ::
                  1 <= y <= |r.s.rat| && Enters(st, trace, r, k) && trace[r.next].dest == y ==> f.s.rat[y - 1] == k + 1)
            && (forall y: nat {:trigger f.s.rat[y - 1]} ::
                  1 <= y <= |r.s.rat| && !(r.next < |trace| && !Stalls(st, trace, r) && trace[r.next].dest == y) ==>
                    f.s.rat[y - 1] == r.s.rat[y - 1])
            && f.s.stats == r.s.stats.(insts := r.s.stats.insts
                                       + (if r.next < |trace| && !Stalls(st, trace, r) then 1 else 0),
                                       stalls := r.s.stats.stalls + (if Stalls(st, trace, r) then 1 else 0))
  {
    if r.next < |trace| {
      var op := trace[r.next].op;
      var k := FreeSlot(st, r.s, op);
      if k < High(st, op) {
        assert forall j :: Enters(st, trace, r, j) ==> j == k;
        assert !r.s.table[k].valid;
      } else {
        assert forall j :: !Enters(st, trace, r, j);
      }
    }
  }

  lemma TakesLatency(op: OpType)
    ensures Takes(op) == Latency(op) > 0
  {
  }

  /** What ends is what completes; the new entry has not started. */
  lemma EndsIsCompleting(st: Stations, regs: nat, trace: seq<Inst>, r: Run, k: nat)
    requires Sized(st, regs, trace, r) && k < |r.s.table|
    ensures |Feed(st, regs, trace, r).s.table| == |r.s.table|
    ensures Completing(Feed(st, regs, trace, r).s.table[k], r.s.cycle + 1) == Ends(r, k)
    ensures Ends(r, k) ==> Feed(st, regs, trace, r).s.table[k] == r.s.table[k]
  {
    hide Feed;
    FedEntries(st, regs, trace, r);
    TakesLatency(r.s.table[k].op);
  }

  lemma ClearedEntries(st: Stations, regs: nat, trace: seq<Inst>, r: Run, k: nat)
    requires Sized(st, regs, trace, r) && k < |r.s.table|
    ensures var f := Feed(st, regs, trace, r);
            var z := ClearCompleted(f.s.(cycle := f.s.cycle + 1));
            var e := Remaining(st, trace, r, k);
            && |z.table| == |r.s.table| && z.table[k].valid == e.valid && z.table[k].op == WithNew(st, trace, r, k).op
            && (e.valid ==> z.table[k] == e)
  {
    hide Feed, ClearCompleted, Ends, Sized, Enters;
    var f := Feed(st, regs, trace, r);
    FeedFits(st, regs, trace, r);
    FedEntries(st, regs, trace, r);
    EndsIsCompleting(st, regs, trace, r, k);
    SchedulerOrder.ClearedEntry(f.s, k);
    forall j: nat | j < |r.s.table| ensures Completing(f.s.table[j], r.s.cycle + 1) == Ends(r, j) {
      EndsIsCompleting(st, regs, trace, r, j);
    }
    NothingBeyond(r);
  }

  lemma NothingBeyond(r: Run)
    ensures forall k: nat :: Ends(r, k) ==> k < |r.s.table|
  {
  }

  lemma FeedFits(st: Stations, regs: nat, trace: seq<Inst>, r: Run)
    requires Sized(st, regs, trace, r)
    ensures Fits(Feed(st, regs, trace, r).s)
  {
  }

  lemma ClearedAliases(st: Stations, regs: nat, trace: seq<Inst>, r: Run, y: nat)
    requires Sized(st, regs, trace, r) && 1 <= y <= |r.s.rat|
    ensures var f := Feed(st, regs, trace, r);
            var z := ClearCompleted(f.s.(cycle := f.s.cycle + 1));
            && |z.rat| == |f.s.rat| == |r.s.rat|
            && z.rat[y - 1] == if Freed(r, y) then NONE else f.s.rat[y - 1]
  {
    hide Feed, ClearCompleted, Ends;
    var f := Feed(st, regs, trace, r);
    FeedFits(st, regs, trace, r);
    FedEntries(st, regs, trace, r);
    FedAliases(st, regs, trace, r);
    var c := f.s.(cycle := f.s.cycle + 1);
    SchedulerOrder.ClearedRat(f.s, ClearCompleted(c), y);
    forall j: nat | j < |r.s.table|
      ensures Completing(f.s.table[j], r.s.cycle + 1) == Ends(r, j) && (Ends(r, j) ==> f.s.table[j] == r.s.table[j])
    {
      EndsIsCompleting(st, regs, trace, r, j);
    }
    assert Frees(c, |c.table|, y) == Freed(r, y);
  }

  lemma FiresIsStarting(st: Stations, trace: seq<Inst>, r: Run, table: seq<Entry>, k: nat)
    requires |table| == |r.s.table| && k < |table|
    requires forall j :: 0 <= j < |table| ==>
               && table[j].op == WithNew(st, trace, r, j).op && table[j].valid == Remaining(st, trace, r, j).valid
               && (table[j].valid ==> table[j] == Remaining(st, trace, r, j))
    ensures Fires(table, k) == StartsAt(st, trace, r, k)
  {
    hide Remaining, WithNew;
    forall j: nat | j < |table| ensures Startable(table[j]) == ReadyAt(st, trace, r, j) {
    }
  }

  // ---------------------------------------------------------------- counts

  lemma {:induction false} CountIsStarted(st: Stations, trace: seq<Inst>, r: Run, f: seq<bool>)
    requires forall k :: 0 <= k < |f| ==> f[k] == StartsAt(st, trace, r, k)
    ensures Count(f) == Started(st, trace, r, |f|)
  {
    hide StartsAt;
    if f != [] {
      CountIsStarted(st, trace, r, f[..|f| - 1]);
    }
  }

  lemma {:induction false} CountIsEnded(r: Run, f: seq<bool>)
    requires forall k :: 0 <= k < |f| ==> f[k] == Ends(r, k)
    ensures Count(f) == Ended(r, |f|)
  {
    hide Ends;
    if f != [] {
      CountIsEnded(r, f[..|f| - 1]);
    }
  }

  lemma {:induction false} CountIsExecuting(table: seq<Entry>, op: OpType, f: seq<bool>)
    requires |f| <= |table| && forall k :: 0 <= k < |f| ==> f[k] == Active(table[k], op)
    ensures Count(f) == Executing(table, op, |f|)
  {
    if f != [] {
      CountIsExecuting(table, op, f[..|f| - 1]);
    }
  }

  lemma RunningIsExecuting(table: seq<Entry>, op: OpType)
    ensures Running(table, op) == Executing(table, op, |table|)
  {
    var n := |table|;
    CountIsExecuting(table, op, seq(n, k requires 0 <= k < n => Active(table[k], op)));
  }

  // ---------------------------------------------------------------- the whole cycle

  lemma FireFollows(st: Stations, regs: nat, trace: seq<Inst>, r: Run)
    requires Sized(st, regs, trace, r)
    ensures var f := Feed(st, regs, trace, r);
            var z := ClearCompleted(f.s.(cycle := f.s.cycle + 1));
            && |z.table| == |r.s.table|
            && (forall k :: 0 <= k < |r.s.table| ==> Fires(z.table, k) == StartsAt(st, trace, r, k))
            && Starts(z.table) == Started(st, trace, r, |r.s.table|)
            && Completions(f.s.table, r.s.cycle + 1) == Ended(r, |r.s.table|)
  {
    hide Feed, ClearCompleted, Remaining, WithNew, StartsAt, Ends, Fires, Completing, Count;
    var f := Feed(st, regs, trace, r);
    FedEntries(st, regs, trace, r);
    var z := ClearCompleted(f.s.(cycle := f.s.cycle + 1));
    var n := |r.s.table|;
    SameLength(st, regs, trace, r);
    forall k | 0 <= k < n
      ensures z.table[k].op == WithNew(st, trace, r, k).op && z.table[k].valid == Remaining(st, trace, r, k).valid
      ensures z.table[k].valid ==> z.table[k] == Remaining(st, trace, r, k)
    {
      ClearedEntries(st, regs, trace, r, k);
    }
    forall k | 0 <= k < n ensures Fires(z.table, k) == StartsAt(st, trace, r, k) {
      FiresIsStarting(st, trace, r, z.table, k);
    }
    CountIsStarted(st, trace, r, seq(n, k requires 0 <= k < n => Fires(z.table, k)));
    forall k | 0 <= k < n ensures Completing(f.s.table[k], r.s.cycle + 1) == Ends(r, k) {
      EndsIsCompleting(st, regs, trace, r, k);
    }
    CountIsEnded(r, seq(n, k requires 0 <= k < n => Completing(f.s.table[k], r.s.cycle + 1)));
  }

  lemma SameLength(st: Stations, regs: nat, trace: seq<Inst>, r: Run)
    requires Sized(st, regs, trace, r)
    ensures var f := Feed(st, regs, trace, r);
            |ClearCompleted(f.s.(cycle := f.s.cycle + 1)).table| == |r.s.table|
  {
  }

  /** Every cycle of the driver is one by these rules. */
  lemma EveryCycle(st: Stations, regs: nat, trace: seq<Inst>, r: Run)
    requires Sized(st, regs, trace, r)
    ensures Follows(st, trace, r, Advance(st, regs, trace, r))
  {
    hide Feed, ClearCompleted, Remaining, WithNew, StartsAt, Ends, Fires, Completing, Count, Started, Ended, Executing,
         Running, Starts, Completions, Enters, Freed, Stalls;
    var f := Feed(st, regs, trace, r);
    var c := f.s.(cycle := f.s.cycle + 1);
    var z := ClearCompleted(c);
    FedEntries(st, regs, trace, r);
    FedAliases(st, regs, trace, r);
    FireFollows(st, regs, trace, r);
    ClearedCounts(c);
    var x := Advance(st, regs, trace, r);
    forall k | 0 <= k < |r.s.table|
      ensures var e := Remaining(st, trace, r, k);
              && x.s.table[k].valid == e.valid
              && (e.valid ==> x.s.table[k] == e.(start := if StartsAt(st, trace, r, k) then r.s.cycle + 1 else e.start))
    {
      ClearedEntries(st, regs, trace, r, k);
    }
    forall y: nat | 1 <= y <= |r.s.rat| ensures z.rat[y - 1] == if Freed(r, y) then NONE else f.s.rat[y - 1] {
      ClearedAliases(st, regs, trace, r, y);
    }
    RunningIsExecuting(x.s.table, Add);
    RunningIsExecuting(x.s.table, Div);
    RunningIsExecuting(x.s.table, Mem);
  }

  lemma ClearedCounts(c: Sched)
    requires Fits(c)
    ensures var z := ClearCompleted(c);
            && z.cycle == c.cycle && |z.rat| == |c.rat|
            && z.stats == c.stats.(maxCompleted := Max(c.stats.maxCompleted, Completions(c.table, c.cycle)))
  {
  }
}
