/** How long a trace can take, and how many instructions run, start and complete at once. */
module SchedulerBounds {
  import opened Scheduler
  import opened SchedulerInv

  // ---------------------------------------------------------------- counting

  lemma {:induction false} CountSplit(a: seq<bool>, b: seq<bool>, c: seq<bool>)
    requires |a| == |b| == |c|
    requires forall k :: 0 <= k < |a| ==> (b[k] == (a[k] && !c[k])) && (c[k] ==> a[k])
    ensures Count(a) == Count(b) + Count(c)
  {
    if a != [] {
      var n := |a| - 1;
      CountSplit(a[..n], b[..n], c[..n]);
    }
  }

  lemma {:induction false} CountSet(flags: seq<bool>, k: nat)
    requires k < |flags| && !flags[k]
    ensures Count(flags[k := true]) == Count(flags) + 1
  {
    var n := |flags| - 1;
    var other := flags[k := true];
    if k < n {
      CountSet(flags[..n], k);
      assert other[..n] == flags[..n][k := true];
    } else {
      assert other[..n] == flags[..n];
    }
  }

  lemma CountAppend(flags: seq<bool>, b: bool)
    ensures Count(flags + [b]) == Count(flags) + if b then 1 else 0
  {
    assert (flags + [b])[..|flags|] == flags;
  }

  lemma {:induction false} CountConcat(a: seq<bool>, b: seq<bool>)
    ensures Count(a + b) == Count(a) + Count(b)
  {
    if b == [] {
      assert a + b == a;
    } else {
      var n := |b| - 1;
      CountConcat(a, b[..n]);
      assert (a + b)[..|a| + n] == a + b[..n];
    }
  }

  lemma {:induction false} CountZero(flags: seq<bool>)
    ensures Count(flags) == 0 <==> forall k :: 0 <= k < |flags| ==> !flags[k]
  {
    if flags != [] {
      var n := |flags| - 1;
      CountZero(flags[..n]);
      assert forall k :: 0 <= k < n ==> flags[..n][k] == flags[k];
    }
  }

  /** At most n flagged positions can have different keys among n values. */
  lemma {:induction false} Pigeonhole(flags: seq<bool>, keys: seq<int>, lo: int, n: nat)
    requires |flags| == |keys|
    requires forall j, k :: 0 <= j < k < |flags| && flags[j] && flags[k] ==> keys[j] != keys[k]
    requires forall k :: 0 <= k < |flags| && flags[k] ==> lo <= keys[k] < lo + n
    ensures Count(flags) <= n
    decreases n
  {
    if n == 0 {
      CountZero(flags);
    } else if k :| 0 <= k < |flags| && flags[k] && keys[k] == lo + n - 1 {
      var others := flags[k := false];
      Pigeonhole(others, keys, lo, n - 1);
      CountSet(others, k);
      assert others[k := true] == flags;
    } else {
      Pigeonhole(flags, keys, lo, n - 1);
    }
  }

  // ---------------------------------------------------------------- occupancy

  function OpKey(op: OpType): int {
    match op case Add => 0 case Div => 1 case Mem => 2
  }

  /** Running entries of one type have different starts among the last Latency(op) cycles. */
  lemma RunningBound(s: Sched, op: OpType)
    requires Timing(s, 0)
    ensures Running(s.table, op) <= Latency(op)
  {
    var n := |s.table|;
    var flags := seq(n, k requires 0 <= k < n => Active(s.table[k], op));
    var keys := seq(n, k requires 0 <= k < n => s.table[k].start as int);
    forall j, k | 0 <= j < k < n && flags[j] && flags[k] ensures keys[j] != keys[k] {
      assert SameUnit(s.table[j], s.table[k]);
    }
    Pigeonhole(flags, keys, s.cycle - Latency(op) + 1, Latency(op));
  }

  lemma StartsBound(table: seq<Entry>)
    ensures Starts(table) <= 3
  {
    var n := |table|;
    Pigeonhole(seq(n, k requires 0 <= k < n => Fires(table, k)),
               seq(n, k requires 0 <= k < n => OpKey(table[k].op)), 0, 3);
  }

  /** Two entries of one type that complete together would have started together. */
  lemma CompletionsBound(s: Sched)
    requires Timing(s, 1)
    ensures Completions(s.table, s.cycle) <= 3
  {
    var n := |s.table|;
    var flags := seq(n, k requires 0 <= k < n => Completing(s.table[k], s.cycle));
    var keys := seq(n, k requires 0 <= k < n => OpKey(s.table[k].op));
    forall j, k | 0 <= j < k < n && flags[j] && flags[k] ensures keys[j] != keys[k] {
      assert s.table[j].op == s.table[k].op ==> SameUnit(s.table[j], s.table[k]);
    }
    Pigeonhole(flags, keys, 0, 3);
  }

  predicate Modest(stats: Stats) {
    stats.maxFired <= 3 && stats.maxCompleted <= 3 && stats.maxAdd <= 2 && stats.maxDiv <= 15 && stats.maxMem <= 20
  }

  lemma AdvanceModest(st: Stations, regs: nat, trace: seq<Inst>, r: Run, p: Past)
    requires Sized(st, regs, trace, r) && Recorded(r, p) && Inv(trace, r, p, 0) && Modest(r.s.stats)
    ensures Modest(Advance(st, regs, trace, r).s.stats)
  {
    hide Inv, Feed, PastFeed, Fires, FireTable, Completing, PastFire, Complete, Completions, Starts, Running;
    FeedKeeps(st, regs, trace, r, p);
    FeedModest(st, regs, trace, r);
    var x := Feed(st, regs, trace, r);
    var q := PastFeed(st, regs, trace, r, p);
    TickKeeps(trace, x, q);
    var y := x.(s := x.s.(cycle := x.s.cycle + 1));
    TimingOf(trace, y, q, 1);
    CompletionsBound(y.s);
    ClearKeeps(trace, y, q);
    var z := y.(s := ClearCompleted(y.s));
    StartsBound(z.s.table);
    FireKeeps(trace, z, q);
    var w := StartReady(z.s);
    TimingOf(trace, z.(s := w), PastFire(z.s.table, z.s.cycle, q), 0);
    RunningBound(w, Add);
    RunningBound(w, Div);
    RunningBound(w, Mem);
  }

  lemma FeedModest(st: Stations, regs: nat, trace: seq<Inst>, r: Run)
    requires Sized(st, regs, trace, r) && Modest(r.s.stats)
    ensures Modest(Feed(st, regs, trace, r).s.stats)
  {
  }

  lemma TimingOf(trace: seq<Inst>, r: Run, p: Past, slack: nat)
    requires Inv(trace, r, p, slack)
    ensures Timing(r.s, slack)
  {
  }

  lemma NothingYet(st: Stations, regs: nat, trace: seq<Inst>)
    requires Good(st, regs, trace)
    ensures Modest(After(st, regs, trace, 0).s.stats)
  {
  }

  lemma AfterIsSized(st: Stations, regs: nat, trace: seq<Inst>, m: nat)
    requires Good(st, regs, trace)
    ensures Sized(st, regs, trace, After(st, regs, trace, m))
    ensures Recorded(After(st, regs, trace, m), PastAfter(st, regs, trace, m))
  {
  }

  /** Whatever the station sizes, at most 2 ADDs, 15 DIVs and 20 MEMs ever run at once, and at
      most 3 instructions start or complete in one cycle. */
  lemma {:induction false} Occupancy(st: Stations, regs: nat, trace: seq<Inst>, m: nat)
    requires Good(st, regs, trace)
    ensures Modest(After(st, regs, trace, m).s.stats)
  {
    hide Inv, Advance, Modest, Sized, After, PastAfter;
    if m == 0 {
      NothingYet(st, regs, trace);
    } else {
      AfterNext(st, regs, trace, m - 1);
      AfterIsSized(st, regs, trace, m - 1);
      Occupancy(st, regs, trace, m - 1);
      AlwaysInv(st, regs, trace, m - 1);
      AdvanceModest(st, regs, trace, After(st, regs, trace, m - 1), PastAfter(st, regs, trace, m - 1));
    }
  }

  // ---------------------------------------------------------------- no cycle without work

  lemma FirstStartable(table: seq<Entry>, k: nat) returns (j: nat)
    requires k < |table| && Startable(table[k])
    ensures j <= k && Fires(table, j) && table[j].op == table[k].op
  {
    j := k;
    while exists i: nat :: i < j && Startable(table[i]) && table[i].op == table[k].op
      invariant j <= k && Startable(table[j]) && table[j].op == table[k].op
      decreases j
    {
      var i: nat :| i < j && Startable(table[i]) && table[i].op == table[k].op;
      j := i;
    }
  }

  /** Some entry runs and is due by the given cycle. */
  predicate Due(e: Entry, limit: int) {
    e.valid && e.start != 0 && e.start + Latency(e.op) <= limit
  }

  ghost predicate SomeoneRuns(table: seq<Entry>, limit: int) {
    exists k :: 0 <= k < |table| && Due(table[k], limit)
  }

  /** After the start of a cycle's instructions a non-empty station has a running one. */
  lemma NeverStuck(trace: seq<Inst>, r: Run, p: Past)
    requires Fits(r.s) && Inv(trace, r, p, 0) && !Empty(r.s)
    ensures SomeoneRuns(StartReady(r.s).table, r.s.cycle + 20)
  {
    hide Ids, Tags, Aliases, Accounted;
    var k := OldestReady(trace, r, p);
    var x := StartReady(r.s);
    if r.s.table[k].start == 0 {
      var j := FirstStartable(r.s.table, k);
      assert Due(x.table[j], r.s.cycle + 20);
    } else {
      assert Due(x.table[k], r.s.cycle + 20);
    }
  }

  function Live(table: seq<Entry>): nat {
    Count(seq(|table|, k requires 0 <= k < |table| => table[k].valid))
  }

  lemma LiveSet(table: seq<Entry>, k: nat, e: Entry)
    requires k < |table| && !table[k].valid && e.valid
    ensures Live(table[k := e]) == Live(table) + 1
  {
    var flags := seq(|table|, i requires 0 <= i < |table| => table[i].valid);
    var other := table[k := e];
    CountSet(flags, k);
    assert flags[k := true] == seq(|other|, i requires 0 <= i < |other| => other[i].valid);
  }

  lemma LiveAfterFeed(st: Stations, regs: nat, trace: seq<Inst>, r: Run)
    requires Sized(st, regs, trace, r)
    ensures var x := Feed(st, regs, trace, r); x.next - Live(x.s.table) == r.next - Live(r.s.table)
  {
    hide Live;
    if r.next < |trace| && CanIssue(st, r.s, trace[r.next].op) {
      var k := FreeSlot(st, r.s, trace[r.next].op);
      LiveSet(r.s.table, k, Feed(st, regs, trace, r).s.table[k]);
    }
  }

  lemma LiveAfterClear(s: Sched)
    requires Fits(s)
    ensures Live(ClearCompleted(s).table) == Live(s.table) - Completions(s.table, s.cycle)
  {
    var n := |s.table|;
    var x := ClearCompleted(s);
    CompleteFacts(s, n);
    assert forall j :: 0 <= j < n ==> Cleared(s, n, x.table[j], j);
    CountSplit(seq(n, k requires 0 <= k < n => s.table[k].valid), seq(n, k requires 0 <= k < n => x.table[k].valid),
               seq(n, k requires 0 <= k < n => Completing(s.table[k], s.cycle)));
  }

  lemma LiveAfterFire(s: Sched)
    requires Fits(s)
    ensures Live(StartReady(s).table) == Live(s.table)
  {
    var n := |s.table|;
    assert seq(n, k requires 0 <= k < n => StartReady(s).table[k].valid)
           == seq(n, k requires 0 <= k < n => s.table[k].valid);
  }

  /** The station's next completion is not later than 21 cycles per completed instruction allow. */
  ghost predicate OnTime(r: Run) {
    var done := r.next - Live(r.s.table);
    if Empty(r.s) then r.s.cycle <= 21 * done + 1 else SomeoneRuns(r.s.table, 21 * done + 22)
  }

  lemma SomethingInFlight(st: Stations, regs: nat, trace: seq<Inst>, r: Run)
    requires Good(st, regs, trace) && Sized(st, regs, trace, r) && !Finished(trace, r)
    ensures !Empty(Feed(st, regs, trace, r).s)
  {
    if r.next < |trace| {
      var op := trace[r.next].op;
      var x := Feed(st, regs, trace, r);
      var k := FreeSlot(st, r.s, op);
      if CanIssue(st, r.s, op) {
        assert x.s.table[k].valid;
      } else {
        assert x.s.table[Low(st, op)].valid;
      }
    }
  }

  /** Feeding changes no running entry, and an empty station runs nothing after it. */
  lemma FeedRuns(st: Stations, regs: nat, trace: seq<Inst>, r: Run, limit: int)
    requires Sized(st, regs, trace, r)
    ensures SomeoneRuns(r.s.table, limit) ==> SomeoneRuns(Feed(st, regs, trace, r).s.table, limit)
    ensures Empty(r.s) ==> forall k :: 0 <= k < |r.s.table| ==>
              !Completing(Feed(st, regs, trace, r).s.table[k], r.s.cycle + 1)
  {
    var x := Feed(st, regs, trace, r);
    if SomeoneRuns(r.s.table, limit) {
      var k :| 0 <= k < |r.s.table| && Due(r.s.table[k], limit);
      assert x.s.table[k] == r.s.table[k];
    }
  }

  lemma ClearRuns(s: Sched, limit: int)
    requires Fits(s) && SomeoneRuns(s.table, limit) && Completions(s.table, s.cycle) == 0
    ensures SomeoneRuns(ClearCompleted(s).table, limit)
  {
    var n := |s.table|;
    CompleteFacts(s, n);
    CountZero(seq(n, k requires 0 <= k < n => Completing(s.table[k], s.cycle)));
    var k :| 0 <= k < n && Due(s.table[k], limit);
    assert seq(n, k requires 0 <= k < n => Completing(s.table[k], s.cycle))[k] == Completing(s.table[k], s.cycle);
    assert Cleared(s, n, ClearCompleted(s).table[k], k);
  }

  lemma FireRuns(s: Sched, limit: int)
    requires Fits(s) && SomeoneRuns(s.table, limit)
    ensures SomeoneRuns(StartReady(s).table, limit)
  {
    var k :| 0 <= k < |s.table| && Due(s.table[k], limit);
    assert StartReady(s).table[k] == s.table[k];
  }

  lemma StillInFlight(s: Sched)
    requires Fits(s) && !Empty(s) && Completions(s.table, s.cycle) == 0
    ensures !Empty(ClearCompleted(s))
  {
    var n := |s.table|;
    var flags := seq(n, k requires 0 <= k < n => Completing(s.table[k], s.cycle));
    CompleteFacts(s, n);
    CountZero(flags);
    var k :| 0 <= k < n && s.table[k].valid;
    assert !flags[k];
    assert Cleared(s, n, ClearCompleted(s).table[k], k);
  }

  lemma StillBusy(s: Sched)
    requires Fits(s)
    ensures Empty(StartReady(s)) == Empty(s)
  {
    assert forall k :: 0 <= k < |s.table| ==> StartReady(s).table[k].valid == s.table[k].valid;
  }

  lemma LaterLimit(table: seq<Entry>, limit: int, later: int)
    requires SomeoneRuns(table, limit) && limit <= later
    ensures SomeoneRuns(table, later)
  {
    var k :| 0 <= k < |table| && Due(table[k], limit);
    assert Due(table[k], later);
  }

  lemma DueLater(trace: seq<Inst>, r: Run, p: Past, limit: int)
    requires Inv(trace, r, p, 0) && SomeoneRuns(r.s.table, limit)
    ensures r.s.cycle + 1 <= limit
  {
    var k :| 0 <= k < |r.s.table| && Due(r.s.table[k], limit);
  }

  lemma NothingCompletes(table: seq<Entry>, cycle: nat)
    requires forall k :: 0 <= k < |table| ==> !Completing(table[k], cycle)
    ensures Completions(table, cycle) == 0
  {
    CountZero(seq(|table|, k requires 0 <= k < |table| => Completing(table[k], cycle)));
  }

  /** Every cycle keeps the station on time: an entry that is due completes in its cycle, and
      what starts next has 20 cycles. */
  lemma OnTimeKept(st: Stations, regs: nat, trace: seq<Inst>, r: Run, p: Past)
    requires Good(st, regs, trace) && Sized(st, regs, trace, r) && Recorded(r, p) && Inv(trace, r, p, 0)
    requires OnTime(r) && !Finished(trace, r)
    ensures OnTime(Advance(st, regs, trace, r))
  {
    hide Inv, Feed, PastFeed, StartReady, ClearCompleted, Fires, Completing, PastFire, Completions, SomeoneRuns, Live,
         Empty, Finished;
    var done := r.next - Live(r.s.table);
    FeedKeeps(st, regs, trace, r, p);
    SomethingInFlight(st, regs, trace, r);
    LiveAfterFeed(st, regs, trace, r);
    FeedRuns(st, regs, trace, r, 21 * done + 22);
    var x := Feed(st, regs, trace, r);
    var q := PastFeed(st, regs, trace, r, p);
    FeedCycle(st, regs, trace, r);
    TickKeeps(trace, x, q);
    var y := x.(s := x.s.(cycle := x.s.cycle + 1));
    SameTable(x.s, y.s);
    ClearKeeps(trace, y, q);
    var z := y.(s := ClearCompleted(y.s));
    LiveAfterClear(y.s);
    LiveAfterFire(z.s);
    CycleStays(y.s);
    CycleStays(z.s);
    StillBusy(z.s);
    if Empty(r.s) {
      NothingCompletes(y.s.table, y.s.cycle);
      StillInFlight(y.s);
      NeverStuck(trace, z, q);
      LaterLimit(StartReady(z.s).table, z.s.cycle + 20, 21 * done + 22);
    } else {
      DueLater(trace, r, p, 21 * done + 22);
      if Completions(y.s.table, y.s.cycle) == 0 {
        StillInFlight(y.s);
        ClearRuns(y.s, 21 * done + 22);
        FireRuns(z.s, 21 * done + 22);
      } else if !Empty(z.s) {
        NeverStuck(trace, z, q);
        LaterLimit(StartReady(z.s).table, z.s.cycle + 20, 21 * (z.next - Live(z.s.table)) + 22);
      }
    }
  }

  lemma FeedCycle(st: Stations, regs: nat, trace: seq<Inst>, r: Run)
    requires Sized(st, regs, trace, r)
    ensures Feed(st, regs, trace, r).s.cycle == r.s.cycle && |Feed(st, regs, trace, r).s.table| == |r.s.table|
  {
  }

  lemma SameTable(s: Sched, x: Sched)
    requires s.table == x.table
    ensures Empty(s) == Empty(x)
  {
  }

  lemma CycleStays(s: Sched)
    requires Fits(s)
    ensures ClearCompleted(s).cycle == s.cycle && StartReady(s).cycle == s.cycle
  {
  }

  lemma {:induction false} AlwaysOnTime(st: Stations, regs: nat, trace: seq<Inst>, m: nat)
    requires Good(st, regs, trace)
    requires forall j :: 0 <= j < m ==> !Finished(trace, After(st, regs, trace, j))
    ensures OnTime(After(st, regs, trace, m)) && After(st, regs, trace, m).s.cycle == m + 1
  {
    hide Inv, Finished, OnTime, Advance, PastAdvance, Recorded;
    if m > 0 {
      AlwaysOnTime(st, regs, trace, m - 1);
      AlwaysInv(st, regs, trace, m - 1);
      OnTimeKept(st, regs, trace, After(st, regs, trace, m - 1), PastAfter(st, regs, trace, m - 1));
      AdvanceCycle(st, regs, trace, After(st, regs, trace, m - 1));
    } else {
      InitialOnTime(st, regs, trace);
    }
  }

  lemma AdvanceCycle(st: Stations, regs: nat, trace: seq<Inst>, r: Run)
    requires Sized(st, regs, trace, r)
    ensures Advance(st, regs, trace, r).s.cycle == r.s.cycle + 1
  {
  }

  lemma InitialOnTime(st: Stations, regs: nat, trace: seq<Inst>)
    requires Good(st, regs, trace)
    ensures OnTime(After(st, regs, trace, 0))
  {
    LiveZero(Initial(st, regs).table);
  }

  lemma LiveZero(table: seq<Entry>)
    ensures Live(table) == 0 <==> forall k :: 0 <= k < |table| ==> !table[k].valid
  {
    var flags := seq(|table|, k requires 0 <= k < |table| => table[k].valid);
    CountZero(flags);
    assert forall k :: 0 <= k < |table| ==> flags[k] == table[k].valid;
  }

  lemma LiveWhenEmpty(s: Sched)
    ensures Live(s.table) == 0 <==> Empty(s)
  {
    LiveZero(s.table);
  }

  /** A run that is not over has used fewer cycles than its instructions allow. */
  lemma TimeLeft(trace: seq<Inst>, r: Run, p: Past)
    requires Inv(trace, r, p, 0) && OnTime(r) && !Finished(trace, r) && r.next <= |trace|
    ensures r.s.cycle <= 21 * |trace|
  {
    hide Inv, SomeoneRuns, Live, Empty;
    LiveWhenEmpty(r.s);
    if !Empty(r.s) {
      DueLater(trace, r, p, 21 * (r.next - Live(r.s.table)) + 22);
    }
  }

  lemma StillTime(st: Stations, regs: nat, trace: seq<Inst>, m: nat)
    requires Good(st, regs, trace)
    requires forall j :: 0 <= j <= m ==> !Finished(trace, After(st, regs, trace, j))
    ensures m < 21 * |trace|
  {
    hide Inv, OnTime, Finished, After, Fits;
    AlwaysOnTime(st, regs, trace, m);
    AlwaysInv(st, regs, trace, m);
    TimeLeft(trace, After(st, regs, trace, m), PastAfter(st, regs, trace, m));
  }

  /** Any trace of N instructions finishes with at most 21 * N + 1 on the clock. */
  lemma RunBound(st: Stations, regs: nat, trace: seq<Inst>) returns (m: nat)
    requires Good(st, regs, trace)
    ensures Finished(trace, After(st, regs, trace, m)) && After(st, regs, trace, m).s.cycle == m + 1 <= 21 * |trace| + 1
    ensures forall j :: 0 <= j < m ==> !Finished(trace, After(st, regs, trace, j))
  {
    hide Inv, After, OnTime, Finished;
    m := 0;
    while !Finished(trace, After(st, regs, trace, m))
      invariant m <= 21 * |trace|
      invariant forall j :: 0 <= j < m ==> !Finished(trace, After(st, regs, trace, j))
      decreases 21 * |trace| - m
    {
      StillTime(st, regs, trace, m);
      m := m + 1;
    }
    AlwaysOnTime(st, regs, trace, m);
  }

  // ---------------------------------------------------------------- the bound is attained

  /** n instructions of one type, without sources. */
  function Alike(op: OpType, n: nat): seq<Inst> {
    seq(n, _ => Inst(op, 1, NONE, NONE))
  }

  /** The cycles i of them take on a station of one entry, if each waits for the one before. */
  function Turns(op: OpType, i: nat): nat {
    match op
    case Add => 3 * i
    case Div => 16 * i
    case Mem => 21 * i
  }

  function Turn(op: OpType): nat {
    match op
    case Add => 3
    case Div => 16
    case Mem => 21
  }

  /** The one entry of the station is free and i instructions have completed. */
  predicate Idle(op: OpType, r: Run, i: nat) {
    && r.next == i && |r.s.table| == 1 && |r.s.rat| == 1 && !r.s.table[0].valid && r.s.cycle == Turns(op, i) + 1
  }

  /** Instruction i has been running for d cycles, the current one included. */
  predicate Busy(op: OpType, r: Run, i: nat, d: nat) {
    && r.next == i + 1 && |r.s.table| == 1 && |r.s.rat| == 1 && 1 <= d < Turn(op)
    && r.s.table[0] == Entry(true, op, 1, NONE, NONE, Turns(op, i) + 2) && r.s.cycle == Turns(op, i) + 1 + d
  }

  lemma StepOfOne(s: Sched)
    requires Fits(s) && |s.table| == 1
    ensures var y := CompleteSlot(s.(cycle := s.cycle + 1), 0);
            && Step(s).cycle == s.cycle + 1
            && Step(s).table == [if Startable(y.table[0]) then y.table[0].(start := s.cycle + 1) else y.table[0]]
  {
    var x := s.(cycle := s.cycle + 1);
    assert Complete(x, 0) == x && Complete(x, 1) == CompleteSlot(Complete(x, 0), 0);
  }

  lemma Starting(op: OpType, n: nat, r: Run, i: nat)
    requires Sized(Unified(1), 1, Alike(op, n), r) && Idle(op, r, i) && i < n
    ensures Busy(op, Advance(Unified(1), 1, Alike(op, n), r), i, 1)
  {
    hide Step;
    var x := Feed(Unified(1), 1, Alike(op, n), r);
    assert x.s.table[0] == Entry(true, op, 1, NONE, NONE, 0);
    StepOfOne(x.s);
  }

  lemma Waiting(op: OpType, n: nat, r: Run, i: nat, d: nat)
    requires Sized(Unified(1), 1, Alike(op, n), r) && Busy(op, r, i, d)
    ensures var x := Advance(Unified(1), 1, Alike(op, n), r);
            if d + 1 < Turn(op) then Busy(op, x, i, d + 1) else Idle(op, x, i + 1)
  {
    hide Step;
    var x := Feed(Unified(1), 1, Alike(op, n), r);
    assert x.s.table == r.s.table;
    StepOfOne(x.s);
  }

  lemma {:induction false} Timetable(op: OpType, n: nat, i: nat, d: nat)
    requires Good(Unified(1), 1, Alike(op, n)) && d < Turn(op) && (if d == 0 then i <= n else i < n)
    ensures var r := After(Unified(1), 1, Alike(op, n), Turns(op, i) + d);
            if d == 0 then Idle(op, r, i) else Busy(op, r, i, d)
    decreases i, d
  {
    hide Advance, Idle, Busy;
    if d > 0 {
      Timetable(op, n, i, d - 1);
      var r := After(Unified(1), 1, Alike(op, n), Turns(op, i) + (d - 1));
      if d == 1 {
        Starting(op, n, r, i);
      } else {
        Waiting(op, n, r, i, d - 1);
      }
    } else if i > 0 {
      Timetable(op, n, i - 1, Turn(op) - 1);
      Waiting(op, n, After(Unified(1), 1, Alike(op, n), Turns(op, i - 1) + (Turn(op) - 1)), i - 1, Turn(op) - 1);
    } else {
      FirstIdle(op, n);
    }
  }

  lemma FirstIdle(op: OpType, n: nat)
    requires Good(Unified(1), 1, Alike(op, n))
    ensures Idle(op, After(Unified(1), 1, Alike(op, n), 0), 0)
  {
  }

  lemma Unfinished(op: OpType, n: nat, m: nat)
    requires Good(Unified(1), 1, Alike(op, n)) && m < Turns(op, n)
    ensures !Finished(Alike(op, n), After(Unified(1), 1, Alike(op, n), m))
  {
    hide After;
    match op
    case Add => Timetable(op, n, m / 3, m % 3);
    case Div => Timetable(op, n, m / 16, m % 16);
    case Mem => Timetable(op, n, m / 21, m % 21);
  }

  /** A station of one entry needs exactly 3 * n + 1 cycles for n ADD instructions, 16 * n + 1
      for n DIVs and 21 * n + 1 for n MEMs. */
  lemma BoundAttained(op: OpType, n: nat)
    ensures Good(Unified(1), 1, Alike(op, n))
    ensures Finished(Alike(op, n), After(Unified(1), 1, Alike(op, n), Turns(op, n)))
    ensures After(Unified(1), 1, Alike(op, n), Turns(op, n)).s.cycle == Turns(op, n) + 1
    ensures forall m :: 0 <= m < Turns(op, n) ==> !Finished(Alike(op, n), After(Unified(1), 1, Alike(op, n), m))
  {
    hide After, Finished;
    Timetable(op, n, n, 0);
    IdleIsFinished(op, n);
    forall m | 0 <= m < Turns(op, n) ensures !Finished(Alike(op, n), After(Unified(1), 1, Alike(op, n), m)) {
      Unfinished(op, n, m);
    }
  }

  lemma IdleIsFinished(op: OpType, n: nat)
    ensures forall r: Run :: Idle(op, r, n) ==> Finished(Alike(op, n), r)
  {
  }
}
