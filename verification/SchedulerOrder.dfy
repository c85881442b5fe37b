/** Which writer an instruction waits for. Completion clears its register's alias even when the
    alias belongs to a later writer, so an instruction issued after that does not wait for
    the later writer; in all other cases it starts after the last writer of each source. */
module SchedulerOrder {
  import opened Scheduler
  import opened SchedulerInv

  /** An older writer of w's register completed after w was issued, by the given cycle. */
  predicate Overtaken(trace: seq<Inst>, p: Past, cycle: nat, w: nat)
    requires w < |p.starts| == |p.issuedAt| <= |trace|
  {
    exists v :: 0 <= v < w && trace[v].dest == trace[w].dest && p.starts[v] != 0
                && p.issuedAt[w] < p.starts[v] + Latency(trace[v].op) <= cycle
  }

  predicate Timely(r: Run, p: Past) {
    forall i :: 0 <= i < |p.issuedAt| ==> p.issuedAt[i] <= r.s.cycle
  }

  /** Register x has an alias exactly if its last writer is in flight and has not been overtaken. */
  ghost predicate AliasesExact(trace: seq<Inst>, r: Run, p: Past)
    requires Recorded(r, p) && r.next <= |trace|
  {
    forall x: nat, w: nat {:trigger LastWriter(trace, r.next, w, x)} ::
      LastWriter(trace, r.next, w, x) && 1 <= x <= |r.s.rat| ==>
      (r.s.rat[x - 1] != NONE <==> InFlight(r, p, w) && !Overtaken(trace, p, r.s.cycle, w))
  }

  lemma IssueKeepsExact(trace: seq<Inst>, r: Run, p: Past, x: Run, p': Past, k: nat)
    requires Inv(trace, r, p, 0) && AliasesExact(trace, r, p) && Issues(trace, r, p, x, p', k)
    ensures AliasesExact(trace, x, p')
  {
    hide Tags, Aliases, Timing, Accounted;
    forall y: nat, w: nat | LastWriter(trace, x.next, w, y) && 1 <= y <= |x.s.rat|
      ensures x.s.rat[y - 1] != NONE <==> InFlight(x, p', w) && !Overtaken(trace, p', x.s.cycle, w)
    {
      if w == r.next {
        assert x.s.table[k].valid && p'.ids[k] == w;
      } else {
        assert LastWriter(trace, r.next, w, y);
        SameFlight(trace, r, p, x, p', k, w);
        assert Overtaken(trace, p', x.s.cycle, w) == Overtaken(trace, p, r.s.cycle, w);
      }
    }
  }

  lemma SameFlight(trace: seq<Inst>, r: Run, p: Past, x: Run, p': Past, k: nat, w: nat)
    requires Issues(trace, r, p, x, p', k) && w < r.next
    ensures InFlight(x, p', w) == InFlight(r, p, w)
  {
    if InFlight(r, p, w) {
      var j :| 0 <= j < |r.s.table| && r.s.table[j].valid && p.ids[j] == w;
      assert x.s.table[j].valid && p'.ids[j] == w;
    }
    if InFlight(x, p', w) {
      var j :| 0 <= j < |x.s.table| && x.s.table[j].valid && p'.ids[j] == w;
      assert r.s.table[j].valid && p.ids[j] == w;
    }
  }

  /** The instructions in flight after a clock tick and the completions of its cycle. */
  lemma ClearedFlight(trace: seq<Inst>, r: Run, p: Past, z: Run, i: nat)
    requires Fits(r.s) && Inv(trace, r, p, 0) && i < r.next
    requires z == r.(s := ClearCompleted(r.s.(cycle := r.s.cycle + 1)))
    ensures InFlight(z, p, i) <==> InFlight(r, p, i) && !Completed(trace, p, r.s.cycle + 1, i)
    ensures Completed(trace, p, r.s.cycle, i) ==> !InFlight(r, p, i)
  {
    hide Tags, Aliases, Accounted;
    var y := r.s.(cycle := r.s.cycle + 1);
    CompleteFacts(y, |y.table|);
    assert forall j :: 0 <= j < |y.table| ==> Cleared(y, |y.table|, z.s.table[j], j);
    if InFlight(r, p, i) {
      var j :| 0 <= j < |r.s.table| && r.s.table[j].valid && p.ids[j] == i;
      if !Completed(trace, p, r.s.cycle + 1, i) {
        assert z.s.table[j].valid;
      }
    }
  }

  /** A writer of x completes in this cycle. */
  lemma FreesMeansCompletes(trace: seq<Inst>, r: Run, p: Past, x: nat)
    requires Inv(trace, r, p, 0)
    ensures var y := r.s.(cycle := r.s.cycle + 1);
            Frees(y, |y.table|, x) <==>
            exists v :: 0 <= v < r.next && trace[v].dest == x && InFlight(r, p, v) && Completed(trace, p, y.cycle, v)
  {
    hide Tags, Aliases, Accounted;
    var y := r.s.(cycle := r.s.cycle + 1);
    if Frees(y, |y.table|, x) {
      var j :| 0 <= j < |y.table| && Completing(y.table[j], y.cycle) && y.table[j].dest == x;
      assert InFlight(r, p, p.ids[j]) && Completed(trace, p, y.cycle, p.ids[j]);
    }
    if v :| 0 <= v < r.next && trace[v].dest == x && InFlight(r, p, v) && Completed(trace, p, y.cycle, v) {
      var j :| 0 <= j < |r.s.table| && r.s.table[j].valid && p.ids[j] == v;
      assert Completing(y.table[j], y.cycle);
    }
  }

  lemma ClearKeepsExact(trace: seq<Inst>, r: Run, p: Past, z: Run)
    requires Fits(r.s) && Inv(trace, r, p, 0) && AliasesExact(trace, r, p) && Timely(r, p)
    requires z == r.(s := ClearCompleted(r.s.(cycle := r.s.cycle + 1)))
    ensures AliasesExact(trace, z, p)
  {
    hide Ids, Tags, Aliases, Timing, ClearCompleted;
    forall x: nat, w: nat | LastWriter(trace, z.next, w, x) && 1 <= x <= |z.s.rat|
      ensures z.s.rat[x - 1] != NONE <==> InFlight(z, p, w) && !Overtaken(trace, p, z.s.cycle, w)
    {
      ClearedRat(r.s, z.s, x);
      FreesMeansCompletes(trace, r, p, x);
      ClearedFlight(trace, r, p, z, w);
      var y := r.s.(cycle := r.s.cycle + 1);
      if Overtaken(trace, p, z.s.cycle, w) && !Overtaken(trace, p, r.s.cycle, w) {
        var v :| 0 <= v < w && trace[v].dest == trace[w].dest && p.starts[v] != 0
                  && p.issuedAt[w] < p.starts[v] + Latency(trace[v].op) <= z.s.cycle;
        assert InFlight(r, p, v) && Completed(trace, p, y.cycle, v);
      }
      if v :| 0 <= v < r.next && trace[v].dest == x && InFlight(r, p, v) && Completed(trace, p, y.cycle, v) {
        ClearedFlight(trace, r, p, z, v);
        assert v == w || Overtaken(trace, p, z.s.cycle, w);
      }
    }
  }

  lemma ClearedRat(s: Sched, z: Sched, x: nat)
    requires Fits(s) && z == ClearCompleted(s.(cycle := s.cycle + 1)) && 1 <= x <= |s.rat|
    ensures z.cycle == s.cycle + 1 && |z.rat| == |s.rat|
    ensures var y := s.(cycle := s.cycle + 1); z.rat[x - 1] == if Frees(y, |y.table|, x) then NONE else s.rat[x - 1]
  {
    var y := s.(cycle := s.cycle + 1);
    CompleteFacts(y, |y.table|);
    assert Complete(y, |y.table|).rat[x - 1] == z.rat[x - 1];
  }

  /** Starting an instruction gives it a completion in the future. */
  lemma FireStarts(trace: seq<Inst>, r: Run, p: Past, i: nat)
    requires Fits(r.s) && Inv(trace, r, p, 0) && i < r.next
    ensures var p' := PastFire(r.s.table, r.s.cycle, p);
            && (p'.starts[i] == p.starts[i] || (p.starts[i] == 0 && p'.starts[i] == r.s.cycle))
            && (p'.starts[i] != p.starts[i] ==>
                  exists k :: 0 <= k < |r.s.table| && p.ids[k] == i && Fires(r.s.table, k))
            && InFlight(r.(s := StartReady(r.s)), p', i) == InFlight(r, p, i)
  {
    hide Tags, Aliases, Timing, Accounted;
    var x := r.(s := StartReady(r.s));
    var p' := PastFire(r.s.table, r.s.cycle, p);
    assert forall k :: 0 <= k < |r.s.table| ==> x.s.table[k].valid == r.s.table[k].valid;
    if InFlight(r, p, i) {
      var j :| 0 <= j < |r.s.table| && r.s.table[j].valid && p.ids[j] == i;
      assert x.s.table[j].valid && p'.ids[j] == i;
    }
  }

  lemma FireKeepsExact(trace: seq<Inst>, r: Run, p: Past)
    requires Fits(r.s) && Inv(trace, r, p, 0) && AliasesExact(trace, r, p)
    ensures AliasesExact(trace, r.(s := StartReady(r.s)), PastFire(r.s.table, r.s.cycle, p))
  {
    hide Tags, Aliases, Timing, Accounted, FireTable, Fires, InFlight;
    var x := r.(s := StartReady(r.s));
    var p' := PastFire(r.s.table, r.s.cycle, p);
    forall y: nat, w: nat | LastWriter(trace, x.next, w, y) && 1 <= y <= |x.s.rat|
      ensures x.s.rat[y - 1] != NONE <==> InFlight(x, p', w) && !Overtaken(trace, p', x.s.cycle, w)
    {
      FireStarts(trace, r, p, w);
      forall v | 0 <= v < w
        ensures (p'.starts[v] != 0 && p'.starts[v] + Latency(trace[v].op) <= r.s.cycle)
                == (p.starts[v] != 0 && p.starts[v] + Latency(trace[v].op) <= r.s.cycle)
        ensures p.starts[v] != 0 ==> p'.starts[v] == p.starts[v]
      {
        FireStarts(trace, r, p, v);
      }
      assert Overtaken(trace, p', x.s.cycle, w) == Overtaken(trace, p, r.s.cycle, w);
    }
  }

  // ---------------------------------------------------------------- waiting for the writer

  function Source(inst: Inst, first: bool): int {
    if first then inst.src1 else inst.src2
  }

  function EntrySource(e: Entry, first: bool): int {
    if first then e.src1 else e.src2
  }

  /** Instruction i reads register x, whose last writer before it is w. */
  predicate Reads(trace: seq<Inst>, i: nat, first: bool, x: nat, w: nat)
    requires i < |trace|
  {
    x >= 1 && Source(trace[i], first) == x && LastWriter(trace, i, w, x)
  }

  /** When i was issued, w was in flight and had been overtaken. */
  predicate Lost(trace: seq<Inst>, p: Past, i: nat, w: nat)
    requires w < i < |p.starts| == |p.issuedAt| <= |trace|
  {
    Overtaken(trace, p, p.issuedAt[i], w) && !Completed(trace, p, p.issuedAt[i], w)
  }

  /** Entry k holds instruction i, which waits for instruction w. */
  predicate WaitsIn(r: Run, p: Past, k: nat, first: bool, i: nat, w: nat)
    requires |p.ids| == |r.s.table|
  {
    && k < |r.s.table| && r.s.table[k].valid && p.ids[k] == i && r.s.table[k].start == 0
    && var src := EntrySource(r.s.table[k], first);
       1 <= src <= |r.s.table| && r.s.table[src - 1].valid && p.ids[src - 1] == w
  }

  ghost predicate Respects(trace: seq<Inst>, r: Run, p: Past, first: bool, i: nat, w: nat)
    requires Recorded(r, p) && r.next <= |trace| && w < i < r.next
  {
    || (exists k: nat :: WaitsIn(r, p, k, first, i, w))
    || (Completed(trace, p, r.s.cycle, w) && (p.starts[i] == 0 || p.starts[i] >= p.starts[w] + Latency(trace[w].op)))
  }

  /** Every issued instruction waits for, or starts after, the last writer of each source,
      unless that writer had been overtaken. */
  ghost predicate OrderInv(trace: seq<Inst>, r: Run, p: Past)
    requires Recorded(r, p) && r.next <= |trace|
  {
    forall i: nat, first: bool, x: nat, w: nat {:trigger Reads(trace, i, first, x, w)} ::
      i < r.next && Reads(trace, i, first, x, w) && !Lost(trace, p, i, w) ==> Respects(trace, r, p, first, i, w)
  }

  lemma LastWriterUnique(trace: seq<Inst>, n: nat, v: nat, w: nat, x: nat)
    requires n <= |trace| && LastWriter(trace, n, v, x) && LastWriter(trace, n, w, x)
    ensures v == w
  {
  }

  /** The instruction that is issued takes the tag of its source's last writer, or that writer
      is no longer in flight, or it has been overtaken. */
  lemma IssuedFollows(trace: seq<Inst>, r: Run, p: Past, x: Run, p': Past, k: nat, first: bool, y: nat, w: nat)
    requires Inv(trace, r, p, 0) && AliasesExact(trace, r, p) && Issues(trace, r, p, x, p', k) && Ids(trace, x, p')
    requires Reads(trace, r.next, first, y, w) && !Lost(trace, p', r.next, w)
    ensures Respects(trace, x, p', first, r.next, w)
  {
    hide Tags, Timing;
    assert Overtaken(trace, p', r.s.cycle, w) == Overtaken(trace, p, r.s.cycle, w);
    assert LastWriter(trace, r.next, w, y);
    var tag := r.s.rat[y - 1];
    if tag != NONE {
      LastWriterUnique(trace, r.next, p.ids[tag - 1], w, y);
      assert WaitsIn(x, p', k, first, r.next, w);
    } else {
      assert InFlight(r, p, w) || Completed(trace, p, r.s.cycle, w);
    }
  }

  lemma IssueKeepsOrder(trace: seq<Inst>, r: Run, p: Past, x: Run, p': Past, k: nat)
    requires Inv(trace, r, p, 0) && AliasesExact(trace, r, p) && OrderInv(trace, r, p) && Issues(trace, r, p, x, p', k)
    ensures Recorded(x, p') && OrderInv(trace, x, p')
  {
    hide Tags, Timing, Aliases, Accounted, AliasesExact;
    IssueKeepsIds(trace, r, p, x, p', k);
    forall i: nat, first: bool, y: nat, w: nat | i < x.next && Reads(trace, i, first, y, w) && !Lost(trace, p', i, w)
      ensures Respects(trace, x, p', first, i, w)
    {
      if i == r.next {
        IssuedFollows(trace, r, p, x, p', k, first, y, w);
      } else {
        assert Overtaken(trace, p', p'.issuedAt[i], w) == Overtaken(trace, p, p.issuedAt[i], w);
        assert Respects(trace, r, p, first, i, w);
        if j: nat :| WaitsIn(r, p, j, first, i, w) {
          assert WaitsIn(x, p', j, first, i, w);
        }
      }
    }
  }

  lemma ClearedEntry(s: Sched, j: nat)
    requires Fits(s) && j < |s.table|
    ensures var y := s.(cycle := s.cycle + 1); Cleared(y, |y.table|, ClearCompleted(y).table[j], j)
  {
    var y := s.(cycle := s.cycle + 1);
    CompleteFacts(y, |y.table|);
    assert Cleared(y, |y.table|, Complete(y, |y.table|).table[j], j);
  }

  lemma ClearRespects(trace: seq<Inst>, r: Run, p: Past, z: Run, first: bool, i: nat, w: nat)
    requires Fits(r.s) && Inv(trace, r, p, 0) && w < i < r.next && Respects(trace, r, p, first, i, w)
    requires z == r.(s := ClearCompleted(r.s.(cycle := r.s.cycle + 1)))
    ensures Respects(trace, z, p, first, i, w)
  {
    hide Tags, Aliases, Accounted, Timing, ClearCompleted;
    ClearedCycle(r.s);
    var y := r.s.(cycle := r.s.cycle + 1);
    if k: nat :| WaitsIn(r, p, k, first, i, w) {
      var src := EntrySource(r.s.table[k], first);
      ClearedEntry(r.s, k);
      ClearedEntry(r.s, src - 1);
      if Completing(y.table[src - 1], y.cycle) {
        assert Completed(trace, p, z.s.cycle, w);
      } else {
        assert WaitsIn(z, p, k, first, i, w);
      }
    }
  }

  lemma ClearedCycle(s: Sched)
    requires Fits(s)
    ensures ClearCompleted(s.(cycle := s.cycle + 1)).cycle == s.cycle + 1
  {
  }

  lemma ClearKeepsOrder(trace: seq<Inst>, r: Run, p: Past, z: Run)
    requires Fits(r.s) && Inv(trace, r, p, 0) && OrderInv(trace, r, p)
    requires z == r.(s := ClearCompleted(r.s.(cycle := r.s.cycle + 1)))
    ensures OrderInv(trace, z, p)
  {
    hide Tags, Aliases, Accounted, Timing, ClearCompleted, Respects, Lost;
    forall i: nat, first: bool, x: nat, w: nat | i < z.next && Reads(trace, i, first, x, w) && !Lost(trace, p, i, w)
      ensures Respects(trace, z, p, first, i, w)
    {
      ClearRespects(trace, r, p, z, first, i, w);
    }
  }

  lemma FireKeepsLost(trace: seq<Inst>, r: Run, p: Past, i: nat, w: nat)
    requires Fits(r.s) && Inv(trace, r, p, 0) && w < i < r.next && Timely(r, p)
    ensures Lost(trace, PastFire(r.s.table, r.s.cycle, p), i, w) == Lost(trace, p, i, w)
  {
    hide Tags, Aliases, Accounted, Timing, Fires;
    var p' := PastFire(r.s.table, r.s.cycle, p);
    FireStarts(trace, r, p, w);
    forall v | 0 <= v < w
      ensures p'.starts[v] == p.starts[v] || (p.starts[v] == 0 && p'.starts[v] == r.s.cycle)
    {
      FireStarts(trace, r, p, v);
    }
    assert Overtaken(trace, p', p.issuedAt[i], w) == Overtaken(trace, p, p.issuedAt[i], w);
  }

  /** An entry without all its sources is left as it is; any entry stays as valid as it was. */
  lemma NotFired(table: seq<Entry>, cycle: nat, k: nat)
    requires k < |table|
    ensures FireTable(table, cycle)[k].valid == table[k].valid
    ensures table[k].src1 != NONE || table[k].src2 != NONE ==> FireTable(table, cycle)[k] == table[k]
  {
  }

  lemma FireRespects(trace: seq<Inst>, r: Run, p: Past, first: bool, i: nat, w: nat)
    requires Fits(r.s) && Inv(trace, r, p, 0) && w < i < r.next && Respects(trace, r, p, first, i, w)
    ensures Respects(trace, r.(s := StartReady(r.s)), PastFire(r.s.table, r.s.cycle, p), first, i, w)
  {
    hide Tags, Aliases, Accounted, Timing, FireTable, Fires, Starts, Running;
    var x := r.(s := StartReady(r.s));
    var p' := PastFire(r.s.table, r.s.cycle, p);
    if k: nat :| WaitsIn(r, p, k, first, i, w) {
      NotFired(r.s.table, r.s.cycle, k);
      NotFired(r.s.table, r.s.cycle, EntrySource(r.s.table[k], first) - 1);
      assert WaitsIn(x, p', k, first, i, w);
    } else {
      FireStarts(trace, r, p, w);
      FireStarts(trace, r, p, i);
    }
  }

  lemma FireKeepsOrder(trace: seq<Inst>, r: Run, p: Past)
    requires Fits(r.s) && Inv(trace, r, p, 0) && Timely(r, p) && OrderInv(trace, r, p)
    ensures OrderInv(trace, r.(s := StartReady(r.s)), PastFire(r.s.table, r.s.cycle, p))
  {
    hide Tags, Aliases, Accounted, Timing, Respects, Lost, StartReady, Fires;
    var x := r.(s := StartReady(r.s));
    var p' := PastFire(r.s.table, r.s.cycle, p);
    forall i: nat, first: bool, y: nat, w: nat | i < x.next && Reads(trace, i, first, y, w) && !Lost(trace, p', i, w)
      ensures Respects(trace, x, p', first, i, w)
    {
      FireKeepsLost(trace, r, p, i, w);
      FireRespects(trace, r, p, first, i, w);
    }
  }

  // ---------------------------------------------------------------- runs

  ghost predicate Orderly(trace: seq<Inst>, r: Run, p: Past) {
    Inv(trace, r, p, 0) && Timely(r, p) && AliasesExact(trace, r, p) && OrderInv(trace, r, p)
  }

  lemma FeedOrderly(st: Stations, regs: nat, trace: seq<Inst>, r: Run, p: Past)
    requires Sized(st, regs, trace, r) && Recorded(r, p) && Orderly(trace, r, p)
    ensures Orderly(trace, Feed(st, regs, trace, r), PastFeed(st, regs, trace, r, p))
  {
    hide Tags, Aliases, Accounted, Timing, AliasesExact, OrderInv, Issues;
    FeedKeeps(st, regs, trace, r, p);
    var x := Feed(st, regs, trace, r);
    var p' := PastFeed(st, regs, trace, r, p);
    if r.next < |trace| && CanIssue(st, r.s, trace[r.next].op) {
      var k := FreeSlot(st, r.s, trace[r.next].op);
      FeedIssues(st, regs, trace, r, p, k);
      IssueKeepsExact(trace, r, p, x, p', k);
      IssueKeepsOrder(trace, r, p, x, p', k);
    } else {
      StallOrderly(trace, r, p, x);
    }
  }

  lemma FeedIssues(st: Stations, regs: nat, trace: seq<Inst>, r: Run, p: Past, k: nat)
    requires Sized(st, regs, trace, r) && Recorded(r, p)
    requires r.next < |trace| && CanIssue(st, r.s, trace[r.next].op) && k == FreeSlot(st, r.s, trace[r.next].op)
    ensures Issues(trace, r, p, Feed(st, regs, trace, r), PastFeed(st, regs, trace, r, p), k)
  {
  }

  lemma StallOrderly(trace: seq<Inst>, r: Run, p: Past, x: Run)
    requires Orderly(trace, r, p) && Recorded(x, p)
    requires x.next == r.next && x.s.table == r.s.table && x.s.rat == r.s.rat && x.s.cycle == r.s.cycle
    ensures AliasesExact(trace, x, p) && OrderInv(trace, x, p)
  {
    hide Tags, Aliases, Accounted, Timing;
    assert forall w :: InFlight(x, p, w) == InFlight(r, p, w);
    forall i: nat, first: bool, y: nat, w: nat | i < x.next && Reads(trace, i, first, y, w) && !Lost(trace, p, i, w)
      ensures Respects(trace, x, p, first, i, w)
    {
      assert Respects(trace, r, p, first, i, w);
      if k: nat :| WaitsIn(r, p, k, first, i, w) {
        assert WaitsIn(x, p, k, first, i, w);
      }
    }
  }

  lemma AdvanceOrderly(st: Stations, regs: nat, trace: seq<Inst>, r: Run, p: Past)
    requires Sized(st, regs, trace, r) && Recorded(r, p) && Orderly(trace, r, p)
    ensures Orderly(trace, Advance(st, regs, trace, r), PastAdvance(st, regs, trace, r, p))
  {
    hide Inv, Feed, PastFeed, StartReady, ClearCompleted, PastFire, AliasesExact, OrderInv, Timely;
    FeedOrderly(st, regs, trace, r, p);
    AdvanceKeeps(st, regs, trace, r, p);
    var x := Feed(st, regs, trace, r);
    var q := PastFeed(st, regs, trace, r, p);
    TickKeeps(trace, x, q);
    var y := x.(s := x.s.(cycle := x.s.cycle + 1));
    ClearKeeps(trace, y, q);
    var z := y.(s := ClearCompleted(y.s));
    ClearKeepsExact(trace, x, q, z);
    ClearKeepsOrder(trace, x, q, z);
    StillTimely(x, q);
    FireKeepsExact(trace, z, q);
    FireKeepsOrder(trace, z, q);
  }

  lemma StillTimely(r: Run, p: Past)
    requires Fits(r.s) && Timely(r, p) && |p.ids| == |r.s.table|
    ensures var y := r.s.(cycle := r.s.cycle + 1);
            var z := ClearCompleted(y);
            Timely(r.(s := z), p) && Timely(r.(s := StartReady(z)), PastFire(z.table, z.cycle, p))
  {
  }

  lemma {:induction false} AlwaysOrderly(st: Stations, regs: nat, trace: seq<Inst>, m: nat)
    requires Good(st, regs, trace)
    ensures Orderly(trace, After(st, regs, trace, m), PastAfter(st, regs, trace, m))
  {
    hide Advance, PastAdvance, Orderly;
    if m > 0 {
      AlwaysOrderly(st, regs, trace, m - 1);
      AdvanceOrderly(st, regs, trace, After(st, regs, trace, m - 1), PastAfter(st, regs, trace, m - 1));
    } else {
      InitialOrderly(st, regs, trace);
    }
  }

  lemma InitialOrderly(st: Stations, regs: nat, trace: seq<Inst>)
    requires Good(st, regs, trace)
    ensures Orderly(trace, After(st, regs, trace, 0), PastAfter(st, regs, trace, 0))
  {
    AlwaysInv(st, regs, trace, 0);
  }

  /** In every cycle a register has an alias, the tag of its last writer, if and only if that
      writer is in flight and no older writer of the register has completed since its issue. */
  lemma AliasNamesLastWriter(st: Stations, regs: nat, trace: seq<Inst>, m: nat, x: nat, w: nat)
    requires Good(st, regs, trace) && 1 <= x <= regs
    requires LastWriter(trace, After(st, regs, trace, m).next, w, x)
    ensures var r, p := After(st, regs, trace, m), PastAfter(st, regs, trace, m);
            var alias := r.s.rat[x - 1];
            && (alias != NONE <==> InFlight(r, p, w) && !Overtaken(trace, p, r.s.cycle, w))
            && (alias != NONE ==> 1 <= alias <= |r.s.table| && r.s.table[alias - 1].valid && p.ids[alias - 1] == w)
  {
    hide After, PastAfter, Tags, Timing, Accounted, OrderInv;
    AlwaysOrderly(st, regs, trace, m);
    var r, p := After(st, regs, trace, m), PastAfter(st, regs, trace, m);
    if r.s.rat[x - 1] != NONE {
      LastWriterUnique(trace, r.next, p.ids[r.s.rat[x - 1] - 1], w, x);
    }
  }

  /** Instruction i has not started before the end of instruction w. */
  predicate NotBefore(trace: seq<Inst>, p: Past, i: nat, w: nat)
    requires i < |p.starts| <= |trace| && w < |p.starts|
  {
    p.starts[i] != 0 ==> p.starts[w] != 0 && p.starts[i] >= p.starts[w] + Latency(trace[w].op)
  }

  /** An instruction that has started did so no earlier than the end of the last writer of each
      of its sources, unless that writer was in flight and overtaken at its issue. */
  lemma StartsAfterWriter(st: Stations, regs: nat, trace: seq<Inst>, m: nat)
    requires Good(st, regs, trace)
    ensures After(st, regs, trace, m).next <= |trace|
    ensures var p := PastAfter(st, regs, trace, m);
            forall i: nat, first: bool, x: nat, w: nat {:trigger Reads(trace, i, first, x, w)} ::
              i < After(st, regs, trace, m).next && Reads(trace, i, first, x, w) && !Lost(trace, p, i, w) ==>
                  NotBefore(trace, p, i, w)
  {
    hide After, PastAfter, Tags, Aliases, Timing, AliasesExact, Lost;
    AlwaysOrderly(st, regs, trace, m);
    var r, p := After(st, regs, trace, m), PastAfter(st, regs, trace, m);
    forall i: nat, first: bool, x: nat, w: nat | i < r.next && Reads(trace, i, first, x, w) && !Lost(trace, p, i, w)
      ensures NotBefore(trace, p, i, w)
    {
      StartedAfter(trace, r, p, first, i, w);
    }
  }

  lemma StartedAfter(trace: seq<Inst>, r: Run, p: Past, first: bool, i: nat, w: nat)
    requires Ids(trace, r, p) && w < i < r.next && Respects(trace, r, p, first, i, w)
    ensures NotBefore(trace, p, i, w)
  {
  }

  /** No instruction was issued while a writer of its own destination was in flight. */
  predicate WritersApart(trace: seq<Inst>, p: Past)
    requires |p.starts| == |p.issuedAt| <= |trace|
  {
    forall v, w :: 0 <= v < w < |p.starts| && trace[v].dest == trace[w].dest ==> Completed(trace, p, p.issuedAt[w], v)
  }

  /** On traces that never issue to a register with a writer in flight all dependences hold. */
  lemma DependenceOrder(st: Stations, regs: nat, trace: seq<Inst>, m: nat)
    requires Good(st, regs, trace)
    ensures After(st, regs, trace, m).next <= |trace|
    ensures var p := PastAfter(st, regs, trace, m);
            WritersApart(trace, p) ==>
              forall i: nat, first: bool, x: nat, w: nat {:trigger Reads(trace, i, first, x, w)} ::
                i < After(st, regs, trace, m).next && Reads(trace, i, first, x, w) ==> NotBefore(trace, p, i, w)
  {
    hide After, PastAfter, Sized, NotBefore;
    StartsAfterWriter(st, regs, trace, m);
    var p := PastAfter(st, regs, trace, m);
    forall i: nat, first: bool, x: nat, w: nat
      | WritersApart(trace, p) && i < After(st, regs, trace, m).next && Reads(trace, i, first, x, w)
      ensures !Lost(trace, p, i, w)
    {
      NeverLost(trace, p, i, w);
    }
  }

  lemma NeverLost(trace: seq<Inst>, p: Past, i: nat, w: nat)
    requires w < i < |p.starts| == |p.issuedAt| <= |trace| && WritersApart(trace, p)
    ensures !Lost(trace, p, i, w)
  {
  }
}
