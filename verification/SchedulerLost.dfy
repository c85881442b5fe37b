/** The other half of the order of dependences: a writer that was in flight and overtaken when
    an instruction was issued is not waited for, and what is not waited for does not delay
    the start. */
module SchedulerLost {
  import opened Scheduler
  import opened SchedulerInv
  import opened SchedulerOrder

  // ---------------------------------------------------------------- a lost writer is not waited for

  /** A source whose last writer was lost is ready from the start. */
  ghost predicate LostInv(trace: seq<Inst>, r: Run, p: Past)
    requires Recorded(r, p) && r.next <= |trace|
  {
    forall k: nat, first: bool, x: nat, w: nat {:trigger Reads(trace, p.ids[k], first, x, w)} ::
      (k < |r.s.table| && r.s.table[k].valid && p.ids[k] < r.next
       && Reads(trace, p.ids[k], first, x, w) && Lost(trace, p, p.ids[k], w)) ==>
        EntrySource(r.s.table[k], first) == NONE
  }

  lemma IssueKeepsLost(trace: seq<Inst>, r: Run, p: Past, x: Run, p': Past, k: nat)
    requires Inv(trace, r, p, 0) && AliasesExact(trace, r, p) && LostInv(trace, r, p) && Issues(trace, r, p, x, p', k)
    ensures Recorded(x, p') && LostInv(trace, x, p')
  {
    hide Tags, Timing, Aliases, Accounted;
    forall j: nat, first: bool, y: nat, w: nat
      | j < |x.s.table| && x.s.table[j].valid && p'.ids[j] < x.next && Reads(trace, p'.ids[j], first, y, w)
        && Lost(trace, p', p'.ids[j], w)
      ensures EntrySource(x.s.table[j], first) == NONE
    {
      if j == k {
        assert LastWriter(trace, r.next, w, y);
        assert Overtaken(trace, p', r.s.cycle, w) == Overtaken(trace, p, r.s.cycle, w);
      } else {
        var i := p.ids[j];
        assert Overtaken(trace, p', p'.issuedAt[i], w) == Overtaken(trace, p, p.issuedAt[i], w);
        assert Reads(trace, p.ids[j], first, y, w) && Lost(trace, p, i, w);
      }
    }
  }

  lemma ClearKeepsLost(trace: seq<Inst>, r: Run, p: Past, z: Run)
    requires Fits(r.s) && Inv(trace, r, p, 0) && LostInv(trace, r, p)
    requires z == r.(s := ClearCompleted(r.s.(cycle := r.s.cycle + 1)))
    ensures LostInv(trace, z, p)
  {
    hide Tags, Aliases, Accounted, Timing, ClearCompleted, Lost;
    forall k: nat, first: bool, x: nat, w: nat
      | k < |z.s.table| && z.s.table[k].valid && p.ids[k] < z.next && Reads(trace, p.ids[k], first, x, w)
        && Lost(trace, p, p.ids[k], w)
      ensures EntrySource(z.s.table[k], first) == NONE
    {
      ClearedEntry(r.s, k);
    }
  }

  lemma FireSources(s: Sched, k: nat, first: bool)
    requires Fits(s) && k < |s.table|
    ensures EntrySource(StartReady(s).table[k], first) == EntrySource(s.table[k], first)
    ensures StartReady(s).table[k].valid == s.table[k].valid
  {
  }

  lemma FireKeepsLostInv(trace: seq<Inst>, r: Run, p: Past)
    requires Fits(r.s) && Inv(trace, r, p, 0) && Timely(r, p) && LostInv(trace, r, p)
    ensures LostInv(trace, r.(s := StartReady(r.s)), PastFire(r.s.table, r.s.cycle, p))
  {
    hide Tags, Aliases, Accounted, Timing, StartReady, Lost, Fires;
    var x := r.(s := StartReady(r.s));
    var p' := PastFire(r.s.table, r.s.cycle, p);
    forall k: nat, first: bool, y: nat, w: nat
      | k < |x.s.table| && x.s.table[k].valid && p'.ids[k] < x.next && Reads(trace, p'.ids[k], first, y, w)
        && Lost(trace, p', p'.ids[k], w)
      ensures EntrySource(x.s.table[k], first) == NONE
    {
      FireSources(r.s, k, first);
      FireKeepsLost(trace, r, p, p.ids[k], w);
      assert Reads(trace, p.ids[k], first, y, w);
    }
  }

  lemma FeedKeepsLost(st: Stations, regs: nat, trace: seq<Inst>, r: Run, p: Past)
    requires Sized(st, regs, trace, r) && Recorded(r, p) && Orderly(trace, r, p) && LostInv(trace, r, p)
    ensures LostInv(trace, Feed(st, regs, trace, r), PastFeed(st, regs, trace, r, p))
  {
    hide Tags, Aliases, Accounted, Timing, AliasesExact, OrderInv, Issues, Lost;
    var x := Feed(st, regs, trace, r);
    var p' := PastFeed(st, regs, trace, r, p);
    if r.next < |trace| && CanIssue(st, r.s, trace[r.next].op) {
      var k := FreeSlot(st, r.s, trace[r.next].op);
      FeedIssues(st, regs, trace, r, p, k);
      IssueKeepsLost(trace, r, p, x, p', k);
    } else {
      assert x.s.table == r.s.table;
    }
  }

  lemma AdvanceKeepsLost(st: Stations, regs: nat, trace: seq<Inst>, r: Run, p: Past)
    requires Sized(st, regs, trace, r) && Recorded(r, p) && Orderly(trace, r, p) && LostInv(trace, r, p)
    ensures LostInv(trace, Advance(st, regs, trace, r), PastAdvance(st, regs, trace, r, p))
  {
    hide Inv, Feed, PastFeed, StartReady, ClearCompleted, PastFire, AliasesExact, OrderInv, Timely, LostInv;
    FeedOrderly(st, regs, trace, r, p);
    FeedKeepsLost(st, regs, trace, r, p);
    var x := Feed(st, regs, trace, r);
    var q := PastFeed(st, regs, trace, r, p);
    TickKeeps(trace, x, q);
    var y := x.(s := x.s.(cycle := x.s.cycle + 1));
    ClearKeeps(trace, y, q);
    var z := y.(s := ClearCompleted(y.s));
    ClearKeepsLost(trace, x, q, z);
    StillTimely(x, q);
    FireKeepsLostInv(trace, z, q);
  }

  lemma {:induction false} AlwaysLost(st: Stations, regs: nat, trace: seq<Inst>, m: nat)
    requires Good(st, regs, trace)
    ensures Recorded(After(st, regs, trace, m), PastAfter(st, regs, trace, m))
            && After(st, regs, trace, m).next <= |trace|
    ensures LostInv(trace, After(st, regs, trace, m), PastAfter(st, regs, trace, m))
  {
    hide Advance, PastAdvance, Orderly, Lost;
    if m > 0 {
      AlwaysLost(st, regs, trace, m - 1);
      AlwaysOrderly(st, regs, trace, m - 1);
      AdvanceKeepsLost(st, regs, trace, After(st, regs, trace, m - 1), PastAfter(st, regs, trace, m - 1));
    }
  }

  /** While the last writer of a source has not completed, the instruction that reads it waits
      for it in its station if and only if the writer was not in flight and overtaken when
      the instruction was issued. */
  lemma WaitsExactly(st: Stations, regs: nat, trace: seq<Inst>, m: nat, i: nat, first: bool, x: nat, w: nat)
    requires Good(st, regs, trace)
    ensures var r, p := After(st, regs, trace, m), PastAfter(st, regs, trace, m);
            i < r.next && Reads(trace, i, first, x, w) && !Completed(trace, p, r.s.cycle, w) ==>
              ((exists k: nat :: WaitsIn(r, p, k, first, i, w)) <==> !Lost(trace, p, i, w))
  {
    hide After, PastAfter, Tags, Aliases, Timing, AliasesExact, Lost;
    AlwaysOrderly(st, regs, trace, m);
    AlwaysLost(st, regs, trace, m);
    var r, p := After(st, regs, trace, m), PastAfter(st, regs, trace, m);
    if i < r.next && Reads(trace, i, first, x, w) {
      if k: nat :| WaitsIn(r, p, k, first, i, w) {
        assert Reads(trace, p.ids[k], first, x, w);
      }
    }
  }

  // ---------------------------------------------------------------- when an instruction starts at once

  /** The source of the next instruction does not hold it up: it is unused, nobody has written
      it, its last writer is overtaken or has completed by the coming cycle. */
  ghost predicate Unblocked(trace: seq<Inst>, r: Run, p: Past, first: bool)
    requires Recorded(r, p) && r.next < |trace|
  {
    Source(trace[r.next], first) == NONE
    || forall w: nat {:trigger LastWriter(trace, r.next, w, Source(trace[r.next], first))} ::
         Source(trace[r.next], first) >= 1 && LastWriter(trace, r.next, w, Source(trace[r.next], first)) ==>
           Overtaken(trace, p, r.s.cycle, w) || Completed(trace, p, r.s.cycle + 1, w)
  }

  /** No other instruction of the type waits to start. */
  predicate UnitFree(r: Run, op: OpType) {
    forall j :: 0 <= j < |r.s.table| && r.s.table[j].valid && r.s.table[j].op == op ==> r.s.table[j].start != 0
  }

  /** After the completions of the coming cycle the issued instruction has the source exactly
      if the source does not hold it up. */
  lemma SourceAfterClear(trace: seq<Inst>, r: Run, p: Past, x: Run, p': Past, k: nat, first: bool)
    requires Inv(trace, r, p, 0) && AliasesExact(trace, r, p) && Issues(trace, r, p, x, p', k) && Fits(x.s)
    ensures EntrySource(ClearCompleted(x.s.(cycle := x.s.cycle + 1)).table[k], first) == NONE
            <==> Unblocked(trace, r, p, first)
    ensures ClearCompleted(x.s.(cycle := x.s.cycle + 1)).table[k].valid
    ensures ClearCompleted(x.s.(cycle := x.s.cycle + 1)).table[k].start == 0
  {
    hide Tags, ClearCompleted;
    ClearedEntry(x.s, k);
    var src := Source(trace[r.next], first);
    if src != NONE {
      var tag := r.s.rat[src - 1];
      if tag != NONE {
        var w := p.ids[tag - 1];
        assert LastWriter(trace, r.next, w, src);
        assert forall v: nat :: LastWriter(trace, r.next, v, src) ==> v == w;
        assert x.s.table[tag - 1] == r.s.table[tag - 1];
        assert InFlight(r, p, w);
      } else {
        forall w: nat | LastWriter(trace, r.next, w, src)
          ensures Overtaken(trace, p, r.s.cycle, w) || Completed(trace, p, r.s.cycle + 1, w)
        {
          assert InFlight(r, p, w) || Completed(trace, p, r.s.cycle, w);
        }
      }
    }
  }

  /** The entry starts in the coming cycle exactly if it then has both sources. */
  lemma FiresAtOnce(trace: seq<Inst>, r: Run, p: Past, x: Run, p': Past, k: nat)
    requires Inv(trace, r, p, 0) && Issues(trace, r, p, x, p', k) && Fits(x.s) && UnitFree(r, trace[r.next].op)
    ensures var z := ClearCompleted(x.s.(cycle := x.s.cycle + 1));
            z.table[k].valid && z.table[k].start == 0 ==>
              (Fires(z.table, k) <==> z.table[k].src1 == NONE && z.table[k].src2 == NONE)
  {
    hide Ids, Tags, Aliases, Timing, Accounted, ClearCompleted;
    var z := ClearCompleted(x.s.(cycle := x.s.cycle + 1));
    ClearedEntry(x.s, k);
    forall j | 0 <= j < k ensures !(Startable(z.table[j]) && z.table[j].op == z.table[k].op) {
      ClearedEntry(x.s, j);
      assert x.s.table[j] == r.s.table[j];
    }
  }

  /** The next instruction of the trace is issued while no other of its type waits to start. */
  predicate IssuesAlone(st: Stations, trace: seq<Inst>, r: Run) {
    && r.next < |trace| && |r.s.table| == Slots(st) && CanIssue(st, r.s, trace[r.next].op)
    && UnitFree(r, trace[r.next].op)
  }

  lemma IssuedAlone(st: Stations, regs: nat, trace: seq<Inst>, m: nat)
    requires Good(st, regs, trace) && IssuesAlone(st, trace, After(st, regs, trace, m))
    ensures var r, p := After(st, regs, trace, m), PastAfter(st, regs, trace, m);
            var p' := PastAfter(st, regs, trace, m + 1);
            && |p'.starts| == |p'.issuedAt| == r.next + 1 && p'.issuedAt[r.next] == r.s.cycle
            && (p'.starts[r.next] == r.s.cycle + 1 <==> Unblocked(trace, r, p, true) && Unblocked(trace, r, p, false))
  {
    hide Inv, Feed, PastFeed, After, PastAfter, ClearCompleted, AliasesExact, OrderInv, Timely, UnitFree,
         Unblocked, Issues;
    AlwaysOrderly(st, regs, trace, m);
    var r, p := After(st, regs, trace, m), PastAfter(st, regs, trace, m);
    var k := FreeSlot(st, r.s, trace[r.next].op);
    FeedIssues(st, regs, trace, r, p, k);
    FeedKeeps(st, regs, trace, r, p);
    var x := Feed(st, regs, trace, r);
    var q := PastFeed(st, regs, trace, r, p);
    SourceAfterClear(trace, r, p, x, q, k, true);
    SourceAfterClear(trace, r, p, x, q, k, false);
    FiresAtOnce(trace, r, p, x, q, k);
    PastNext(st, regs, trace, m);
    var z := ClearCompleted(x.s.(cycle := x.s.cycle + 1));
    FiredStart(trace, r, p, x, q, k, z);
  }

  /** An instruction that is issued while no other of its type waits to start, starts in the
      next cycle if and only if neither source holds it up; an overtaken writer never does. */
  lemma StartsAtOnce(st: Stations, regs: nat, trace: seq<Inst>, m: nat)
    requires Good(st, regs, trace)
    ensures var r, p := After(st, regs, trace, m), PastAfter(st, regs, trace, m);
            var p' := PastAfter(st, regs, trace, m + 1);
            IssuesAlone(st, trace, r) ==>
              && |p'.starts| == |p'.issuedAt| == r.next + 1 && p'.issuedAt[r.next] == r.s.cycle
              && (p'.starts[r.next] == r.s.cycle + 1 <==> Unblocked(trace, r, p, true) && Unblocked(trace, r, p, false))
  {
    hide After, PastAfter, Unblocked, IssuesAlone;
    if IssuesAlone(st, trace, After(st, regs, trace, m)) {
      IssuedAlone(st, regs, trace, m);
    }
  }

  lemma PastNext(st: Stations, regs: nat, trace: seq<Inst>, m: nat)
    requires Good(st, regs, trace)
    ensures PastAfter(st, regs, trace, m + 1)
            == PastAdvance(st, regs, trace, After(st, regs, trace, m), PastAfter(st, regs, trace, m))
  {
  }

  /** The recorded start of the new instruction is the coming cycle if its entry fires. */
  lemma FiredStart(trace: seq<Inst>, r: Run, p: Past, x: Run, q: Past, k: nat, z: Sched)
    requires Inv(trace, r, p, 0) && Issues(trace, r, p, x, q, k) && Inv(trace, x, q, 0) && Fits(x.s)
    requires z == ClearCompleted(x.s.(cycle := x.s.cycle + 1))
    ensures r.next < |q.starts| == r.next + 1 && q.issuedAt[r.next] == r.s.cycle && z.cycle == r.s.cycle + 1
    ensures PastFire(z.table, z.cycle, q).starts[r.next] == r.s.cycle + 1 <==> Fires(z.table, k)
  {
    hide Tags, Aliases, Timing, Accounted, ClearCompleted, Fires;
    ClearedCycle(x.s);
    forall j | 0 <= j < |z.table| && q.ids[j] == r.next && Fires(z.table, j) ensures j == k {
      ClearedEntry(x.s, j);
      FiresValid(z.table, j);
    }
  }

  /** Whether a writer is lost to the new instruction is decided at its issue. */
  lemma LostAtIssue(st: Stations, regs: nat, trace: seq<Inst>, r: Run, p: Past, w: nat)
    requires Sized(st, regs, trace, r) && Recorded(r, p) && Orderly(trace, r, p)
    requires r.next < |trace| && CanIssue(st, r.s, trace[r.next].op) && w < r.next
    ensures var p' := PastAdvance(st, regs, trace, r, p);
            && |p'.starts| == |p'.issuedAt| == r.next + 1
            && Lost(trace, p', r.next, w) == (Overtaken(trace, p, r.s.cycle, w) && !Completed(trace, p, r.s.cycle, w))
  {
    hide Inv, Feed, PastFeed, StartReady, ClearCompleted, PastFire, AliasesExact, OrderInv, Timely;
    var k := FreeSlot(st, r.s, trace[r.next].op);
    FeedIssues(st, regs, trace, r, p, k);
    FeedOrderly(st, regs, trace, r, p);
    var x := Feed(st, regs, trace, r);
    var q := PastFeed(st, regs, trace, r, p);
    TickKeeps(trace, x, q);
    var y := x.(s := x.s.(cycle := x.s.cycle + 1));
    ClearKeeps(trace, y, q);
    StillTimely(x, q);
    FireKeepsLost(trace, y.(s := ClearCompleted(y.s)), q, r.next, w);
    assert Overtaken(trace, q, r.s.cycle, w) == Overtaken(trace, p, r.s.cycle, w);
  }

  lemma FiresValid(table: seq<Entry>, k: nat)
    requires k < |table| && Fires(table, k)
    ensures table[k].valid
  {
  }

  /** In particular a lost writer does not delay the instruction that reads its register: if
      the other source does not hold it up either, it starts in the cycle after its issue. */
  lemma LostStartsAtOnce(st: Stations, regs: nat, trace: seq<Inst>, m: nat, first: bool, x: nat, w: nat)
    requires Good(st, regs, trace)
    ensures var r, p := After(st, regs, trace, m), PastAfter(st, regs, trace, m);
            var p' := PastAfter(st, regs, trace, m + 1);
            IssuesAlone(st, trace, r) && Reads(trace, r.next, first, x, w) && Unblocked(trace, r, p, !first) ==>
              && |p'.starts| == |p'.issuedAt| == r.next + 1
              && (Lost(trace, p', r.next, w) ==> p'.starts[r.next] == p'.issuedAt[r.next] + 1)
  {
    hide After, PastAfter, UnitFree, CanIssue, Lost, Orderly, PastAdvance, Unblocked;
    var r, p := After(st, regs, trace, m), PastAfter(st, regs, trace, m);
    if IssuesAlone(st, trace, r) && Reads(trace, r.next, first, x, w) && Unblocked(trace, r, p, !first) {
      StartsAtOnce(st, regs, trace, m);
      AlwaysOrderly(st, regs, trace, m);
      PastNext(st, regs, trace, m);
      LostAtIssue(st, regs, trace, r, p, w);
      OvertakenUnblocks(trace, r, p, first, x, w);
    }
  }

  lemma OvertakenUnblocks(trace: seq<Inst>, r: Run, p: Past, first: bool, x: nat, w: nat)
    requires Recorded(r, p) && r.next < |trace| && Reads(trace, r.next, first, x, w)
    ensures Overtaken(trace, p, r.s.cycle, w) ==> Unblocked(trace, r, p, first)
  {
  }
}
