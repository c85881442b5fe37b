/** A trace on which an instruction starts before the last writer of its source has ended:
    instruction 0 completes after instruction 1, which writes the same register, was issued,
    and takes its alias away before instruction 3 reads it. */
module SchedulerExample {
  import opened Scheduler
  import opened SchedulerInv
  import SchedulerOrder

  function Four(): Stations { Unified(4) }

  function Trace(): seq<Inst> {
    [Inst(Add, 1, NONE, NONE), Inst(Mem, 1, NONE, NONE), Inst(Add, 2, NONE, NONE), Inst(Add, 3, 1, NONE)]
  }

  function Free(): Entry { Entry(false, Add, 0, 0, 0, 0) }

  function Starts(op: OpType, dest: nat, start: nat): Entry { Entry(true, op, dest, NONE, NONE, start) }

  // What the table, the aliases and the history are after each of the four cycles.

  predicate First(r: Run, p: Past) {
    && r.next == 1 && r.s.cycle == 2 && r.s.table == [Starts(Add, 1, 2), Free(), Free(), Free()]
    && r.s.rat == [1, NONE, NONE] && p == Past([0, 0, 0, 0], [1], [2])
  }

  predicate Second(r: Run, p: Past) {
    && r.next == 2 && r.s.cycle == 3 && r.s.table == [Starts(Add, 1, 2), Starts(Mem, 1, 3), Free(), Free()]
    && r.s.rat == [2, NONE, NONE] && p == Past([0, 1, 0, 0], [1, 2], [2, 3])
  }

  predicate Third(r: Run, p: Past) {
    && r.next == 3 && r.s.cycle == 4
    && r.s.table == [Starts(Add, 1, 2).(valid := false), Starts(Mem, 1, 3), Starts(Add, 2, 4), Free()]
    && r.s.rat == [NONE, 3, NONE] && p == Past([0, 1, 2, 0], [1, 2, 3], [2, 3, 4])
  }

  predicate Fourth(r: Run, p: Past) {
    r.next == 4 && r.s.cycle == 5 && p.issuedAt == [1, 2, 3, 4] && p.starts == [2, 3, 4, 5]
  }

  /** A cycle of a table of four entries, spelled out. */
  lemma FourSlots(r: Run, p: Past) returns (x: Run, q: Past, t: seq<Entry>)
    requires Sized(Four(), 3, Trace(), r) && Recorded(r, p)
    ensures x == Feed(Four(), 3, Trace(), r) && q == PastFeed(Four(), 3, Trace(), r, p)
    ensures var y := x.s.(cycle := x.s.cycle + 1);
            var z := CompleteSlot(CompleteSlot(CompleteSlot(CompleteSlot(y, 0), 1), 2), 3);
            var x' := Advance(Four(), 3, Trace(), r);
            && t == z.table && |t| == 4
            && x'.next == x.next && x'.s.cycle == x.s.cycle + 1 && x'.s.rat == z.rat
            && x'.s.table == FireTable(t, x'.s.cycle)
            && PastAdvance(Four(), 3, Trace(), r, p) == PastFire(t, x'.s.cycle, q)
  {
    hide CompleteSlot, FireTable, PastFire, Feed, PastFeed;
    x := Feed(Four(), 3, Trace(), r);
    q := PastFeed(Four(), 3, Trace(), r, p);
    var y := x.s.(cycle := x.s.cycle + 1);
    assert Complete(y, 1) == CompleteSlot(Complete(y, 0), 0);
    assert Complete(y, 2) == CompleteSlot(Complete(y, 1), 1);
    assert Complete(y, 3) == CompleteSlot(Complete(y, 2), 2);
    assert Complete(y, 4) == CompleteSlot(Complete(y, 3), 3);
    t := Complete(y, 4).table;
  }

  lemma StepOne(r: Run, p: Past)
    requires Sized(Four(), 3, Trace(), r) && Recorded(r, p)
    requires r == Run(Initial(Four(), 3), 0) && p == Past([0, 0, 0, 0], [], [])
    ensures First(Advance(Four(), 3, Trace(), r), PastAdvance(Four(), 3, Trace(), r, p))
  {
    hide Advance, PastAdvance;
    var x, q, t := FourSlots(r, p);
    assert FirstFree(r.s.table, 0, 4) == 0;
    assert t == [Starts(Add, 1, 0), Free(), Free(), Free()];
    assert Fires(t, 0);
  }

  lemma StepTwo(r: Run, p: Past)
    requires Sized(Four(), 3, Trace(), r) && Recorded(r, p) && First(r, p)
    ensures Second(Advance(Four(), 3, Trace(), r), PastAdvance(Four(), 3, Trace(), r, p))
  {
    hide Advance, PastAdvance;
    var x, q, t := FourSlots(r, p);
    assert FirstFree(r.s.table, 0, 4) == FirstFree(r.s.table, 1, 4) == 1;
    assert t == [Starts(Add, 1, 2), Starts(Mem, 1, 0), Free(), Free()];
    assert Fires(t, 1) && !Fires(t, 0);
  }

  lemma StepThree(r: Run, p: Past)
    requires Sized(Four(), 3, Trace(), r) && Recorded(r, p) && Second(r, p)
    ensures Third(Advance(Four(), 3, Trace(), r), PastAdvance(Four(), 3, Trace(), r, p))
  {
    hide Advance, PastAdvance;
    var x, q, t := FourSlots(r, p);
    assert FirstFree(r.s.table, 0, 4) == FirstFree(r.s.table, 1, 4) == FirstFree(r.s.table, 2, 4) == 2;
    assert t == [Starts(Add, 1, 2).(valid := false), Starts(Mem, 1, 3), Starts(Add, 2, 0), Free()];
    assert Fires(t, 2) && !Fires(t, 0) && !Fires(t, 1);
  }

  lemma StepFour(r: Run, p: Past)
    requires Sized(Four(), 3, Trace(), r) && Recorded(r, p) && Third(r, p)
    ensures Fourth(Advance(Four(), 3, Trace(), r), PastAdvance(Four(), 3, Trace(), r, p))
  {
    hide Advance, PastAdvance;
    var x, q, t := FourSlots(r, p);
    assert FirstFree(r.s.table, 0, 4) == 0;
    assert t == [Starts(Add, 3, 0), Starts(Mem, 1, 3), Starts(Add, 2, 4), Free()];
    assert Fires(t, 0) && !Fires(t, 1) && !Fires(t, 2);
  }

  /** Dependences do not hold on all traces: instruction 3 reads register 1, whose last writer,
      instruction 1, is lost to it, and starts before that writer has ended. */
  lemma DependenceBroken()
    ensures Good(Four(), 3, Trace()) && SchedulerOrder.Reads(Trace(), 3, true, 1, 1)
    ensures var p := PastAfter(Four(), 3, Trace(), 4);
            && |p.starts| == |p.issuedAt| == 4 && SchedulerOrder.Lost(Trace(), p, 3, 1)
            && 0 != p.starts[3] < p.starts[1] + Latency(Trace()[1].op)
  {
    hide Advance, PastAdvance, First, Second, Third;
    assert Good(Four(), 3, Trace());
    var st, tr := Four(), Trace();
    assert PastAfter(st, 3, tr, 0).ids == [0, 0, 0, 0];
    StepOne(After(st, 3, tr, 0), PastAfter(st, 3, tr, 0));
    assert After(st, 3, tr, 1) == Advance(st, 3, tr, After(st, 3, tr, 0));
    StepTwo(After(st, 3, tr, 1), PastAfter(st, 3, tr, 1));
    assert After(st, 3, tr, 2) == Advance(st, 3, tr, After(st, 3, tr, 1));
    StepThree(After(st, 3, tr, 2), PastAfter(st, 3, tr, 2));
    assert After(st, 3, tr, 3) == Advance(st, 3, tr, After(st, 3, tr, 2));
    StepFour(After(st, 3, tr, 3), PastAfter(st, 3, tr, 3));
    assert After(st, 3, tr, 4) == Advance(st, 3, tr, After(st, 3, tr, 3));
    OvertakenByFirst(PastAfter(st, 3, tr, 4));
  }

  lemma OvertakenByFirst(p: Past)
    requires p.issuedAt == [1, 2, 3, 4] && p.starts == [2, 3, 4, 5]
    ensures SchedulerOrder.Lost(Trace(), p, 3, 1)
  {
    assert Trace()[0].dest == Trace()[1].dest && p.starts[0] != 0;
  }
}
