/** What the cycles add up to over a run: how long operations take, how often issue stalls, and
    that the reported maxima are reached. */
module SchedulerTimes {
  import opened Scheduler
  import opened SchedulerInv
  import opened SchedulerCycle
  import SchedulerLost
  import SchedulerOrder

  // ---------------------------------------------------------------- operations take their time

  lemma {:induction false} ClockIs(st: Stations, regs: nat, trace: seq<Inst>, m: nat)
    requires Good(st, regs, trace)
    ensures After(st, regs, trace, m).s.cycle == m + 1
  {
    hide Advance;
    if m > 0 {
      ClockIs(st, regs, trace, m - 1);
      EveryCycle(st, regs, trace, After(st, regs, trace, m - 1));
    }
  }

  /** Once recorded a start stays. */
  lemma StartStays(st: Stations, regs: nat, trace: seq<Inst>, m: nat, i: nat)
    requires Good(st, regs, trace) && i < |PastAfter(st, regs, trace, m).starts|
    requires PastAfter(st, regs, trace, m).starts[i] != 0
    ensures i < |PastAfter(st, regs, trace, m + 1).starts|
    ensures PastAfter(st, regs, trace, m + 1).starts[i] == PastAfter(st, regs, trace, m).starts[i]
  {
    hide Inv, Feed, PastFeed, ClearCompleted, PastFire, After, PastAfter;
    var r, p := After(st, regs, trace, m), PastAfter(st, regs, trace, m);
    AlwaysInv(st, regs, trace, m);
    SchedulerLost.PastNext(st, regs, trace, m);
    FeedKeeps(st, regs, trace, r, p);
    FeedKeepsStarts(st, regs, trace, r, p, i);
    var x, q := Feed(st, regs, trace, r), PastFeed(st, regs, trace, r, p);
    TickKeeps(trace, x, q);
    var y := x.(s := x.s.(cycle := x.s.cycle + 1));
    ClearKeeps(trace, y, q);
    var z := y.(s := ClearCompleted(y.s));
    StillRecorded(trace, z, q);
    SchedulerOrder.FireStarts(trace, z, q, i);
  }

  lemma FeedKeepsStarts(st: Stations, regs: nat, trace: seq<Inst>, r: Run, p: Past, i: nat)
    requires Sized(st, regs, trace, r) && Recorded(r, p) && i < |p.starts|
    ensures var q := PastFeed(st, regs, trace, r, p); i < |q.starts| && q.starts[i] == p.starts[i]
    ensures Fits(Feed(st, regs, trace, r).s)
  {
  }

  lemma StillRecorded(trace: seq<Inst>, z: Run, q: Past)
    requires Inv(trace, z, q, 0)
    ensures Recorded(z, q)
  {
  }

  lemma InvMeansTimed(trace: seq<Inst>, r: Run, p: Past, i: nat)
    requires Inv(trace, r, p, 0) && i < r.next && p.starts[i] != 0
    ensures InFlight(r, p, i) <==> r.s.cycle < p.starts[i] + Takes(trace[i].op)
  {
    hide Tags, Aliases;
    TakesLatency(trace[i].op);
    if InFlight(r, p, i) {
      var k :| 0 <= k < |r.s.table| && r.s.table[k].valid && p.ids[k] == i;
    }
  }

  /** An instruction that starts in cycle c is in flight at the end of the cycles c, ..., c+d-1
      and gone at the end of c+d, where d is 2 for ADD, 15 for DIV and 20 for MEM. After(t) is
      the end of cycle t + 1. */
  lemma {:induction false} RunsFor(st: Stations, regs: nat, trace: seq<Inst>, m: nat, t: nat, i: nat)
    requires Good(st, regs, trace) && m <= t && i < |PastAfter(st, regs, trace, m).starts|
    requires PastAfter(st, regs, trace, m).starts[i] != 0
    ensures var c, r, p := PastAfter(st, regs, trace, m).starts[i], After(st, regs, trace, t),
            PastAfter(st, regs, trace, t);
            && i < |p.starts| <= |trace| && p.starts[i] == c && r.s.cycle == t + 1
            && (InFlight(r, p, i) <==> t + 1 < c + match trace[i].op case Add => 2 case Div => 15 case Mem => 20)
  {
    hide Inv, After, PastAfter, InFlight;
    AlwaysInv(st, regs, trace, t);
    SizesOf(trace, After(st, regs, trace, t), PastAfter(st, regs, trace, t));
    ClockIs(st, regs, trace, t);
    if m < t {
      RunsFor(st, regs, trace, m, t - 1, i);
      StartStays(st, regs, trace, t - 1, i);
    }
    InvMeansTimed(trace, After(st, regs, trace, t), PastAfter(st, regs, trace, t), i);
  }

  lemma SizesOf(trace: seq<Inst>, r: Run, p: Past)
    requires Inv(trace, r, p, 0)
    ensures |p.starts| == r.next <= |trace|
  {
  }

  // ---------------------------------------------------------------- stalls

  /** While the trace lasts every cycle issues an instruction or counts a stall. */
  lemma {:induction false} IssueOrStall(st: Stations, regs: nat, trace: seq<Inst>, m: nat)
    requires Good(st, regs, trace)
    requires forall j :: 0 <= j < m ==> After(st, regs, trace, j).next < |trace|
    ensures var r := After(st, regs, trace, m);
            r.s.stats.insts == r.next && r.next + r.s.stats.stalls == m
  {
    hide Advance, Stalls, Remaining, StartsAt, Freed, Enters, Started, Ended, Executing;
    if m > 0 {
      IssueOrStall(st, regs, trace, m - 1);
      EveryCycle(st, regs, trace, After(st, regs, trace, m - 1));
    }
  }

  // ---------------------------------------------------------------- maxima

  datatype Peak = Fired | Ending | Adds | Divs | Mems

  function Reported(stats: Stats, which: Peak): nat {
    match which
    case Fired => stats.maxFired
    case Ending => stats.maxCompleted
    case Adds => stats.maxAdd
    case Divs => stats.maxDiv
    case Mems => stats.maxMem
  }

  /** What cycle m + 1 of the run contributes; the first cycle is the one after the issue of the
      first instruction. */
  function Measured(st: Stations, regs: nat, trace: seq<Inst>, m: nat, which: Peak): nat
    requires Good(st, regs, trace)
  {
    if m == 0 then 0
    else
      var r, x := After(st, regs, trace, m - 1), After(st, regs, trace, m);
      match which
      case Fired => Started(st, trace, r, |r.s.table|)
      case Ending => Ended(r, |r.s.table|)
      case Adds => Executing(x.s.table, Add, |x.s.table|)
      case Divs => Executing(x.s.table, Div, |x.s.table|)
      case Mems => Executing(x.s.table, Mem, |x.s.table|)
  }

  /** Each reported maximum bounds all cycles so far, and one of them reaches it. */
  lemma {:induction false} MaximaReached(st: Stations, regs: nat, trace: seq<Inst>, m: nat, which: Peak)
    requires Good(st, regs, trace)
    ensures forall j :: 0 <= j <= m ==>
              Measured(st, regs, trace, j, which) <= Reported(After(st, regs, trace, m).s.stats, which)
    ensures exists j :: 0 <= j <= m
                        && Measured(st, regs, trace, j, which) == Reported(After(st, regs, trace, m).s.stats, which)
  {
    hide Advance, After, Stalls, Remaining, StartsAt, Freed, Enters, Started, Ended, Executing, Measured;
    MeasuredIs(st, regs, trace, m, which);
    if m > 0 {
      MaximaReached(st, regs, trace, m - 1, which);
      var j :| 0 <= j <= m - 1
               && Measured(st, regs, trace, j, which) == Reported(After(st, regs, trace, m - 1).s.stats, which);
      var best := if Measured(st, regs, trace, m, which) > Measured(st, regs, trace, j, which) then m else j;
      assert Measured(st, regs, trace, best, which) == Reported(After(st, regs, trace, m).s.stats, which);
    }
  }

  lemma MeasuredIs(st: Stations, regs: nat, trace: seq<Inst>, m: nat, which: Peak)
    requires Good(st, regs, trace)
    ensures Reported(After(st, regs, trace, m).s.stats, which)
            == if m == 0 then Measured(st, regs, trace, 0, which)
               else Larger(Reported(After(st, regs, trace, m - 1).s.stats, which), Measured(st, regs, trace, m, which))
  {
    hide Advance, Stalls, Remaining, StartsAt, Freed, Enters, Started, Ended, Executing;
    if m > 0 {
      EveryCycle(st, regs, trace, After(st, regs, trace, m - 1));
    }
  }

  // ---------------------------------------------------------------- the end of a run

  /** A run is over at the end of the cycle in which the last operation has run for its time. */
  lemma OverExactly(st: Stations, regs: nat, trace: seq<Inst>, m: nat)
    requires Good(st, regs, trace)
    ensures var r, p := After(st, regs, trace, m), PastAfter(st, regs, trace, m);
            Finished(trace, r) <==>
              && |p.starts| == |trace|
              && forall i :: 0 <= i < |trace| ==> p.starts[i] != 0 && p.starts[i] + Takes(trace[i].op) <= m + 1
  {
    hide Tags, Aliases, Timing, After, PastAfter;
    var r, p := After(st, regs, trace, m), PastAfter(st, regs, trace, m);
    AlwaysInv(st, regs, trace, m);
    ClockIs(st, regs, trace, m);
    forall i | 0 <= i < r.next
      ensures p.starts[i] != 0 ==> (InFlight(r, p, i) <==> m + 1 < p.starts[i] + Takes(trace[i].op))
      ensures InFlight(r, p, i) || p.starts[i] != 0
    {
      assert InFlight(r, p, i) || Completed(trace, p, r.s.cycle, i);
      if p.starts[i] != 0 {
        InvMeansTimed(trace, r, p, i);
      }
    }
    if Finished(trace, r) {
      assert forall i :: 0 <= i < r.next ==> !InFlight(r, p, i);
    } else if k :| 0 <= k < |r.s.table| && r.s.table[k].valid {
      assert InFlight(r, p, p.ids[k]);
    }
  }
}
