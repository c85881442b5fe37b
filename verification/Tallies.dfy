/** The counters over whole runs, from the states between the cycles: every request is counted
    once, a miss is a request its line does not suffice for, and an upgrade is a store that
    finds its line in E. */
module Tallies {
  import opened Messages
  import opened Machine
  import opened Invariant
  import opened Synchronous
  import Liveness
  import Progress

  /** How many of the first k caches are about to miss. */
  function Missing(s: Sys, k: nat): nat {
    if k == 0 then 0 else Missing(s, k - 1) + One(MissesAt(s, k - 1))
  }

  lemma {:induction false} OneGetPerMiss(p: Protocol, s: Sys, k: nat)
    ensures |NewGets(p, s, k)| == Missing(s, k)
  {
    hide MissesAt;
    if k > 0 {
      OneGetPerMiss(p, s, k - 1);
    }
  }

  datatype Tally = Tally(accesses: nat, misses: nat, upgrades: nat)

  /** Counted over the first m cycles of a run. */
  function Counted(cfg: Config, traces: seq<seq<Op>>, m: nat): Tally
    requires |traces| == cfg.nodes
  {
    if m == 0 then Tally(0, 0, 0)
    else
      var t, s := Counted(cfg, traces, m - 1), After(cfg, Initial(traces), m - 1);
      Tally(t.accesses + Requests(s, cfg.nodes), t.misses + Missing(s, cfg.nodes), t.upgrades + Upgrades(s, cfg.nodes))
  }

  lemma {:induction false} CountersExact(cfg: Config, traces: seq<seq<Op>>, m: nat)
    requires cfg.hitTime >= 1 && |traces| == cfg.nodes && !After(cfg, Initial(traces), m).failed
    ensures var st, t := After(cfg, Initial(traces), m).stats, Counted(cfg, traces, m);
            st.accesses == t.accesses && st.misses == t.misses && st.upgrades == t.upgrades
  {
    hide After, NewGets, Missing, Requests, Upgrades, Fatal, FollowNodes;
    if m == 0 {
      NothingCounted(cfg, traces);
    } else {
      EveryRun(cfg, traces, m - 1);
      CountersExact(cfg, traces, m - 1);
      OneGetPerMiss(cfg.protocol, After(cfg, Initial(traces), m - 1), cfg.nodes);
    }
  }

  lemma NothingCounted(cfg: Config, traces: seq<seq<Op>>)
    requires |traces| == cfg.nodes
    ensures After(cfg, Initial(traces), 0).stats == Stats(0, 0, 0, 0, 0)
  {
  }

  // ---------------------------------------------------------------- requests are not lost

  /** The records the first k processors have not yet read. */
  function Unread(s: Sys, k: nat): nat
    requires k <= |s.procs|
  {
    if k == 0 then 0 else Unread(s, k - 1) + |s.procs[k - 1].trace|
  }

  lemma {:induction false} ReadOrWaiting(cfg: Config, s: Sys, x: Sys, k: nat)
    requires Follows(cfg, s, x) && k <= cfg.nodes
    ensures Unread(x, k) + Requests(x, k) == Unread(s, k)
  {
    hide AnswerTo, FollowBus, NextLine;
    if k > 0 {
      ReadOrWaiting(cfg, s, x, k - 1);
      assert x.procs[k - 1] == NextProc(cfg.protocol, s, k - 1);
    }
  }

  /** Every trace record is unread, waits in its cache, or has been counted. */
  lemma {:induction false} RecordsConserved(cfg: Config, traces: seq<seq<Op>>, m: nat)
    requires cfg.hitTime >= 1 && |traces| == cfg.nodes && !After(cfg, Initial(traces), m).failed
    ensures var s := After(cfg, Initial(traces), m);
            |s.procs| == cfg.nodes
            && s.stats.accesses + Requests(s, cfg.nodes) + Unread(s, cfg.nodes) == Progress.Requests(traces, cfg.nodes)
  {
    hide After, Requests, Unread, Fatal, FollowNodes;
    if m == 0 {
      NothingRead(cfg, traces, cfg.nodes);
    } else {
      EveryRun(cfg, traces, m - 1);
      RecordsConserved(cfg, traces, m - 1);
      ReadOrWaiting(cfg, After(cfg, Initial(traces), m - 1), After(cfg, Initial(traces), m), cfg.nodes);
    }
  }

  lemma {:induction false} NothingRead(cfg: Config, traces: seq<seq<Op>>, k: nat)
    requires k <= |traces| == cfg.nodes
    ensures var s := After(cfg, Initial(traces), 0);
            |s.procs| == cfg.nodes && s.stats.accesses == 0 && Requests(s, k) == 0
            && Unread(s, k) == Progress.Requests(traces, k)
  {
    if k > 0 {
      NothingRead(cfg, traces, k - 1);
    }
  }

  lemma {:induction false} EndedHaveRead(cfg: Config, traces: seq<seq<Op>>, m: nat)
    requires cfg.hitTime >= 1 && |traces| == cfg.nodes && !After(cfg, Initial(traces), m).failed
    ensures var s := After(cfg, Initial(traces), m);
            forall i :: 0 <= i < |s.procs| && s.procs[i].ended ==> s.procs[i].trace == [] && !s.procs[i].outstanding
  {
    hide Fatal, FollowBus, NextLine, AnswerTo, Cycle;
    if m > 0 {
      EveryRun(cfg, traces, m - 1);
      EndedHaveRead(cfg, traces, m - 1);
      var s, x := After(cfg, Initial(traces), m - 1), After(cfg, Initial(traces), m);
      assert forall i :: 0 <= i < |x.procs| ==> x.procs[i] == NextProc(cfg.protocol, s, i);
    }
  }

  lemma {:induction false} NothingLeft(cfg: Config, s: Sys, k: nat)
    requires Liveness.EndSteady(cfg, s) && Done(s) && k <= cfg.nodes
    requires forall i :: 0 <= i < |s.procs| && s.procs[i].ended ==> s.procs[i].trace == []
    ensures |s.procs| == cfg.nodes && Requests(s, k) == 0 && Unread(s, k) == 0
  {
    if k > 0 {
      NothingLeft(cfg, s, k - 1);
      assert Liveness.NodeOk(cfg.protocol, s.caches[k - 1], s.procs[k - 1]);
    }
  }

  /** A run whose processors are all done has counted every trace record as an access. */
  lemma AllCounted(cfg: Config, traces: seq<seq<Op>>, m: nat)
    requires cfg.hitTime >= 1 && |traces| == cfg.nodes && !After(cfg, Initial(traces), m).failed
    requires Done(After(cfg, Initial(traces), m))
    ensures After(cfg, Initial(traces), m).stats.accesses == Progress.Requests(traces, cfg.nodes)
  {
    hide After, Liveness.EndSteady, Unread, Requests, Done;
    RecordsConserved(cfg, traces, m);
    EndedHaveRead(cfg, traces, m);
    Progress.RunsStaySteady(cfg, traces, m);
    NothingLeft(cfg, After(cfg, Initial(traces), m), cfg.nodes);
  }

  /** The last answer of processor i has arrived, and its trace is read. */
  predicate Answered(r: Proc) { r.trace == [] && (r.inbound.Some? || !r.outstanding) }

  /** A run is over one cycle after the last answers have arrived, not before and not later. */
  lemma OverExactly(cfg: Config, traces: seq<seq<Op>>, m: nat)
    requires cfg.hitTime >= 1 && |traces| == cfg.nodes && !After(cfg, Initial(traces), m + 1).failed
    ensures Done(After(cfg, Initial(traces), m + 1))
            <==> forall i :: 0 <= i < cfg.nodes ==> Answered(After(cfg, Initial(traces), m).procs[i])
  {
    hide Fatal, FollowBus, NextLine, AnswerTo, After;
    EveryRun(cfg, traces, m);
    EndedHaveRead(cfg, traces, m);
    var s, x := After(cfg, Initial(traces), m), After(cfg, Initial(traces), m + 1);
    forall i | 0 <= i < cfg.nodes
      ensures (x.procs[i].ended && !x.procs[i].outstanding) == Answered(s.procs[i])
    {
      assert x.procs[i] == NextProc(cfg.protocol, s, i);
    }
  }
}
