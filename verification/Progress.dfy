/** Every cycle of an unfinished run that does not fail does some work, so every run ends,
    and within a number of cycles that is linear in the length of the traces. */
module Progress {
  import opened Messages
  import opened Protocols
  import opened Machine
  import opened Invariant
  import opened Liveness
  import Steps
  import Cycles

  // ---------------------------------------------------------------- the measure

  /** w * n, kept linear for the solver. */
  function Times(w: nat, n: nat): nat {
    if n == 0 then 0 else Times(w, n - 1) + w
  }

  lemma {:induction false} TimesIsProduct(w: nat, n: nat)
    ensures Times(w, n) == w * n
  {
    if n > 0 {
      TimesIsProduct(w, n - 1);
    }
  }

  lemma {:induction false} TimesOfSum(w: nat, a: nat, b: nat)
    ensures Times(w, a + b) == Times(w, a) + Times(w, b)
  {
    if b > 0 {
      TimesOfSum(w, a, b - 1);
    }
  }

  /** The work a processor and its cache still have before them, bus apart. An answer that no
      DATA pays for, the one MOESI's hazard gives, costs x in advance. */
  function NodeWork(h: nat, x: nat, c: Cache, r: Proc): nat {
    Times(h + 9 + x, |r.trace|) + One(!r.ended) + (if c.request.Some? then h + 8 else 0) + One(r.inbound.Some?)
    + (if r.buffer.Some? then 2 else 0) + (if Unanswered(r) then x else 0)
  }

  function NodesWork(h: nat, x: nat, s: Sys, k: nat): nat
    requires k <= |s.caches| == |s.procs|
  {
    if k == 0 then 0 else NodesWork(h, x, s, k - 1) + NodeWork(h, x, s.caches[k - 1], s.procs[k - 1])
  }

  /** The work left in the transaction on the bus. */
  function BusWork(h: nat, s: Sys, k: nat): nat {
    if s.bus.current.Some? && s.bus.current.value.msg == DATA then
      if s.bus.current.value.dest.Some? && k <= s.bus.current.value.dest.value then 3 else 0
    else if !s.bus.inProgress then 0
    else if s.bus.reply.Some? then 4
    else if !s.mem.busy then h + 6
    else if s.clock <= s.mem.time then s.mem.time - s.clock + 5
    else 5
  }

  function Work(h: nat, x: nat, s: Sys, k: nat): nat
    requires |s.caches| == |s.procs|
  {
    NodesWork(h, x, s, |s.procs|) + Times(h + 7, |s.bus.pending|) + BusWork(h, s, k)
  }

  /** The hazard does not happen or has been paid for. */
  ghost predicate Covered(x: nat, p: Protocol, s: Sys, k: nat) {
    x >= 2 || !OmDanger(p, s, k)
  }

  // ---------------------------------------------------------------- sums

  lemma {:induction false} SumChangesAt(h: nat, x: nat, s: Sys, s': Sys, i: nat, k: nat)
    requires |s.caches| == |s.procs| == |s'.caches| == |s'.procs| && i < |s.caches| && k <= |s.caches|
    requires forall j :: 0 <= j < |s.caches| && j != i ==> s'.caches[j] == s.caches[j] && s'.procs[j] == s.procs[j]
    ensures NodesWork(h, x, s', k) - (if i < k then NodeWork(h, x, s'.caches[i], s'.procs[i]) else 0)
         == NodesWork(h, x, s, k) - (if i < k then NodeWork(h, x, s.caches[i], s.procs[i]) else 0)
  {
    hide NodeWork;
    if k > 0 {
      SumChangesAt(h, x, s, s', i, k - 1);
    }
  }

  /** If no node's work grows the sum does not grow, and it shrinks when some node's work does. */
  lemma {:induction false} SumShrinks(h: nat, x: nat, s: Sys, s': Sys, k: nat)
    requires |s.caches| == |s.procs| == |s'.caches| == |s'.procs| && k <= |s.caches|
    requires forall j :: 0 <= j < k ==>
               NodeWork(h, x, s'.caches[j], s'.procs[j]) <= NodeWork(h, x, s.caches[j], s.procs[j])
    ensures NodesWork(h, x, s', k) <= NodesWork(h, x, s, k)
    ensures (exists j ::
               0 <= j < k && NodeWork(h, x, s'.caches[j], s'.procs[j]) < NodeWork(h, x, s.caches[j], s.procs[j]))
            ==> NodesWork(h, x, s', k) < NodesWork(h, x, s, k)
  {
    hide NodeWork;
    if k > 0 {
      SumShrinks(h, x, s, s', k - 1);
    }
  }

  // ---------------------------------------------------------------- the bus's tick

  lemma GrantWork(cfg: Config, x: nat, s: Sys)
    requires EndSteady(cfg, s)
    ensures Work(cfg.hitTime, x, Grant(s), 0) <= Work(cfg.hitTime, x, s, cfg.nodes)
    ensures (if s.bus.inProgress then s.bus.reply.Some? else s.bus.pending != []) ==>
              Work(cfg.hitTime, x, Grant(s), 0) < Work(cfg.hitTime, x, s, cfg.nodes)
  {
    hide NodesOk, GetsQueued, TransientOk, NodeWork;
    var s' := Grant(s);
    SumShrinks(cfg.hitTime, x, s, s', |s.procs|);
  }

  // ---------------------------------------------------------------- the caches

  /** What a cache's tick leaves alone. */
  ghost predicate TouchesLittle(s: Sys, x: Sys, k: nat)
    requires |s.caches| == |s.procs|
  {
    && |x.caches| == |x.procs| == |s.procs|
    && (forall i :: k <= i < |s.caches| ==> x.caches[i] == s.caches[i])
    && (forall i :: 0 <= i < |s.procs| ==> x.procs[i] == s.procs[i].(buffer := x.procs[i].buffer))
    && x.mem == s.mem && x.clock == s.clock && x.bus.current == s.bus.current && x.bus.inProgress == s.bus.inProgress
    && (s.bus.current.None? ==> x.bus.reply == s.bus.reply)
  }

  lemma ServeTouchesLittle(p: Protocol, s: Sys, k: nat)
    requires k < |s.caches| == |s.procs|
    ensures TouchesLittle(s, ServeCache(p, s, k), k + 1)
  {
    hide OnProcessor;
  }

  lemma ReactTouchesLittle(p: Protocol, s: Sys, k: nat)
    requires k < |s.caches| == |s.procs|
    ensures TouchesLittle(s, ReactCache(p, s, k), k + 1)
  {
    hide OnSnoop;
  }

  /** The ticks of the first k caches leave the later caches alone, and of a processor they
      touch only the answer buffer. */
  lemma {:induction false} CachesTouchLittle(p: Protocol, s: Sys, k: nat)
    requires k <= |s.caches| == |s.procs|
    ensures TouchesLittle(s, TickCaches(p, s, k), k)
  {
    hide ServeCache, ReactCache;
    if k > 0 {
      CachesTouchLittle(p, s, k - 1);
      var x := TickCaches(p, s, k - 1);
      ServeTouchesLittle(p, x, k - 1);
      ReactTouchesLittle(p, ServeCache(p, x, k - 1), k - 1);
    }
  }

  lemma ServeWork(cfg: Config, x: nat, s: Sys, k: nat)
    requires MidSteady(cfg, s, k) && k < cfg.nodes
    ensures WellSized(cfg, ServeCache(cfg.protocol, s, k))
    ensures Work(cfg.hitTime, x, ServeCache(cfg.protocol, s, k), k) + One(s.caches[k].request.Some?)
            <= Work(cfg.hitTime, x, s, k)
  {
    hide GetsQueued, TransientOk, BusShape, ServeCache, OnProcessor, Legal, Transient, Asking, NodesWork;
    if s.caches[k].request.Some? {
      assert NodeOk(cfg.protocol, s.caches[k], s.procs[k]);
      ServeShape(cfg.protocol, s, k);
      SumChangesAt(cfg.hitTime, x, s, ServeCache(cfg.protocol, s, k), k, |s.procs|);
    } else {
      Steps.IdleServe(cfg.protocol, s, k);
    }
  }

  lemma ServeCovered(cfg: Config, x: nat, s: Sys, k: nat)
    requires MidSteady(cfg, s, k) && k < cfg.nodes && Covered(x, cfg.protocol, s, k)
    ensures Covered(x, cfg.protocol, ServeCache(cfg.protocol, s, k), k)
  {
    hide GetsQueued, TransientOk, BusShape, ServeCache, OnProcessor;
    if s.caches[k].request.Some? {
      var op := s.caches[k].request.value;
      assert NodeOk(cfg.protocol, s.caches[k], s.procs[k]);
      ServeShape(cfg.protocol, s, k);
      LegalServed(cfg.protocol, StateOf(s.caches[k], op.addr), op.Store?);
      var y := ServeCache(cfg.protocol, s, k);
      assert forall b :: b != op.addr ==> StateOf(y.caches[k], b) == StateOf(s.caches[k], b);
      assert forall i :: k < i < |s.caches| ==> y.caches[i] == s.caches[i];
    } else {
      Steps.IdleServe(cfg.protocol, s, k);
    }
  }

  lemma GetWork(cfg: Config, x: nat, s: Sys, k: nat)
    requires MidSteady(cfg, s, k) && k < cfg.nodes && Covered(x, cfg.protocol, s, k)
    requires Steps.SnoopsGet(s) && !ReactCache(cfg.protocol, s, k).failed
    ensures WellSized(cfg, ReactCache(cfg.protocol, s, k))
    ensures Work(cfg.hitTime, x, ReactCache(cfg.protocol, s, k), k + 1) <= Work(cfg.hitTime, x, s, k)
  {
    hide GetsQueued, TransientOk, OnSnoop, Legal;
    var y, q := ReactCache(cfg.protocol, s, k), s.bus.current.value;
    var st := StateOf(s.caches[k], q.addr);
    assert NodeOk(cfg.protocol, s.caches[k], s.procs[k]);
    GetTable(cfg.protocol, st, q.msg, q.src == k, s.bus.shared);
    if OnSnoop(cfg.protocol, st, q.msg, q.src == k, s.bus.shared).fill {
      assert WillBeOm(s.caches[k], q.addr);
    }
    SumChangesAt(cfg.hitTime, x, s, y, k, |s.procs|);
  }

  lemma DataWork(cfg: Config, x: nat, s: Sys, k: nat)
    requires MidSteady(cfg, s, k) && k < cfg.nodes
    requires Steps.SnoopsOwnData(s, k) && !ReactCache(cfg.protocol, s, k).failed
    ensures WellSized(cfg, ReactCache(cfg.protocol, s, k))
    ensures Work(cfg.hitTime, x, ReactCache(cfg.protocol, s, k), k + 1) <= Work(cfg.hitTime, x, s, k)
  {
    hide GetsQueued, TransientOk, OnSnoop, Legal;
    var y, q := ReactCache(cfg.protocol, s, k), s.bus.current.value;
    assert NodeOk(cfg.protocol, s.caches[k], s.procs[k]);
    DataTable(cfg.protocol, StateOf(s.caches[k], q.addr), q.src == k, s.bus.shared);
    SumChangesAt(cfg.hitTime, x, s, y, k, |s.procs|);
  }

  lemma ReactWork(cfg: Config, x: nat, s: Sys, k: nat)
    requires MidSteady(cfg, s, k) && k < cfg.nodes && Covered(x, cfg.protocol, s, k)
    requires !ReactCache(cfg.protocol, s, k).failed
    ensures WellSized(cfg, ReactCache(cfg.protocol, s, k))
    ensures Work(cfg.hitTime, x, ReactCache(cfg.protocol, s, k), k + 1) <= Work(cfg.hitTime, x, s, k)
    ensures Covered(x, cfg.protocol, ReactCache(cfg.protocol, s, k), k + 1)
  {
    hide NodesOk, GetsQueued, TransientOk, OnSnoop, NodesWork, ReactCache;
    ReactTouchesLittle(cfg.protocol, s, k);
    if Steps.SnoopsGet(s) {
      GetWork(cfg, x, s, k);
    } else if Steps.SnoopsOwnData(s, k) {
      DataWork(cfg, x, s, k);
    } else {
      IdleSteady(cfg, s, k);
    }
  }

  lemma CacheWork(cfg: Config, x: nat, s: Sys, k: nat)
    requires MidSteady(cfg, s, k) && k < cfg.nodes && Covered(x, cfg.protocol, s, k)
    ensures WellSized(cfg, s)
    ensures var y := TickCache(cfg.protocol, s, k);
            y.failed
            || (&& MidSteady(cfg, y, k + 1) && Covered(x, cfg.protocol, y, k + 1)
                && Work(cfg.hitTime, x, y, k + 1) + One(s.caches[k].request.Some?) <= Work(cfg.hitTime, x, s, k))
  {
    hide MidSteady, Covered, Work, ServeCache, ReactCache;
    SteadyFacts(cfg, s, k);
    ServeSteady(cfg, s, k);
    ServeWork(cfg, x, s, k);
    ServeCovered(cfg, x, s, k);
    var y := ServeCache(cfg.protocol, s, k);
    ReactSteady(cfg, y, k);
    if !ReactCache(cfg.protocol, y, k).failed {
      ReactWork(cfg, x, y, k);
    }
  }

  lemma {:induction false} CachesWork(cfg: Config, x: nat, s: Sys, k: nat)
    requires MidSteady(cfg, s, 0) && k <= cfg.nodes && Covered(x, cfg.protocol, s, 0)
    ensures WellSized(cfg, s)
    ensures var y := TickCaches(cfg.protocol, s, k);
            y.failed
            || (&& MidSteady(cfg, y, k) && Covered(x, cfg.protocol, y, k)
                && Work(cfg.hitTime, x, y, k) <= Work(cfg.hitTime, x, s, 0)
                && ((exists i :: 0 <= i < k && s.caches[i].request.Some?) ==>
                      Work(cfg.hitTime, x, y, k) < Work(cfg.hitTime, x, s, 0)))
  {
    hide MidSteady, Covered, Work, TickCache;
    SteadyFacts(cfg, s, 0);
    if k > 0 {
      CachesWork(cfg, x, s, k - 1);
      CachesTouchLittle(cfg.protocol, s, k - 1);
      var y := TickCaches(cfg.protocol, s, k - 1);
      if y.failed {
        FailedCache(cfg.protocol, y, k - 1);
      } else {
        CacheWork(cfg, x, y, k - 1);
      }
    }
  }

  lemma FailedCache(p: Protocol, s: Sys, k: nat)
    requires s.failed && k < |s.caches| == |s.procs|
    ensures TickCache(p, s, k) == s
  {
  }

  // ---------------------------------------------------------------- processors, memory, clock

  lemma ProcsWork(cfg: Config, x: nat, s: Sys)
    requires MidSteady(cfg, s, cfg.nodes)
    ensures Work(cfg.hitTime, x, TickProcs(s), cfg.nodes) <= Work(cfg.hitTime, x, s, cfg.nodes)
    ensures (exists i :: 0 <= i < cfg.nodes && (s.procs[i].inbound.Some? || Ready(s.procs[i]))) ==>
              Work(cfg.hitTime, x, TickProcs(s), cfg.nodes) < Work(cfg.hitTime, x, s, cfg.nodes)
  {
    hide GetsQueued, TransientOk, Legal, Transient;
    var s' := TickProcs(s);
    forall j | 0 <= j < |s.procs|
      ensures NodeWork(cfg.hitTime, x, s'.caches[j], s'.procs[j])
              + One(s.procs[j].inbound.Some? || Ready(s.procs[j])) <= NodeWork(cfg.hitTime, x, s.caches[j], s.procs[j])
    {
      assert NodeOk(cfg.protocol, s.caches[j], s.procs[j]);
    }
    SumShrinks(cfg.hitTime, x, s, s', |s.procs|);
  }

  lemma LateBusWork(cfg: Config, s: Sys)
    requires MidSteady(cfg, s, cfg.nodes) && cfg.hitTime >= 1
    ensures var s' := TockProcs(TickMem(cfg, s)).(clock := s.clock + 1);
            && s'.bus.pending == s.bus.pending
            && BusWork(cfg.hitTime, s', cfg.nodes) + One(s.bus.inProgress && s.bus.reply.None?)
               <= BusWork(cfg.hitTime, s, cfg.nodes)
  {
    hide NodesOk, GetsQueued, TransientOk;
    Cycles.MemBus(cfg, s);
  }

  lemma LateWork(cfg: Config, x: nat, s: Sys)
    requires MidSteady(cfg, s, cfg.nodes) && cfg.hitTime >= 1
    ensures var s' := TockProcs(TickMem(cfg, s)).(clock := s.clock + 1);
            && WellSized(cfg, s') && Work(cfg.hitTime, x, s', cfg.nodes) <= Work(cfg.hitTime, x, s, cfg.nodes)
            && (s.bus.inProgress && s.bus.reply.None? ==>
                  Work(cfg.hitTime, x, s', cfg.nodes) < Work(cfg.hitTime, x, s, cfg.nodes))
  {
    hide GetsQueued, TransientOk, Legal, Transient, BusWork;
    LateBusWork(cfg, s);
    Cycles.MemBus(cfg, s);
    var s' := TockProcs(TickMem(cfg, s)).(clock := s.clock + 1);
    forall j | 0 <= j < |s.procs|
      ensures NodeWork(cfg.hitTime, x, s'.caches[j], s'.procs[j]) <= NodeWork(cfg.hitTime, x, s.caches[j], s.procs[j])
    {
      assert NodeOk(cfg.protocol, s.caches[j], s.procs[j]);
    }
    SumShrinks(cfg.hitTime, x, s, s', |s.procs|);
  }

  // ---------------------------------------------------------------- cycles and runs

  /** A processor that is not done is about to move, or its GET is with the bus. */
  lemma NotDone(cfg: Config, s: Sys) returns (i: nat)
    requires EndSteady(cfg, s) && !Done(s)
    ensures WellSized(cfg, s) && i < cfg.nodes
    ensures s.caches[i].request.Some? || s.procs[i].inbound.Some? || Ready(s.procs[i])
            || s.bus.inProgress || s.bus.pending != []
  {
    i :| 0 <= i < |s.procs| && !(s.procs[i].ended && !s.procs[i].outstanding);
    assert NodeOk(cfg.protocol, s.caches[i], s.procs[i]);
    if Unanswered(s.procs[i]) && s.caches[i].request.None? {
      var a :| Transient(StateOf(s.caches[i], a));
      assert HasGet(s, cfg.nodes, i, a);
    }
  }

  /** Every cycle of an unfinished run fails or does some work; with x == 0 this holds of
      cycles in which no OM line snoops another cache's GETS. */
  lemma CycleWorks(cfg: Config, x: nat, s: Sys)
    requires cfg.hitTime >= 1 && EndSteady(cfg, s) && (x >= 2 || !Cycles.Danger(cfg, s))
    ensures WellSized(cfg, s)
    ensures var y := Cycle(cfg, s);
            y.failed || (EndSteady(cfg, y) && y.clock == s.clock + 1
                         && (!Done(s) ==> Work(cfg.hitTime, x, y, cfg.nodes) < Work(cfg.hitTime, x, s, cfg.nodes)))
  {
    hide MidSteady, Steady, BusShape, BuffersEmpty, OmDanger, TickCaches, TickProcs, TickMem, TockProcs, Work;
    var s0 := Grant(s);
    GrantSteady(cfg, s);
    GrantWork(cfg, x, s);
    SteadyFacts(cfg, s0, 0);
    CachesWork(cfg, x, s0, cfg.nodes);
    var s1 := TickCaches(cfg.protocol, s0, cfg.nodes);
    if s1.failed {
      StaysFailed(cfg, s1);
      return;
    }
    CachesTouchLittle(cfg.protocol, s0, cfg.nodes);
    SteadyFacts(cfg, s1, cfg.nodes);
    ProcsSteady(cfg, s1);
    ProcsWork(cfg, x, s1);
    ProcsKeepBus(s1);
    var s2 := TickProcs(s1);
    SteadyFacts(cfg, s2, cfg.nodes);
    LateSteady(cfg, s2);
    LateWork(cfg, x, s2);
    assert Cycle(cfg, s) == TockProcs(TickMem(cfg, s2)).(clock := s2.clock + 1);
    if !Done(s) {
      var i := NotDone(cfg, s);
      assert s1.procs[i] == s.procs[i].(buffer := s1.procs[i].buffer);
      assert Ready(s.procs[i]) ==> Ready(s1.procs[i]);
    }
  }

  lemma StaysFailed(cfg: Config, s: Sys)
    requires s.failed && |s.caches| == |s.procs|
    ensures TockProcs(TickMem(cfg, TickProcs(s))).failed
  {
  }

  lemma ProcsKeepBus(s: Sys)
    requires |s.caches| == |s.procs|
    ensures TickProcs(s).bus == s.bus && TickProcs(s).mem == s.mem && TickProcs(s).clock == s.clock
  {
  }

  lemma NotFailedLate(cfg: Config, s: Sys)
    requires Core(cfg, s, cfg.nodes) && BusMid(cfg, s) && cfg.hitTime >= 1
    ensures WellSized(cfg, s) && !s.failed && !TickMem(cfg, s).failed && !TockProcs(TickMem(cfg, s)).failed
    ensures TockProcs(TickMem(cfg, s)).clock == s.clock
  {
    Cycles.MemBus(cfg, s);
  }

  function Requests(traces: seq<seq<Op>>, k: nat): nat
    requires k <= |traces|
  {
    if k == 0 then 0 else Requests(traces, k - 1) + |traces[k - 1]|
  }

  /** An upper bound on the length of a run; x is 2 for runs that may meet MOESI's hazard. */
  function Bound(h: nat, x: nat, traces: seq<seq<Op>>): nat {
    (h + 9 + x) * Requests(traces, |traces|) + |traces|
  }

  lemma {:induction false} InitialSum(h: nat, x: nat, traces: seq<seq<Op>>, k: nat)
    requires k <= |traces|
    ensures NodesWork(h, x, Initial(traces), k) == Times(h + 9 + x, Requests(traces, k)) + k
  {
    if k > 0 {
      InitialSum(h, x, traces, k - 1);
      TimesOfSum(h + 9 + x, Requests(traces, k - 1), |traces[k - 1]|);
    }
  }

  lemma InitialWork(cfg: Config, x: nat, traces: seq<seq<Op>>)
    requires |traces| == cfg.nodes
    ensures Work(cfg.hitTime, x, Initial(traces), cfg.nodes) == Bound(cfg.hitTime, x, traces)
  {
    InitialSum(cfg.hitTime, x, traces, |traces|);
    TimesIsProduct(cfg.hitTime + 9 + x, Requests(traces, |traces|));
  }

  lemma CycleClock(cfg: Config, s: Sys)
    requires WellSized(cfg, s) && !Cycle(cfg, s).failed
    ensures Cycle(cfg, s).clock == s.clock + 1
  {
    hide TickCaches;
    CachesTouchLittle(cfg.protocol, Grant(s), cfg.nodes);
  }

  /** After a fatal error nothing moves. */
  lemma FailedForGood(cfg: Config, s: Sys)
    requires WellSized(cfg, s) && s.failed
    ensures Cycle(cfg, s).failed
  {
    hide Serve, React;
    FailedCaches(cfg.protocol, s, cfg.nodes);
  }

  lemma {:induction false} FailedCaches(p: Protocol, s: Sys, k: nat)
    requires s.failed && k <= |s.caches| == |s.procs|
    ensures TickCaches(p, s, k).failed
  {
    hide TickCache;
    if k > 0 {
      FailedCaches(p, s, k - 1);
      FailedCache(p, TickCaches(p, s, k - 1), k - 1);
    }
  }

  /** What every run keeps, it keeps until it fails. */
  lemma {:induction false} RunsStaySteady(cfg: Config, traces: seq<seq<Op>>, m: nat)
    requires cfg.hitTime >= 1 && |traces| == cfg.nodes && !After(cfg, Initial(traces), m).failed
    ensures EndSteady(cfg, After(cfg, Initial(traces), m))
  {
    hide EndSteady, Cycle, Work, Done;
    if m == 0 {
      InitialSteady(cfg, traces);
    } else {
      var s := After(cfg, Initial(traces), m - 1);
      if s.failed {
        FailedForGood(cfg, s);
      }
      RunsStaySteady(cfg, traces, m - 1);
      CycleWorks(cfg, 2, s);
    }
  }

  lemma {:induction false} WorkRunsOut(cfg: Config, x: nat, traces: seq<seq<Op>>, m: nat)
    requires cfg.hitTime >= 1 && |traces| == cfg.nodes
    requires x >= 2 || Cycles.Safe(cfg, Initial(traces), m)
    requires forall j :: 0 <= j < m ==> !Done(After(cfg, Initial(traces), j))
    requires !After(cfg, Initial(traces), m).failed
    ensures EndSteady(cfg, After(cfg, Initial(traces), m)) && After(cfg, Initial(traces), m).clock == m
    ensures Work(cfg.hitTime, x, After(cfg, Initial(traces), m), cfg.nodes) + m <= Bound(cfg.hitTime, x, traces)
  {
    hide EndSteady, Cycles.Danger, Cycle, Work, Done, Bound;
    if m == 0 {
      InitialSteady(cfg, traces);
      InitialWork(cfg, x, traces);
    } else {
      var s := After(cfg, Initial(traces), m - 1);
      if s.failed {
        FailedForGood(cfg, s);
      }
      WorkRunsOut(cfg, x, traces, m - 1);
      CycleWorks(cfg, x, s);
    }
  }

  lemma {:induction false} SumAtLeast(h: nat, x: nat, s: Sys, k: nat, i: nat)
    requires i < k <= |s.caches| == |s.procs|
    ensures NodesWork(h, x, s, k) >= NodeWork(h, x, s.caches[i], s.procs[i])
  {
    if i < k - 1 {
      SumAtLeast(h, x, s, k - 1, i);
    }
  }

  lemma UnfinishedHasWork(cfg: Config, x: nat, s: Sys)
    requires EndSteady(cfg, s) && !Done(s)
    ensures Work(cfg.hitTime, x, s, cfg.nodes) > 0
  {
    hide NodesOk, GetsQueued, TransientOk;
    var i := NotDone(cfg, s);
    SumAtLeast(cfg.hitTime, x, s, |s.procs|, i);
  }

  /** The main loop ends on every set of traces: with all processors done if no OM line of
      MOESI snoops another cache's GETS in the run, and otherwise with that or a fatal error. */
  lemma EveryRunEnds(cfg: Config, traces: seq<seq<Op>>) returns (m: nat)
    requires cfg.hitTime >= 1 && |traces| == cfg.nodes
    ensures Done(After(cfg, Initial(traces), m)) || After(cfg, Initial(traces), m).failed
    ensures forall j :: 0 <= j < m ==> !Done(After(cfg, Initial(traces), j)) && !After(cfg, Initial(traces), j).failed
    ensures m <= Bound(cfg.hitTime, 2, traces)
    ensures Cycles.Safe(cfg, Initial(traces), m) ==>
              !After(cfg, Initial(traces), m).failed && m <= Bound(cfg.hitTime, 0, traces)
  {
    hide EndSteady, EndInv, Work, Done, Bound, Cycle, Cycles.Safe;
    m := 0;
    while !Done(After(cfg, Initial(traces), m)) && !After(cfg, Initial(traces), m).failed
      invariant m <= Bound(cfg.hitTime, 2, traces)
      invariant forall j :: 0 <= j < m ==>
                  !Done(After(cfg, Initial(traces), j)) && !After(cfg, Initial(traces), j).failed
      decreases Bound(cfg.hitTime, 2, traces) - m
    {
      WorkRunsOut(cfg, 2, traces, m);
      UnfinishedHasWork(cfg, 2, After(cfg, Initial(traces), m));
      m := m + 1;
    }
    if Cycles.Safe(cfg, Initial(traces), m) {
      Cycles.ReachableOk(cfg, traces, m);
      Cycles.EndFacts(cfg, After(cfg, Initial(traces), m));
      WorkRunsOut(cfg, 0, traces, m);
    }
  }
}
