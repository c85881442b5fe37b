/** Whole cycles keep the invariant, and every run starts in it. */
module Cycles {
  import opened Messages
  import opened Protocols
  import opened Machine
  import opened Invariant
  import Steps
  import L = LineMachine

  // ---------------------------------------------------------------- the bus's tick

  lemma GrantLines(cfg: Config, s: Sys)
    requires EndInv(cfg, s)
    ensures LinesOk(cfg.protocol, Grant(s), 0)
  {
    hide TokensOk, TransientOk, MissesOk;
    var s' := Grant(s);
    var n := cfg.nodes;
    forall a ensures L.LineInv(cfg.protocol, Column(s', a), TxnAt(s', 0, a)) {
      assert L.LineInv(cfg.protocol, Column(s, a), TxnAt(s, n, a));
      assert Column(s', a) == Column(s, a);
      if !s.bus.inProgress && s.bus.pending != [] && s.bus.pending[0].addr == a {
        var q := s.bus.pending[0];
        assert q in s.bus.pending;
        assert Column(s, a)[q.src] == StateOf(s.caches[q.src], a);
        L.GrantKeepsInv(cfg.protocol, Column(s, a), q.src);
      } else {
        assert TxnAt(s', 0, a) == TxnAt(s, n, a);
      }
    }
  }

  lemma GrantTokens(cfg: Config, s: Sys)
    requires EndInv(cfg, s)
    ensures TokensOk(Grant(s), 0) && QueueOk(Grant(s)) && TransientOk(Grant(s), 0) && MissesOk(Grant(s))
  {
    hide LinesOk;
    var s' := Grant(s);
    var n := cfg.nodes;
    var grants := !s.bus.inProgress && s.bus.pending != [];
    if grants {
      var q := s.bus.pending[0];
      assert q in s.bus.pending;
      assert Holder(s, n).None? && Holder(s', 0) == Some(Want(q.addr, q.src));
    } else {
      assert Holder(s', 0) == Holder(s, n);
    }
    forall i | 0 <= i < |s'.procs| ensures Places(s', 0, i) == One(s'.procs[i].outstanding) {
      assert Places(s, n, i) == One(s.procs[i].outstanding);
    }
    forall i, a | 0 <= i < |s'.caches| && Transient(StateOf(s'.caches[i], a))
      ensures HasGet(s', 0, i, a)
    {
      assert HasGet(s, n, i, a);
      if Holder(s, n) != Some(Want(a, i)) {
        var q :| q in s.bus.pending && q.src == i && q.addr == a;
        if grants && q == s.bus.pending[0] {
        } else {
          assert q in s'.bus.pending;
        }
      }
    }
  }

  lemma GrantBus(cfg: Config, s: Sys)
    requires EndInv(cfg, s)
    ensures BusMid(cfg, Grant(s))
  {
    hide LinesOk, TokensOk, TransientOk, MissesOk;
    if !s.bus.inProgress && s.bus.pending != [] {
      assert s.bus.pending[0] in s.bus.pending;
    }
  }

  /** An OM line of MOESI would snoop another cache's GETS in the coming cycle. This can be
      read off the state before the cycle: the GETS is the next one to be granted. */
  ghost predicate Danger(cfg: Config, s: Sys) {
    !s.failed && OmDanger(cfg.protocol, Grant(s), 0)
  }

  lemma GrantKeeps(cfg: Config, s: Sys)
    requires EndInv(cfg, s) && !Danger(cfg, s)
    ensures MidInv(cfg, Grant(s), 0)
  {
    GrantLines(cfg, s);
    GrantTokens(cfg, s);
    GrantBus(cfg, s);
  }

  // ---------------------------------------------------------------- processors

  lemma SameLines(p: Protocol, s: Sys, s': Sys, k: nat)
    requires LinesOk(p, s, k)
    requires |s'.caches| == |s.caches| && s'.bus == s.bus && s'.mem == s.mem
    requires forall i :: 0 <= i < |s.caches| ==> s'.caches[i].lines == s.caches[i].lines
    ensures LinesOk(p, s', k)
  {
    forall a ensures L.LineInv(p, Column(s', a), TxnAt(s', k, a)) {
      assert L.LineInv(p, Column(s, a), TxnAt(s, k, a));
      assert Column(s', a) == Column(s, a);
    }
  }

  lemma SameWaiting(s: Sys, s': Sys, k: nat)
    requires QueueOk(s) && TransientOk(s, k)
    requires |s'.caches| == |s.caches| && s'.bus == s.bus && s'.mem == s.mem
    requires forall i :: 0 <= i < |s.caches| ==> s'.caches[i].lines == s.caches[i].lines
    ensures QueueOk(s') && TransientOk(s', k)
  {
    forall i, a | 0 <= i < |s'.caches| && Transient(StateOf(s'.caches[i], a))
      ensures HasGet(s', k, i, a)
    {
      assert Transient(StateOf(s.caches[i], a));
      assert HasGet(s, k, i, a);
    }
  }

  lemma ProcsKeep(cfg: Config, s: Sys)
    requires Core(cfg, s, cfg.nodes) && BusMid(cfg, s)
    ensures Core(cfg, TickProcs(s), cfg.nodes) && BusMid(cfg, TickProcs(s))
  {
    hide LinesOk, QueueOk, TransientOk;
    var s' := TickProcs(s);
    var n := cfg.nodes;
    SameLines(cfg.protocol, s, s', n);
    SameWaiting(s, s', n);
    forall i | 0 <= i < |s'.procs| ensures Places(s', n, i) == One(s'.procs[i].outstanding) {
      assert Places(s, n, i) == One(s.procs[i].outstanding);
    }
  }

  // ---------------------------------------------------------------- memory controller

  /** The bus between the memory controller's tick and the end of the cycle. */
  ghost predicate BusLate(cfg: Config, s: Sys) {
    BusEnd(cfg, s.(clock := s.clock + 1))
  }

  lemma MemBus(cfg: Config, s: Sys)
    requires !s.failed && BusShape(cfg, s) && cfg.hitTime >= 1
    ensures !TickMem(cfg, s).failed && BusLate(cfg, TickMem(cfg, s))
  {
  }

  lemma MemKeeps(cfg: Config, s: Sys)
    requires Core(cfg, s, cfg.nodes) && BusMid(cfg, s) && cfg.hitTime >= 1
    ensures Core(cfg, TickMem(cfg, s), cfg.nodes) && BusLate(cfg, TickMem(cfg, s))
  {
    MemBus(cfg, s);
    var s' := TickMem(cfg, s);
    var n := cfg.nodes;
    assert Holder(s', n) == Holder(s, n);
    forall a ensures L.LineInv(cfg.protocol, Column(s', a), TxnAt(s', n, a)) {
      assert L.LineInv(cfg.protocol, Column(s, a), TxnAt(s, n, a));
      assert Column(s', a) == Column(s, a);
      var t := TxnAt(s, n, a);
      if t.Busy? && s'.bus != s.bus {
        L.MemoryReplyKeepsInv(cfg.protocol, Column(s, a), t);
      }
    }
    forall i | 0 <= i < |s'.procs| ensures Places(s', n, i) == One(s'.procs[i].outstanding) {
      assert Places(s, n, i) == One(s.procs[i].outstanding);
    }
    forall i, a | 0 <= i < |s'.caches| && Transient(StateOf(s'.caches[i], a))
      ensures HasGet(s', n, i, a)
    {
      assert HasGet(s, n, i, a);
    }
  }

  // ---------------------------------------------------------------- cycles and runs

  lemma TocksKeep(cfg: Config, s: Sys)
    requires Core(cfg, s, cfg.nodes) && BusLate(cfg, s)
    ensures Core(cfg, TockProcs(s), cfg.nodes) && BusLate(cfg, TockProcs(s)) && BuffersEmpty(TockProcs(s))
  {
    hide LinesOk, QueueOk, TransientOk;
    var s' := TockProcs(s);
    var n := cfg.nodes;
    SameLines(cfg.protocol, s, s', n);
    SameWaiting(s, s', n);
    forall i | 0 <= i < |s'.procs| ensures Places(s', n, i) == One(s'.procs[i].outstanding) {
      assert Places(s, n, i) == One(s.procs[i].outstanding);
    }
  }

  lemma ClockKeeps(cfg: Config, s: Sys)
    requires Core(cfg, s, cfg.nodes) && BusLate(cfg, s) && BuffersEmpty(s)
    ensures EndInv(cfg, s.(clock := s.clock + 1))
  {
    hide LinesOk, QueueOk, TransientOk;
    var s' := s.(clock := s.clock + 1);
    SameLines(cfg.protocol, s, s', cfg.nodes);
    SameWaiting(s, s', cfg.nodes);
    forall i | 0 <= i < |s'.procs| ensures Places(s', cfg.nodes, i) == One(s'.procs[i].outstanding) {
      assert Places(s, cfg.nodes, i) == One(s.procs[i].outstanding);
    }
  }

  lemma EndFacts(cfg: Config, s: Sys)
    requires EndInv(cfg, s)
    ensures WellSized(cfg, s) && !s.failed
  {
  }

  lemma MidCore(cfg: Config, s: Sys, k: nat)
    requires MidInv(cfg, s, k)
    ensures Core(cfg, s, k) && BusMid(cfg, s)
  {
  }

  lemma CycleKeeps(cfg: Config, s: Sys)
    requires cfg.hitTime >= 1
    requires EndInv(cfg, s) && !Danger(cfg, s)
    ensures EndInv(cfg, Cycle(cfg, s))
  {
    hide MidInv, EndInv, BuffersEmpty, LinesOk, QueueOk, TransientOk, TokensOk, MissesOk, Danger, BusMid, BusEnd,
         Grant, TickCaches, TickProcs, TickMem, TockProcs;
    EndFacts(cfg, s);
    GrantKeeps(cfg, s);
    var s0 := Grant(s);
    Steps.TickCachesKeep(cfg, s0, cfg.nodes);
    MidCore(cfg, s0, 0);
    var s1 := TickCaches(cfg.protocol, s0, cfg.nodes);
    MidCore(cfg, s1, cfg.nodes);
    ProcsKeep(cfg, s1);
    var s2 := TickProcs(s1);
    MemKeeps(cfg, s2);
    var s3 := TickMem(cfg, s2);
    TocksKeep(cfg, s3);
    var s4 := TockProcs(s3);
    ClockKeeps(cfg, s4);
    assert Cycle(cfg, s) == s4.(clock := s4.clock + 1);
  }

  lemma InitialOk(cfg: Config, traces: seq<seq<Op>>)
    requires |traces| == cfg.nodes
    ensures EndInv(cfg, Initial(traces))
  {
    var s := Initial(traces);
    forall a ensures L.LineInv(cfg.protocol, Column(s, a), TxnAt(s, cfg.nodes, a)) {
      assert Holder(s, cfg.nodes).None?;
    }
  }

  /** No OM line of MOESI snooped another cache's GETS in the first m cycles. */
  ghost predicate Safe(cfg: Config, s: Sys, m: nat)
    requires WellSized(cfg, s)
  {
    forall j :: 0 <= j < m ==> !Danger(cfg, After(cfg, s, j))
  }

  lemma {:induction false} ReachableOk(cfg: Config, traces: seq<seq<Op>>, m: nat)
    requires cfg.hitTime >= 1 && |traces| == cfg.nodes
    requires Safe(cfg, Initial(traces), m)
    ensures EndInv(cfg, After(cfg, Initial(traces), m))
  {
    hide EndInv, Danger, Cycle;
    if m == 0 {
      InitialOk(cfg, traces);
    } else {
      ReachableOk(cfg, traces, m - 1);
      CycleKeeps(cfg, After(cfg, Initial(traces), m - 1));
    }
  }

  /** Only MOESI can be unsafe. */
  lemma AlwaysSafe(cfg: Config, s: Sys, m: nat)
    requires WellSized(cfg, s) && cfg.protocol != MOESI
    ensures Safe(cfg, s, m)
  {
    hide After;
  }

  lemma AfterNext(cfg: Config, s: Sys, m: nat)
    requires WellSized(cfg, s)
    ensures After(cfg, s, m + 1) == Cycle(cfg, After(cfg, s, m))
  {
  }

  lemma ReachableAndSafe(cfg: Config, traces: seq<seq<Op>>, m: nat)
    requires cfg.hitTime >= 1 && |traces| == cfg.nodes && cfg.protocol != MOESI
    ensures EndInv(cfg, After(cfg, Initial(traces), m)) && !Danger(cfg, After(cfg, Initial(traces), m))
  {
    hide EndInv, After;
    AlwaysSafe(cfg, Initial(traces), m);
    ReachableOk(cfg, traces, m);
  }
}
