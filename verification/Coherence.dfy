/** Whole cycles keep the shadow in step, and the theorem about complete runs. */
module Coherence {
  import opened Messages
  import opened Machine
  import opened Invariant
  import opened Shadow
  import opened Consistency
  import Steps
  import Cycles
  import L = LineMachine
  import V = LineValues

  /** After a cycle, memory has stored the DATA it saw, if it stores DATA at all. */
  ghost predicate MemoryUpToDate(copies: bool, s: Sys, v: Values) {
    copies && s.bus.current.Some? && s.bus.current.value.msg == DATA ==>
      ValueOf(v.memory, s.bus.current.value.addr) == v.wire
  }

  ghost predicate EndShadow(cfg: Config, copies: bool, s: Sys, v: Values, traces: seq<seq<Op>>) {
    ShadowInv(cfg, copies, s, v, cfg.nodes, traces) && MemoryUpToDate(copies, s, v)
  }

  // ---------------------------------------------------------------- the bus's tick

  lemma GrantValue(cfg: Config, copies: bool, s: Sys, v: Values, a: Addr)
    requires EndInv(cfg, s) && Fits(s, v) && MemoryUpToDate(copies, s, v)
    requires LineOk(cfg.protocol, copies, s, v, cfg.nodes, a)
    ensures LineOk(cfg.protocol, copies, Grant(s), v, 0, a)
  {
    hide LinesOk, TokensOk, TransientOk, MissesOk, V.ValuesOk;
    var s' := Grant(s);
    var n := cfg.nodes;
    assert Column(s', a) == Column(s, a);
    assert MemorySees(copies, s, v, a) == ValueOf(v.memory, a);
    if copies && s.bus.inProgress && s.bus.reply.Some? && s.bus.reply.value.addr == a {
      assert TxnAt(s', 0, a) == TxnAt(s, n, a);
      V.CopyKeepsValues(cfg.protocol, copies, Column(s, a), TxnAt(s, n, a), Versions(v, a), v.wire,
                        ValueOf(v.memory, a), LastStored(v.log, a));
    } else if !s.bus.inProgress && s.bus.pending != [] && s.bus.pending[0].addr == a {
      assert s.bus.pending[0] in s.bus.pending;
      assert TxnAt(s, n, a) == L.Quiet;
      assert TxnAt(s', 0, a) == L.Busy(s.bus.pending[0].src, 0, L.NoReply, false);
      V.GrantKeepsValues(cfg.protocol, copies, Column(s, a), s.bus.pending[0].src, Versions(v, a), v.wire,
                         ValueOf(v.memory, a), LastStored(v.log, a));
    } else {
      assert TxnAt(s', 0, a) == TxnAt(s, n, a);
    }
  }

  lemma GrantOps(cfg: Config, s: Sys, v: Values)
    requires EndInv(cfg, s) && Fits(s, v) && OpsInv(cfg.protocol, s, v, cfg.nodes)
    ensures OpsInv(cfg.protocol, Grant(s), v, 0)
  {
    hide LinesOk, TransientOk, MissesOk, TokensOk;
    var s' := Grant(s);
    var n := cfg.nodes;
    if !s.bus.inProgress && s.bus.pending != [] {
      assert Holder(s, n).None? && Holder(s', 0) == Some(Want(s.bus.pending[0].addr, s.bus.pending[0].src));
    } else {
      assert Holder(s', 0) == Holder(s, n);
    }
  }

  lemma GrantKeepsShadow(cfg: Config, copies: bool, s: Sys, v: Values, traces: seq<seq<Op>>)
    requires EndInv(cfg, s) && EndShadow(cfg, copies, s, v, traces)
    ensures ShadowInv(cfg, copies, Grant(s), v, 0, traces)
  {
    hide EndInv, LineOk, LogInv, OpsInv;
    Cycles.EndFacts(cfg, s);
    forall a ensures LineOk(cfg.protocol, copies, Grant(s), v, 0, a) {
      assert LineOk(cfg.protocol, copies, s, v, cfg.nodes, a);
      GrantValue(cfg, copies, s, v, a);
    }
    GrantOps(cfg, s, v);
  }

  // ---------------------------------------------------------------- the caches

  lemma CacheKeepsShadow(cfg: Config, copies: bool, s: Sys, v: Values, k: nat, traces: seq<seq<Op>>)
    requires MidInv(cfg, s, k) && k < cfg.nodes
    requires V.Trusts(cfg.protocol, copies, cfg.nodes)
    requires ShadowInv(cfg, copies, s, v, k, traces)
    ensures Fits(s, v) && Fits(ServeCache(cfg.protocol, s, k), ShadowServe(cfg.protocol, s, v, k))
    ensures ShadowInv(cfg, copies, ReactCache(cfg.protocol, ServeCache(cfg.protocol, s, k), k),
                      ShadowReact(cfg.protocol, ServeCache(cfg.protocol, s, k), ShadowServe(cfg.protocol, s, v, k),
                                  k), k + 1, traces)
  {
    hide MidInv, ServeCache, ReactCache, ShadowServe, ShadowReact, ValuesInv, OpsInv, LogInv, TraceInv;
    Steps.MidFacts(cfg, s, k);
    Steps.ServeKeeps(cfg, s, k);
    Steps.MidFacts(cfg, ServeCache(cfg.protocol, s, k), k);
    ServeKeepsShadow(cfg, copies, s, v, k, traces);
    ReactKeepsShadow(cfg, copies, ServeCache(cfg.protocol, s, k), ShadowServe(cfg.protocol, s, v, k), k, traces);
  }

  lemma {:induction false} CachesKeepShadow(cfg: Config, copies: bool, s: Sys, v: Values, k: nat, traces: seq<seq<Op>>)
    requires MidInv(cfg, s, 0) && k <= cfg.nodes
    requires V.Trusts(cfg.protocol, copies, cfg.nodes)
    requires ShadowInv(cfg, copies, s, v, 0, traces)
    ensures ShadowInv(cfg, copies, TickCaches(cfg.protocol, s, k), ShadowCaches(cfg.protocol, s, v, k), k, traces)
  {
    hide MidInv, TickCache, ServeCache, ReactCache, ShadowServe, ShadowReact, ValuesInv, OpsInv, LogInv, TraceInv;
    Steps.MidFacts(cfg, s, 0);
    if k > 0 {
      var s0 := TickCaches(cfg.protocol, s, k - 1);
      var v0 := ShadowCaches(cfg.protocol, s, v, k - 1);
      CachesKeepShadow(cfg, copies, s, v, k - 1, traces);
      Steps.TickCachesKeep(cfg, s, k - 1);
      CacheKeepsShadow(cfg, copies, s0, v0, k - 1, traces);
      Unfolds(cfg.protocol, s, v, k);
    }
  }

  lemma Unfolds(p: Protocol, s: Sys, v: Values, k: nat)
    requires Fits(s, v) && 0 < k <= |s.caches|
    requires Fits(TickCaches(p, s, k - 1), ShadowCaches(p, s, v, k - 1))
    ensures var s0, v0 := TickCaches(p, s, k - 1), ShadowCaches(p, s, v, k - 1);
            && TickCaches(p, s, k) == ReactCache(p, ServeCache(p, s0, k - 1), k - 1)
            && ShadowCaches(p, s, v, k) == ShadowReact(p, ServeCache(p, s0, k - 1),
                                                       ShadowServe(p, s0, v0, k - 1), k - 1)
  {
  }

  // ---------------------------------------------------------------- processors, memory, clock

  lemma ProcKeepsOp(cfg: Config, s: Sys, v: Values, i: nat, traces: seq<seq<Op>>)
    requires Core(cfg, s, cfg.nodes) && i < cfg.nodes
    requires Fits(s, v) && OpsInv(cfg.protocol, s, v, cfg.nodes) && TraceInv(s, v, traces)
    ensures var s', v' := TickProcs(s), ShadowProcs(s, v);
            && Completed(v'.log, i) + Waiting(v'.ops[i]) + s'.procs[i].trace == traces[i]
            && (s'.procs[i].ended ==> s'.procs[i].trace == [])
            && One(v'.ops[i].Some?) == One(s'.caches[i].request.Some?) + Queued(s.bus.pending, i)
                                       + One(Holder(s, cfg.nodes).Some? && Holder(s, cfg.nodes).value.req == i)
            && (s'.caches[i].request.Some? ==> v'.ops[i] == s'.caches[i].request)
            && (v.ops[i].Some? ==> v'.ops[i] == v.ops[i])
  {
    hide LinesOk, QueueOk, TransientOk, MissesOk;
    assert Places(s, cfg.nodes, i) == One(s.procs[i].outstanding);
    assert Completed(v.log, i) + Waiting(v.ops[i]) + s.procs[i].trace == traces[i];
  }

  lemma ProcsKeepShadow(cfg: Config, copies: bool, s: Sys, v: Values, traces: seq<seq<Op>>)
    requires Core(cfg, s, cfg.nodes)
    requires ShadowInv(cfg, copies, s, v, cfg.nodes, traces)
    ensures ShadowInv(cfg, copies, TickProcs(s), ShadowProcs(s, v), cfg.nodes, traces)
  {
    hide LinesOk, QueueOk, TransientOk, TokensOk, MissesOk, V.ValuesOk, LogInv;
    var s' := TickProcs(s);
    var v' := ShadowProcs(s, v);
    var n := cfg.nodes;
    assert forall i, a :: 0 <= i < |s.caches| ==> StateOf(s'.caches[i], a) == StateOf(s.caches[i], a);
    forall a ensures LineOk(cfg.protocol, copies, s', v', n, a) {
      assert LineOk(cfg.protocol, copies, s, v, n, a);
      assert Column(s', a) == Column(s, a);
      assert Versions(v', a) == Versions(v, a);
    }
    assert Holder(s', n) == Holder(s, n);
    forall i | 0 <= i < n
      ensures Completed(v'.log, i) + Waiting(v'.ops[i]) + s'.procs[i].trace == traces[i]
      ensures s'.procs[i].ended ==> s'.procs[i].trace == []
      ensures One(v'.ops[i].Some?) == One(s'.caches[i].request.Some?) + Queued(s'.bus.pending, i)
                                      + One(Holder(s', n).Some? && Holder(s', n).value.req == i)
      ensures s'.caches[i].request.Some? ==> v'.ops[i] == s'.caches[i].request
      ensures v.ops[i].Some? ==> v'.ops[i] == v.ops[i]
    {
      ProcKeepsOp(cfg, s, v, i, traces);
    }
  }

  lemma MemValue(cfg: Config, copies: bool, s: Sys, v: Values, a: Addr)
    requires Core(cfg, s, cfg.nodes) && BusMid(cfg, s) && cfg.hitTime >= 1
    requires Fits(s, v) && LineOk(cfg.protocol, copies, s, v, cfg.nodes, a)
    ensures LineOk(cfg.protocol, copies, TickMem(cfg, s), ShadowMem(cfg, copies, s, v), cfg.nodes, a)
  {
    hide TokensOk, QueueOk, TransientOk, MissesOk, V.ValuesOk, L.LineInv;
    var s' := TickMem(cfg, s);
    var v' := ShadowMem(cfg, copies, s, v);
    var n := cfg.nodes;
    assert Holder(s', n) == Holder(s, n);
    assert Column(s', a) == Column(s, a);
    assert Versions(v', a) == Versions(v, a);
    var t := TxnAt(s, n, a);
    assert L.LineInv(cfg.protocol, Column(s, a), t);
    var m := Latch(cfg, s.mem, s.bus.current, s.clock);
    if m.busy && s.clock >= m.time {
      if t.Busy? {
        assert m.addr == a;
        V.MemoryReplyKeepsValues(cfg.protocol, copies, Column(s, a), t, Versions(v, a), v.wire, ValueOf(v.memory, a),
                                 LastStored(v.log, a));
      } else {
        V.QuietIgnoresWire(cfg.protocol, copies, Column(s, a), Versions(v, a), v.wire, ValueOf(v.memory, m.addr),
                           ValueOf(v.memory, a), LastStored(v.log, a));
      }
    } else {
      assert TxnAt(s', n, a) == t;
    }
  }

  lemma MemKeepsShadow(cfg: Config, copies: bool, s: Sys, v: Values, traces: seq<seq<Op>>)
    requires Core(cfg, s, cfg.nodes) && BusMid(cfg, s) && cfg.hitTime >= 1
    requires ShadowInv(cfg, copies, s, v, cfg.nodes, traces)
    ensures EndShadow(cfg, copies, TickMem(cfg, s), ShadowMem(cfg, copies, s, v), traces)
  {
    hide LineOk, LogInv, LinesOk, TokensOk, QueueOk, TransientOk, MissesOk;
    var s' := TickMem(cfg, s);
    var v' := ShadowMem(cfg, copies, s, v);
    var n := cfg.nodes;
    forall a ensures LineOk(cfg.protocol, copies, s', v', n, a) {
      assert LineOk(cfg.protocol, copies, s, v, n, a);
      MemValue(cfg, copies, s, v, a);
    }
    assert Holder(s', n) == Holder(s, n);
  }

  lemma TockKeepsShadow(cfg: Config, copies: bool, s: Sys, v: Values, traces: seq<seq<Op>>, s': Sys)
    requires WellSized(cfg, s) && !s.failed && EndShadow(cfg, copies, s, v, traces)
    requires s' == TockProcs(s).(clock := s.clock + 1)
    ensures EndShadow(cfg, copies, s', v, traces)
  {
    hide V.ValuesOk, LogInv;
    var n := cfg.nodes;
    assert s'.caches == s.caches && s'.bus == s.bus && s'.mem == s.mem;
    assert Holder(s', n) == Holder(s, n);
    forall a ensures LineOk(cfg.protocol, copies, s', v, n, a) {
      assert LineOk(cfg.protocol, copies, s, v, n, a);
      assert Column(s', a) == Column(s, a);
      assert TxnAt(s', n, a) == TxnAt(s, n, a);
    }
  }

  // ---------------------------------------------------------------- cycles and runs

  lemma CycleKeepsShadow(cfg: Config, copies: bool, s: Sys, v: Values, traces: seq<seq<Op>>)
    requires cfg.hitTime >= 1 && V.Trusts(cfg.protocol, copies, cfg.nodes)
    requires EndInv(cfg, s) && !Cycles.Danger(cfg, s) && EndShadow(cfg, copies, s, v, traces)
    ensures EndShadow(cfg, copies, Cycle(cfg, s), ShadowCycle(cfg, copies, s, v), traces)
  {
    hide MidInv, EndInv, LinesOk, QueueOk, TransientOk, TokensOk, MissesOk, Cycles.Danger, BusMid, BusEnd, Grant,
         TickCaches, TickProcs, TickMem, TockProcs, ShadowCaches, ShadowProcs, ShadowMem, ValuesInv, OpsInv, LogInv,
           TraceInv, MemoryUpToDate;
    Cycles.EndFacts(cfg, s);
    Cycles.GrantKeeps(cfg, s);
    GrantKeepsShadow(cfg, copies, s, v, traces);
    var s0 := Grant(s);
    Cycles.MidCore(cfg, s0, 0);
    Steps.TickCachesKeep(cfg, s0, cfg.nodes);
    CachesKeepShadow(cfg, copies, s0, v, cfg.nodes, traces);
    var s1 := TickCaches(cfg.protocol, s0, cfg.nodes);
    var v1 := ShadowCaches(cfg.protocol, s0, v, cfg.nodes);
    Cycles.MidCore(cfg, s1, cfg.nodes);
    Cycles.ProcsKeep(cfg, s1);
    ProcsKeepShadow(cfg, copies, s1, v1, traces);
    var s2 := TickProcs(s1);
    Cycles.MemKeeps(cfg, s2);
    MemKeepsShadow(cfg, copies, s2, ShadowProcs(s1, v1), traces);
    var s3 := TickMem(cfg, s2);
    Cycles.TocksKeep(cfg, s3);
    TockKeepsShadow(cfg, copies, s3, ShadowMem(cfg, copies, s2, ShadowProcs(s1, v1)), traces,
                    TockProcs(s3).(clock := s3.clock + 1));
    TockClock(s3);
  }

  lemma TockClock(s: Sys)
    requires |s.caches| == |s.procs|
    ensures TockProcs(s).clock == s.clock && TockProcs(s).failed == s.failed
  {
  }

  lemma InitialShadow(cfg: Config, copies: bool, traces: seq<seq<Op>>)
    requires |traces| == cfg.nodes
    ensures EndShadow(cfg, copies, Initial(traces), ShadowInitial(cfg.nodes), traces)
  {
    var s := Initial(traces);
    var v := ShadowInitial(cfg.nodes);
    forall a ensures LineOk(cfg.protocol, copies, s, v, cfg.nodes, a) {
      assert forall j :: 0 <= j < |Column(s, a)| ==> Column(s, a)[j] == I;
    }
  }

  lemma {:induction false} ShadowFollows(cfg: Config, copies: bool, traces: seq<seq<Op>>, m: nat)
    requires cfg.hitTime >= 1 && |traces| == cfg.nodes && V.Trusts(cfg.protocol, copies, cfg.nodes)
    requires Cycles.Safe(cfg, Initial(traces), m)
    ensures EndShadow(cfg, copies, After(cfg, Initial(traces), m),
                      ShadowAfter(cfg, copies, Initial(traces), ShadowInitial(cfg.nodes), m), traces)
  {
    hide EndInv, EndShadow, Cycles.Danger, Cycle, ShadowCycle;
    if m == 0 {
      InitialShadow(cfg, copies, traces);
    } else {
      ShadowFollows(cfg, copies, traces, m - 1);
      Cycles.ReachableOk(cfg, traces, m - 1);
      CycleKeepsShadow(cfg, copies, After(cfg, Initial(traces), m - 1),
                       ShadowAfter(cfg, copies, Initial(traces), ShadowInitial(cfg.nodes), m - 1), traces);
    }
  }

  /** Sequential consistency. After any number of cycles the log takes every processor's
      requests in trace order and every load returned the last version stored before it;
      when all processors are done the log holds all their traces. */
  lemma SequentiallyConsistent(cfg: Config, copies: bool, traces: seq<seq<Op>>, m: nat)
    requires cfg.hitTime >= 1 && |traces| == cfg.nodes && V.Trusts(cfg.protocol, copies, cfg.nodes)
    requires Cycles.Safe(cfg, Initial(traces), m)
    ensures var s := After(cfg, Initial(traces), m);
            var log := ShadowAfter(cfg, copies, Initial(traces), ShadowInitial(cfg.nodes), m).log;
            && ReadsLastWrite(log) && FreshVersions(log)
            && (forall i :: 0 <= i < cfg.nodes ==> Completed(log, i) <= traces[i])
            && (Done(s) ==> forall i :: 0 <= i < cfg.nodes ==> Completed(log, i) == traces[i])
  {
    hide ValuesInv, LinesOk, QueueOk, TransientOk, MissesOk, BusEnd, Cycle, ShadowCycle, ReadsLastWrite, FreshVersions;
    var s := After(cfg, Initial(traces), m);
    var v := ShadowAfter(cfg, copies, Initial(traces), ShadowInitial(cfg.nodes), m);
    ShadowFollows(cfg, copies, traces, m);
    Cycles.ReachableOk(cfg, traces, m);
    forall i | 0 <= i < cfg.nodes
      ensures Completed(v.log, i) <= traces[i]
      ensures Done(s) ==> Completed(v.log, i) == traces[i]
    {
      assert Completed(v.log, i) + Waiting(v.ops[i]) + s.procs[i].trace == traces[i];
      assert Places(s, cfg.nodes, i) == One(s.procs[i].outstanding);
    }
  }
}
