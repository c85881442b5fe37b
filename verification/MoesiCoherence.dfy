/** Reads under MOESI. When an OM line snoops another cache's GETS its store is completed and
    memory answers the GETS with a version from before that store, whether or not memory copies
    the DATA it sees; so reads are coherent exactly in the runs where this never happens. */
module MoesiCoherence {
  import opened Messages
  import opened Reactions
  import opened Protocols
  import opened Machine
  import opened Invariant
  import opened Liveness
  import opened Progress
  import opened Shadow
  import opened MoesiHazard
  import Coherence
  import Consistency
  import Cycles

  // ---------------------------------------------------------------- no version is ahead of the log

  /** Versions on the wire and in memory were written by stores in the log. */
  ghost predicate Bounded(v: Values) {
    && v.wire <= |v.log|
    && (forall a: Addr :: ValueOf(v.memory, a) <= |v.log|)
    && (forall i, a: Addr {:trigger ValueOf(v.copies[i], a)} :: 0 <= i < |v.copies| ==>
          ValueOf(v.copies[i], a) <= |v.log|)
  }

  lemma CommitBounded(v: Values, k: nat, op: Op)
    requires k < |v.copies| == |v.ops| && Bounded(v)
    ensures Bounded(Commit(v, k, op))
  {
    var x := Commit(v, k, op);
    forall i, a: Addr | 0 <= i < |x.copies| ensures ValueOf(x.copies[i], a) <= |x.log| {
      assert ValueOf(v.copies[i], a) <= |v.log|;
    }
  }

  lemma CarryBounded(v: Values, k: nat, q: Mreq, r: SnoopOut)
    requires k < |v.copies| == |v.ops| && Bounded(v)
    ensures Bounded(Carry(v, k, q, r))
  {
    hide Commit;
    var w :=
      if r.supply then v.(wire := ValueOf(v.copies[k], q.addr))
      else if r.fill && q.msg == DATA then v.(copies := v.copies[k := With(v.copies[k], q.addr, v.wire)])
      else v;
    assert ValueOf(v.copies[k], q.addr) <= |v.log|;
    forall i, a: Addr | 0 <= i < |w.copies| ensures ValueOf(w.copies[i], a) <= |w.log| {
      assert ValueOf(v.copies[i], a) <= |v.log|;
    }
    if r.fill && v.ops[k].Some? {
      CommitBounded(w, k, v.ops[k].value);
    }
  }

  lemma {:induction false} CachesBounded(p: Protocol, s: Sys, v: Values, k: nat)
    requires Fits(s, v) && k <= |s.caches| && Bounded(v)
    ensures Bounded(ShadowCaches(p, s, v, k))
  {
    hide Bounded, Commit, Carry, ServeCache, TickCache;
    if k > 0 {
      CachesBounded(p, s, v, k - 1);
      TurnBounded(p, TickCaches(p, s, k - 1), ShadowCaches(p, s, v, k - 1), k - 1);
      CachesKeepSize(p, s, k - 1);
    }
  }

  lemma TurnBounded(p: Protocol, s: Sys, v: Values, k: nat)
    requires Fits(s, v) && k < |s.caches| && Bounded(v)
    ensures Fits(ServeCache(p, s, k), ShadowServe(p, s, v, k))
    ensures Bounded(ShadowReact(p, ServeCache(p, s, k), ShadowServe(p, s, v, k), k))
  {
    hide Bounded, Commit, Carry, OnProcessor, OnSnoop;
    if s.caches[k].request.Some? {
      CommitBounded(v, k, s.caches[k].request.value);
    }
    var x, w := ServeCache(p, s, k), ShadowServe(p, s, v, k);
    if x.bus.current.Some? {
      var q := x.bus.current.value;
      CarryBounded(w, k, q, OnSnoop(p, StateOf(x.caches[k], q.addr), q.msg, q.src == k, x.bus.shared));
    }
  }

  lemma MemBounded(cfg: Config, copies: bool, s: Sys, v: Values)
    requires Bounded(v)
    ensures Bounded(ShadowMem(cfg, copies, s, v))
  {
    hide Latch;
    var x := ShadowMem(cfg, copies, s, v);
    assert ValueOf(v.memory, Latch(cfg, s.mem, s.bus.current, s.clock).addr) <= |v.log|;
    forall a: Addr ensures ValueOf(x.memory, a) <= |x.log| {
      assert ValueOf(v.memory, a) <= |v.log|;
    }
    forall i, a: Addr | 0 <= i < |x.copies| ensures ValueOf(x.copies[i], a) <= |x.log| {
      assert ValueOf(v.copies[i], a) <= |v.log|;
    }
  }

  lemma ProcsBounded(s: Sys, v: Values)
    requires Fits(s, v) && Bounded(v)
    ensures Bounded(ShadowProcs(s, v))
  {
    var x := ShadowProcs(s, v);
    assert x.copies == v.copies && x.memory == v.memory && x.log == v.log && x.wire == v.wire;
  }

  lemma CycleBounded(cfg: Config, copies: bool, s: Sys, v: Values)
    requires WellSized(cfg, s) && Fits(s, v) && Bounded(v)
    ensures Bounded(ShadowCycle(cfg, copies, s, v))
  {
    hide Bounded, ShadowMem, ShadowProcs, TickCaches, ShadowCaches, TickProcs;
    CachesBounded(cfg.protocol, Grant(s), v, cfg.nodes);
    var s1 := TickCaches(cfg.protocol, Grant(s), cfg.nodes);
    var v1 := ShadowCaches(cfg.protocol, Grant(s), v, cfg.nodes);
    ProcsBounded(s1, v1);
    MemBounded(cfg, copies, TickProcs(s1), ShadowProcs(s1, v1));
  }

  lemma {:induction false} AlwaysBounded(cfg: Config, copies: bool, traces: seq<seq<Op>>, m: nat)
    requires |traces| == cfg.nodes
    ensures Bounded(ShadowAfter(cfg, copies, Initial(traces), ShadowInitial(cfg.nodes), m))
  {
    hide Bounded, Cycle, ShadowCycle;
    if m == 0 {
      NothingStored(cfg.nodes);
    } else {
      AlwaysBounded(cfg, copies, traces, m - 1);
      CycleBounded(cfg, copies, After(cfg, Initial(traces), m - 1),
                   ShadowAfter(cfg, copies, Initial(traces), ShadowInitial(cfg.nodes), m - 1));
    }
  }

  lemma NothingStored(n: nat)
    ensures Bounded(ShadowInitial(n))
  {
  }

  // ---------------------------------------------------------------- a load that is too late

  /** Cache r waits to load line a, whose last stored version is newer than `value`. */
  predicate Behind(v: Values, r: nat, a: Addr, value: nat) {
    && r < |v.ops| == |v.copies| && v.ops[r] == Some(Load(a))
    && value <= |v.log| && LastStored(v.log, a) > value
  }

  /** Cache r waits to load line a and cache j to store to it. */
  predicate BeforeStore(v: Values, j: nat, r: nat, a: Addr) {
    && r < |v.ops| == |v.copies| && j < |v.ops| && v.ops[r] == Some(Load(a)) && v.ops[j] == Some(Store(a))
    && ValueOf(v.memory, a) <= |v.log|
  }

  lemma LogGrows(v: Values, k: nat, op: Op, a: Addr)
    requires k < |v.copies| == |v.ops|
    ensures var x := Commit(v, k, op);
            && |x.log| == |v.log| + 1 && x.log[..|v.log|] == v.log && x.memory == v.memory && x.wire == v.wire
            && x.ops == v.ops[k := None]
            && LastStored(x.log, a) == if op == Store(a) then |v.log| + 1 else LastStored(v.log, a)
  {
    var x := Commit(v, k, op);
    Consistency.LastStoredAppend(v.log, x.log[|v.log|], a);
    assert x.log == v.log + [x.log[|v.log|]];
  }

  lemma WrongStaysWrong(log: seq<Event>, more: seq<Event>)
    requires |more| == |log| + 1 && more[..|log|] == log && !ReadsLastWrite(log)
    ensures !ReadsLastWrite(more)
  {
    var x :| 0 <= x < |log| && log[x].Loaded? && log[x].value != LastStored(log[..x], log[x].addr);
    assert more[x] == log[x] && more[..x] == log[..x];
  }

  // ---------------------------------------------------------------- the cycle of the hazard

  lemma ServeBeforeStore(s: Sys, v: Values, k: nat, j: nat, r: nat, a: Addr)
    requires HazardInv(s, k, j, r, a) && k <= j && k < |s.caches| && Fits(s, v) && BeforeStore(v, j, r, a)
    ensures BeforeStore(ShadowServe(MOESI, s, v, k), j, r, a)
    ensures ShadowServe(MOESI, s, v, k).memory == v.memory
  {
    hide LastStored;
    assert Calm(MOESI, s.caches[k], s.procs[k]);
    if s.caches[k].request.Some? && k != j {
      LogGrows(v, k, s.caches[k].request.value, a);
    }
  }

  lemma ServeBehind(s: Sys, v: Values, k: nat, r: nat, a: Addr, value: nat)
    requires Fits(s, v) && k < |s.caches| && Behind(v, r, a, value) && (k == r ==> s.caches[k].request.None?)
    ensures var w := ShadowServe(MOESI, s, v, k);
            Behind(w, r, a, value) && w.memory == v.memory && w.wire == v.wire
  {
    hide LastStored, OnProcessor;
    if s.caches[k].request.Some? {
      LogGrows(v, k, s.caches[k].request.value, a);
    }
  }

  /** Until the OM line snoops nothing happens to the versions that matter; when it does its
      store is logged, and memory's version is behind it. */
  lemma HazardTurn(s: Sys, v: Values, k: nat, j: nat, r: nat, a: Addr)
    requires HazardInv(s, k, j, r, a) && k < |s.caches| && s.caches[k].request.None? && Fits(s, v)
    requires if k <= j then BeforeStore(v, j, r, a) else Behind(v, r, a, ValueOf(v.memory, a))
    ensures var w := ShadowReact(MOESI, s, v, k);
            && w.memory == v.memory
            && (if k + 1 <= j then BeforeStore(w, j, r, a) else Behind(w, r, a, ValueOf(w.memory, a)))
  {
    hide LastStored;
    var st := StateOf(s.caches[k], a);
    assert Calm(MOESI, s.caches[k], s.procs[k]);
    if k == j {
      assert st == OM;
      LogGrows(v, k, Store(a), a);
    } else {
      SnoopTable(st, r == k, s.bus.shared);
    }
  }

  /** One cache's tick, before or after that of the OM line. */
  lemma HazardVersionsTick(s: Sys, v: Values, k: nat, j: nat, r: nat, a: Addr)
    requires HazardInv(s, k, j, r, a) && k < |s.caches| && Fits(s, v)
    requires if k <= j then BeforeStore(v, j, r, a) else Behind(v, r, a, ValueOf(v.memory, a))
    ensures Fits(ServeCache(MOESI, s, k), ShadowServe(MOESI, s, v, k))
    ensures var w := ShadowReact(MOESI, ServeCache(MOESI, s, k), ShadowServe(MOESI, s, v, k), k);
            && w.memory == v.memory
            && (if k + 1 <= j then BeforeStore(w, j, r, a) else Behind(w, r, a, ValueOf(w.memory, a)))
  {
    hide HazardInv, ServeCache, ShadowServe, ShadowReact, BeforeStore, Behind;
    HazardServe(s, k, j, r, a);
    ServeTouchesLittle(MOESI, s, k);
    if k <= j {
      ServeBeforeStore(s, v, k, j, r, a);
    } else {
      RequesterIdle(s, k, j, r, a);
      ServeBehind(s, v, k, r, a, ValueOf(v.memory, a));
    }
    HazardTurn(ServeCache(MOESI, s, k), ShadowServe(MOESI, s, v, k), k, j, r, a);
  }

  lemma {:induction false} HazardVersions(s: Sys, v: Values, k: nat, j: nat, r: nat, a: Addr)
    requires HazardInv(s, 0, j, r, a) && k <= |s.caches| && Fits(s, v) && BeforeStore(v, j, r, a)
    ensures var w := ShadowCaches(MOESI, s, v, k);
            && w.memory == v.memory
            && (if k <= j then BeforeStore(w, j, r, a) else Behind(w, r, a, ValueOf(w.memory, a)))
  {
    hide HazardInv, ServeCache, ReactCache, TickCache, ShadowServe, ShadowReact, BeforeStore, Behind;
    if k > 0 {
      HazardVersions(s, v, k - 1, j, r, a);
      HazardCaches(s, k - 1, j, r, a);
      CachesKeepSize(MOESI, s, k - 1);
      HazardVersionsTick(TickCaches(MOESI, s, k - 1), ShadowCaches(MOESI, s, v, k - 1), k - 1, j, r, a);
    }
  }

  lemma RequesterIdle(s: Sys, k: nat, j: nat, r: nat, a: Addr)
    requires HazardInv(s, k, j, r, a)
    ensures r < |s.caches| && s.caches[r].request.None?
  {
  }

  // ---------------------------------------------------------------- waiting for memory

  /** The versions beside LimpInv: once cache r has its DATA the log holds the load it answers. */
  ghost predicate LimpVersions(v: Values, k: nat, r: nat, a: Addr, data: bool, value: nat) {
    if data && r < k then !ReadsLastWrite(v.log)
    else Behind(v, r, a, value) && ValueOf(v.memory, a) == value && (data ==> v.wire == value)
  }

  lemma LimpVersionsServe(s: Sys, v: Values, k: nat, j: nat, r: nat, a: Addr, data: bool, value: nat)
    requires LimpInv(s, k, j, r, a, data) && k < |s.caches| && Fits(s, v) && LimpVersions(v, k, r, a, data, value)
    ensures LimpVersions(ShadowServe(MOESI, s, v, k), k, r, a, data, value)
  {
    hide LastStored, OnProcessor, Behind;
    if data && r < k {
      if s.caches[k].request.Some? {
        var op := s.caches[k].request.value;
        LogGrows(v, k, op, a);
        WrongStaysWrong(v.log, Commit(v, k, op).log);
      }
    } else {
      ServeBehind(s, v, k, r, a, value);
    }
  }

  lemma LimpVersionsReact(s: Sys, v: Values, k: nat, j: nat, r: nat, a: Addr, data: bool, value: nat)
    requires LimpInv(s, k, j, r, a, data) && k < |s.caches| && Fits(s, v) && LimpVersions(v, k, r, a, data, value)
    ensures LimpVersions(ShadowReact(MOESI, s, v, k), k + 1, r, a, data, value)
  {
    hide LastStored;
    if data && k == r {
      var log := ShadowReact(MOESI, s, v, k).log;
      assert log[|v.log|] == Loaded(r, a, value) && log[..|v.log|] == v.log;
    }
  }

  lemma {:induction false} LimpVersionsCaches(s: Sys, v: Values, k: nat, j: nat, r: nat, a: Addr,
                                              data: bool, value: nat)
    requires LimpInv(s, 0, j, r, a, data) && k <= |s.caches| && Fits(s, v) && LimpVersions(v, 0, r, a, data, value)
    ensures LimpVersions(ShadowCaches(MOESI, s, v, k), k, r, a, data, value)
  {
    hide LimpInv, LimpVersions, ServeCache, ReactCache, ShadowServe, ShadowReact;
    if k > 0 {
      LimpVersionsCaches(s, v, k - 1, j, r, a, data, value);
      LimpCaches(s, k - 1, j, r, a, data);
      CachesKeepSize(MOESI, s, k - 1);
      var x, w := TickCaches(MOESI, s, k - 1), ShadowCaches(MOESI, s, v, k - 1);
      LimpServe(x, k - 1, j, r, a, data);
      ServeTouchesLittle(MOESI, x, k - 1);
      LimpVersionsServe(x, w, k - 1, j, r, a, data, value);
      LimpVersionsReact(ServeCache(MOESI, x, k - 1), ShadowServe(MOESI, x, w, k - 1), k - 1, j, r, a, data, value);
    }
  }

  // ---------------------------------------------------------------- cycles

  lemma ProcsLeave(s: Sys, v: Values, r: nat, a: Addr, value: nat)
    requires Fits(s, v) && WaitsFor(s, r, a) && Behind(v, r, a, value)
    ensures var x := ShadowProcs(s, v);
            Behind(x, r, a, value) && x.memory == v.memory && x.wire == v.wire && x.log == v.log
  {
  }

  /** In the cycle of the hazard. */
  lemma HazardCycleVersions(cfg: Config, copies: bool, s: Sys, v: Values)
    requires cfg.hitTime >= 1 && EndInv(cfg, s) && Cycles.Danger(cfg, s) && WellSized(cfg, s) && s.bus.pending != []
    requires Fits(s, v) && Consistency.OpsInv(MOESI, s, v, cfg.nodes) && Bounded(v)
    ensures var q, x := s.bus.pending[0], ShadowCycle(cfg, copies, s, v);
            LimpVersions(x, 0, q.src, q.addr, false, ValueOf(x.memory, q.addr))
  {
    hide EndInv, Calm, AllCalm, Cycles.Danger, TickCaches, ShadowCaches, TickProcs, ShadowProcs, LastStored;
    DangerIsMoesi(cfg, s);
    var j := HazardBegins(cfg, s);
    var r, a := s.bus.pending[0].src, s.bus.pending[0].addr;
    var s0 := Grant(s);
    HazardCaches(s0, cfg.nodes, j, r, a);
    CachesTouchLittle(MOESI, s0, cfg.nodes);
    var s1, v1 := TickCaches(MOESI, s0, cfg.nodes), ShadowCaches(MOESI, s0, v, cfg.nodes);
    assert BeforeStore(v, j, r, a);
    HazardVersions(s0, v, cfg.nodes, j, r, a);
    ProcsLeave(s1, v1, r, a, ValueOf(v1.memory, a));
    CalmProcs(s1);
  }

  /** While memory is busy. */
  lemma WaitCycleVersions(cfg: Config, copies: bool, s: Sys, v: Values, j: nat, r: nat, a: Addr, value: nat)
    requires cfg.protocol == MOESI && Hurt(cfg, s, j, r, a) && s.bus.reply.None?
    requires Fits(s, v) && LimpVersions(v, 0, r, a, false, value)
    ensures WellSized(cfg, s)
    ensures LimpVersions(ShadowCycle(cfg, copies, s, v), 0, r, a, Cycle(cfg, s).bus.reply.Some?, value)
  {
    hide Calm, AllCalm, LastStored, Cycle, TickCaches, ShadowCaches, TickProcs, ShadowProcs;
    var s0 := Grant(s);
    Sized(s);
    CalmBus(s, s0);
    WaitCycle(cfg, s, j, r, a);
    LimpCaches(s0, cfg.nodes, j, r, a, false);
    LimpVersionsCaches(s0, v, cfg.nodes, j, r, a, false, value);
    CachesTouchLittle(MOESI, s0, cfg.nodes);
    var s1, v1 := TickCaches(MOESI, s0, cfg.nodes), ShadowCaches(MOESI, s0, v, cfg.nodes);
    CalmProcs(s1);
    ProcsLeave(s1, v1, r, a, value);
    assert TickProcs(s1).mem == s.mem && TickProcs(s1).bus.current.None?;
  }

  /** In the cycle of memory's DATA. */
  lemma DataCycleVersions(cfg: Config, copies: bool, s: Sys, v: Values, j: nat, r: nat, a: Addr, value: nat)
    requires cfg.protocol == MOESI && Hurt(cfg, s, j, r, a) && s.bus.reply.Some?
    requires Fits(s, v) && LimpVersions(v, 0, r, a, true, value)
    ensures WellSized(cfg, s) && !ReadsLastWrite(ShadowCycle(cfg, copies, s, v).log)
  {
    hide Calm, AllCalm, Behind, TickCaches, ShadowCaches, ReadsLastWrite;
    Sized(s);
    CalmBus(s, Grant(s));
    LimpVersionsCaches(Grant(s), v, cfg.nodes, j, r, a, true, value);
  }

  /** The load is answered when memory's DATA has arrived. */
  lemma {:induction false} LoadsTooEarly(cfg: Config, copies: bool, s: Sys, v: Values, j: nat, r: nat, a: Addr,
                                         d: nat, value: nat)
    requires cfg.protocol == MOESI && Hurt(cfg, s, j, r, a)
    requires d == (if s.bus.reply.Some? then 0 else s.mem.time - s.clock + 1)
    requires Fits(s, v) && LimpVersions(v, 0, r, a, s.bus.reply.Some?, value)
    ensures WellSized(cfg, s) && !ReadsLastWrite(ShadowAfter(cfg, copies, s, v, d + 1).log)
    decreases d
  {
    hide AllCalm, Cycle, ShadowCycle, LimpVersions, ReadsLastWrite;
    if s.bus.reply.Some? {
      DataCycleVersions(cfg, copies, s, v, j, r, a, value);
      assert After(cfg, s, 0) == s && ShadowAfter(cfg, copies, s, v, 0) == v;
    } else {
      WaitCycle(cfg, s, j, r, a);
      WaitCycleVersions(cfg, copies, s, v, j, r, a, value);
      LoadsTooEarly(cfg, copies, Cycle(cfg, s), ShadowCycle(cfg, copies, s, v), j, r, a, d - 1, value);
      ShadowShift(cfg, copies, s, v, d);
    }
  }

  lemma {:induction false} ShadowShift(cfg: Config, copies: bool, s: Sys, v: Values, m: nat)
    requires WellSized(cfg, s) && Fits(s, v)
    ensures ShadowAfter(cfg, copies, Cycle(cfg, s), ShadowCycle(cfg, copies, s, v), m)
            == ShadowAfter(cfg, copies, s, v, m + 1)
  {
    hide Cycle, ShadowCycle;
    if m > 0 {
      ShadowShift(cfg, copies, s, v, m - 1);
      AfterShift(cfg, s, m - 1);
    } else {
      assert After(cfg, s, 0) == s;
      assert ShadowAfter(cfg, copies, s, v, 0) == v;
    }
  }

  lemma {:induction false} ShadowSum(cfg: Config, copies: bool, s: Sys, v: Values, m: nat, d: nat)
    requires WellSized(cfg, s) && Fits(s, v)
    ensures ShadowAfter(cfg, copies, After(cfg, s, m), ShadowAfter(cfg, copies, s, v, m), d)
            == ShadowAfter(cfg, copies, s, v, m + d)
  {
    hide Cycle, ShadowCycle;
    if d > 0 {
      ShadowSum(cfg, copies, s, v, m, d - 1);
      AfterSum(cfg, s, m, d - 1);
    }
  }

  // ---------------------------------------------------------------- the exact condition

  /** The first hazard of a run, in the cycle that follows m cycles: hitTime + 2 cycles later
      a load has returned a version older than the last store to its line. */
  lemma HazardBreaksCoherence(cfg: Config, copies: bool, traces: seq<seq<Op>>, m: nat)
    requires cfg.hitTime >= 1 && |traces| == cfg.nodes
    requires Cycles.Safe(cfg, Initial(traces), m) && Cycles.Danger(cfg, After(cfg, Initial(traces), m))
    ensures !ReadsLastWrite(ShadowAfter(cfg, copies, Initial(traces), ShadowInitial(cfg.nodes),
                                        m + cfg.hitTime + 2).log)
  {
    hide EndInv, Consistency.ValuesInv, Consistency.OpsInv, Bounded, LimpVersions, Hurt, Cycles.Danger, After, Cycle,
         ShadowAfter, ShadowCycle, ReadsLastWrite;
    var s, v := After(cfg, Initial(traces), m), ShadowAfter(cfg, copies, Initial(traces), ShadowInitial(cfg.nodes), m);
    Cycles.ReachableOk(cfg, traces, m);
    DangerIsMoesi(cfg, s);
    Coherence.ShadowFollows(cfg, copies, traces, m);
    AlwaysBounded(cfg, copies, traces, m);
    var j := HazardCycle(cfg, s);
    HazardCycleVersions(cfg, copies, s, v);
    Cycles.AfterNext(cfg, Initial(traces), m);
    ShadowNext(cfg, copies, Initial(traces), ShadowInitial(cfg.nodes), m);
    var x, w, q := Cycle(cfg, s), ShadowCycle(cfg, copies, s, v), s.bus.pending[0];
    LoadsTooEarly(cfg, copies, x, w, j, q.src, q.addr, cfg.hitTime, ValueOf(w.memory, q.addr));
    ShadowSum(cfg, copies, Initial(traces), ShadowInitial(cfg.nodes), m + 1, cfg.hitTime + 1);
  }

  lemma ShadowNext(cfg: Config, copies: bool, s: Sys, v: Values, m: nat)
    requires WellSized(cfg, s) && Fits(s, v)
    ensures ShadowAfter(cfg, copies, s, v, m + 1)
            == ShadowCycle(cfg, copies, After(cfg, s, m), ShadowAfter(cfg, copies, s, v, m))
  {
  }

  /** Reads of a MOESI run are coherent if and only if no OM line ever snoops another
      cache's GETS in it, whether or not memory copies DATA. */
  lemma CoherentExactly(cfg: Config, copies: bool, traces: seq<seq<Op>>)
    requires cfg.protocol == MOESI && cfg.hitTime >= 1 && |traces| == cfg.nodes
    ensures (forall m: nat :: ReadsLastWrite(ShadowAfter(cfg, copies, Initial(traces),
                                                         ShadowInitial(cfg.nodes), m).log))
            <==> (forall m: nat :: !Cycles.Danger(cfg, After(cfg, Initial(traces), m)))
  {
    hide Cycles.Danger, After, ShadowAfter, ReadsLastWrite;
    if forall m: nat :: !Cycles.Danger(cfg, After(cfg, Initial(traces), m)) {
      forall m: nat
        ensures ReadsLastWrite(ShadowAfter(cfg, copies, Initial(traces), ShadowInitial(cfg.nodes), m).log)
      {
        Coherence.SequentiallyConsistent(cfg, copies, traces, m);
      }
    } else {
      var d: nat :| Cycles.Danger(cfg, After(cfg, Initial(traces), d));
      var m := FirstDanger(cfg, traces, d);
      HazardBreaksCoherence(cfg, copies, traces, m);
    }
  }
}
