/** MOESI as written has a single writer exactly as long as no OM line snoops another
    cache's GETS. When one does, it answers its own processor and becomes M while its GETM is
    still queued, memory answers the GETS, and the requester ends up in S beside the M. */
module MoesiHazard {
  import opened Messages
  import opened Reactions
  import opened Protocols
  import opened Machine
  import opened Invariant
  import opened Liveness
  import opened Progress
  import Steps
  import Cycles
  import Safety
  import L = LineMachine

  // ---------------------------------------------------------------- a weaker invariant

  ghost predicate AllCalm(s: Sys) {
    && |s.caches| == |s.procs| && !s.failed
    && forall i :: 0 <= i < |s.caches| ==> Calm(MOESI, s.caches[i], s.procs[i])
  }

  /** Cache r waits for line a. */
  ghost predicate WaitsFor(s: Sys, r: nat, a: Addr) {
    && r < |s.caches| == |s.procs|
    && StateOf(s.caches[r], a) == ISE && (forall b :: b != a ==> !Transient(StateOf(s.caches[r], b)))
    && s.caches[r].request.None?
    && s.procs[r].outstanding && s.procs[r].inbound.None? && s.procs[r].buffer.None?
  }

  // ---------------------------------------------------------------- serving

  /** How a tick's first half may change the line of the cache that ticks. */
  lemma ServeTable(st: LineState, store: bool)
    requires Legal(MOESI, st) && !Transient(st)
    ensures var r := OnProcessor(MOESI, st, store);
            && r.answer != Abort && Legal(MOESI, r.next)
            && (r.answer == Hit ==> !Transient(r.next))
            && (st == M ==> r.answer == Hit && r.next == M)
            && Owner(r.next) == Owner(st)
            && (st == O && store ==> r.next == OM && r.answer == AskModified)
  {
  }

  lemma CalmServe(s: Sys, k: nat)
    requires AllCalm(s) && k < |s.caches|
    ensures var x := ServeCache(MOESI, s, k);
            && AllCalm(x) && TouchesLittle(s, x, k + 1) && x.bus.reply == s.bus.reply && x.caches[k].request.None?
            && (s.bus.shared ==> x.bus.shared)
            && (forall i :: 0 <= i < |s.caches| && i != k ==> x.caches[i] == s.caches[i] && x.procs[i] == s.procs[i])
            && (s.caches[k].request.None? ==> x.caches[k] == s.caches[k] && x.procs[k] == s.procs[k])
  {
    hide OnProcessor, ServeCache, Legal, Transient;
    if s.caches[k].request.Some? {
      var op := s.caches[k].request.value;
      assert Calm(MOESI, s.caches[k], s.procs[k]);
      ServeShape(MOESI, s, k);
      ServeTouchesLittle(MOESI, s, k);
      ServeRaises(MOESI, s, k);
      LegalServed(MOESI, StateOf(s.caches[k], op.addr), op.Store?);
      var x, r := ServeCache(MOESI, s, k), OnProcessor(MOESI, StateOf(s.caches[k], op.addr), op.Store?);
      assert forall b :: StateOf(x.caches[k], b) == if b == op.addr then r.next else StateOf(s.caches[k], b);
      assert Calm(MOESI, x.caches[k], x.procs[k]);
    } else {
      Steps.IdleServe(MOESI, s, k);
    }
  }

  lemma ServeRaises(p: Protocol, s: Sys, k: nat)
    requires |s.caches| == |s.procs| && k < |s.caches|
    ensures s.bus.shared ==> ServeCache(p, s, k).bus.shared
  {
    hide OnProcessor;
  }

  lemma CalmServeLine(s: Sys, k: nat, a: Addr)
    requires AllCalm(s) && k < |s.caches|
    ensures |ServeCache(MOESI, s, k).caches| == |s.caches| == |ServeCache(MOESI, s, k).procs|
    ensures var c, c' := s.caches[k], ServeCache(MOESI, s, k).caches[k];
            && (StateOf(c, a) == M ==> StateOf(c', a) == M)
            && (!Owner(StateOf(c, a)) ==> !Owner(StateOf(c', a)))
            && (WillBeOm(c, a) && (forall b :: b != a ==> !Transient(StateOf(c, b))) ==>
                  && StateOf(c', a) == OM && (forall b :: b != a ==> !Transient(StateOf(c', b)))
                  && (s.procs[k].buffer.None? ==> ServeCache(MOESI, s, k).procs[k].buffer.None?))
  {
    hide OnProcessor;
    var c := s.caches[k];
    assert Calm(MOESI, c, s.procs[k]);
    if c.request.Some? {
      var op := c.request.value;
      ServeTable(StateOf(c, op.addr), op.Store?);
      var x := ServeCache(MOESI, s, k);
      assert forall b :: StateOf(x.caches[k], b) ==
                         if b == op.addr then OnProcessor(MOESI, StateOf(c, op.addr), op.Store?).next
                           else StateOf(c, b);
    } else {
      Steps.IdleServe(MOESI, s, k);
    }
  }

  // ---------------------------------------------------------------- the cycle of the GETS

  /** Cache j holds line a in OM, or will when it ticks; its other lines are stable. */
  ghost predicate AboutToBreak(s: Sys, j: nat, a: Addr) {
    && j < |s.caches| == |s.procs|
    && WillBeOm(s.caches[j], a) && (forall b :: b != a ==> !Transient(StateOf(s.caches[j], b)))
    && s.procs[j].outstanding && s.procs[j].inbound.None? && s.procs[j].buffer.None?
  }

  ghost predicate Broken(s: Sys, j: nat, a: Addr) {
    j < |s.caches| == |s.procs| && StateOf(s.caches[j], a) == M && s.bus.shared
  }

  ghost predicate HazardInv(s: Sys, k: nat, j: nat, r: nat, a: Addr) {
    && AllCalm(s) && WaitsFor(s, r, a) && j != r
    && s.bus.current == Some(Mreq(GETS, a, r, None)) && s.bus.reply.None? && s.bus.inProgress
    && (forall i :: 0 <= i < |s.caches| && i != j ==> !Owner(StateOf(s.caches[i], a)))
    && (if k <= j then AboutToBreak(s, j, a) else Broken(s, j, a))
  }

  lemma SnoopTable(st: LineState, own: bool, shared: bool)
    requires Legal(MOESI, st) && !Owner(st)
    ensures var r := OnSnoop(MOESI, st, GETS, own, shared);
            && !r.abort && !r.supply && !r.fill && r.next == st
  {
  }

  lemma HazardReact(s: Sys, k: nat, j: nat, r: nat, a: Addr)
    requires HazardInv(s, k, j, r, a) && k < |s.caches| && s.caches[k].request.None?
    ensures HazardInv(ReactCache(MOESI, s, k), k + 1, j, r, a)
  {
    var st := StateOf(s.caches[k], a);
    var x := ReactCache(MOESI, s, k);
    assert Calm(MOESI, s.caches[k], s.procs[k]);
    if k == j {
      assert st == OM;
      assert forall b :: StateOf(x.caches[k], b) == if b == a then M else StateOf(s.caches[k], b);
      assert Calm(MOESI, x.caches[k], x.procs[k]);
    } else {
      SnoopTable(st, r == k, s.bus.shared);
      assert forall b :: StateOf(x.caches[k], b) == StateOf(s.caches[k], b);
      assert Calm(MOESI, x.caches[k], x.procs[k]);
    }
  }

  lemma HazardServe(s: Sys, k: nat, j: nat, r: nat, a: Addr)
    requires HazardInv(s, k, j, r, a) && k < |s.caches|
    ensures HazardInv(ServeCache(MOESI, s, k), k, j, r, a) && ServeCache(MOESI, s, k).caches[k].request.None?
  {
    hide ServeCache, Calm;
    CalmServe(s, k);
    CalmServeLine(s, k, a);
  }

  lemma HazardTick(s: Sys, k: nat, j: nat, r: nat, a: Addr)
    requires HazardInv(s, k, j, r, a) && k < |s.caches| == |s.procs|
    ensures HazardInv(TickCache(MOESI, s, k), k + 1, j, r, a)
  {
    hide HazardInv, ServeCache, ReactCache;
    HazardServe(s, k, j, r, a);
    ServeTouchesLittle(MOESI, s, k);
    HazardReact(ServeCache(MOESI, s, k), k, j, r, a);
  }

  lemma {:induction false} HazardCaches(s: Sys, k: nat, j: nat, r: nat, a: Addr)
    requires HazardInv(s, 0, j, r, a) && k <= |s.caches|
    ensures HazardInv(TickCaches(MOESI, s, k), k, j, r, a)
  {
    hide HazardInv, TickCache;
    HazardSized(s, 0, j, r, a);
    if k > 0 {
      HazardCaches(s, k - 1, j, r, a);
      CachesTouchLittle(MOESI, s, k - 1);
      HazardTick(TickCaches(MOESI, s, k - 1), k - 1, j, r, a);
    }
  }

  lemma HazardSized(s: Sys, k: nat, j: nat, r: nat, a: Addr)
    requires HazardInv(s, k, j, r, a)
    ensures |s.caches| == |s.procs|
  {
  }

  // ---------------------------------------------------------------- from the invariant to the hazard

  lemma CalmFromInv(cfg: Config, s: Sys, i: nat)
    requires EndInv(cfg, s) && cfg.protocol == MOESI && i < cfg.nodes
    ensures Calm(MOESI, s.caches[i], s.procs[i])
  {
    hide QueueOk, MissesOk, BusEnd, L.SingleWriter, L.OwnedIsShared, L.Snooped;
    forall b ensures Legal(MOESI, StateOf(s.caches[i], b)) {
      assert L.LineInv(MOESI, Column(s, b), TxnAt(s, cfg.nodes, b));
      assert Column(s, b)[i] == StateOf(s.caches[i], b);
    }
    assert Places(s, cfg.nodes, i) == One(s.procs[i].outstanding);
    if Queued(s.bus.pending, i) == 0 && !(Holder(s, cfg.nodes).Some? && Holder(s, cfg.nodes).value.req == i) {
      forall b ensures !Transient(StateOf(s.caches[i], b)) {
        NoGetNoTransient(s, cfg.nodes, i, b);
      }
    }
  }

  lemma OthersDoNotOwn(cfg: Config, s: Sys, j: nat, i: nat, a: Addr)
    requires EndInv(cfg, s) && i < cfg.nodes && j < cfg.nodes && i != j
    requires Owner(StateOf(s.caches[j], a))
    ensures !Owner(StateOf(s.caches[i], a))
  {
    hide TokensOk, TransientOk, QueueOk, MissesOk, BusEnd, L.OwnedIsShared, L.Snooped;
    var col := Column(s, a);
    assert L.LineInv(cfg.protocol, col, TxnAt(s, cfg.nodes, a));
    assert col[i] == StateOf(s.caches[i], a) && col[j] == StateOf(s.caches[j], a);
  }

  lemma HazardVictim(cfg: Config, s: Sys, j: nat, a: Addr)
    requires EndInv(cfg, s) && cfg.protocol == MOESI && j < cfg.nodes && WillBeOm(s.caches[j], a)
    ensures AboutToBreak(s, j, a)
  {
    hide LinesOk, QueueOk, MissesOk, BusEnd, TransientOk;
    CalmFromInv(cfg, s, j);
    forall b | b != a ensures !Transient(StateOf(s.caches[j], b)) {
      if Transient(StateOf(s.caches[j], b)) && Transient(StateOf(s.caches[j], a)) {
        Safety.AtMostOneGet(cfg, s, j, a, b);
      }
    }
    if StateOf(s.caches[j], a) == OM {
      Safety.AtMostOneGet(cfg, s, j, a, a);
    }
  }

  lemma HazardBegins(cfg: Config, s: Sys) returns (j: nat)
    requires EndInv(cfg, s) && Cycles.Danger(cfg, s)
    ensures !s.bus.inProgress && s.bus.pending != []
    ensures WellSized(cfg, s) && j < cfg.nodes && s.bus.pending[0].src < cfg.nodes
    ensures HazardInv(Grant(s), 0, j, s.bus.pending[0].src, s.bus.pending[0].addr)
  {
    hide LinesOk, TransientOk, MissesOk, Calm;
    var q := s.bus.pending[0];
    assert q in s.bus.pending;
    var s0 := Grant(s);
    j :| 0 <= j < |s0.caches| && WillBeOm(s0.caches[j], q.addr);
    HazardVictim(cfg, s, j, q.addr);
    forall i | 0 <= i < cfg.nodes ensures Calm(MOESI, s.caches[i], s.procs[i]) {
      CalmFromInv(cfg, s, i);
    }
    forall i | 0 <= i < cfg.nodes && i != j ensures !Owner(StateOf(s.caches[i], q.addr)) {
      OthersDoNotOwn(cfg, s, j, i, q.addr);
    }
    assert Places(s, cfg.nodes, q.src) == One(s.procs[q.src].outstanding);
    QueuedNone(s.bus.pending, q.src);
    RequesterIsIse(cfg, s, q);
    forall b | b != q.addr ensures !Transient(StateOf(s.caches[q.src], b)) {
      if Transient(StateOf(s.caches[q.src], b)) {
        Safety.AtMostOneGet(cfg, s, q.src, q.addr, b);
      }
    }
  }

  lemma RequesterIsIse(cfg: Config, s: Sys, q: Mreq)
    requires EndInv(cfg, s) && cfg.protocol == MOESI && q in s.bus.pending && q.msg == GETS
    ensures q.src < cfg.nodes && StateOf(s.caches[q.src], q.addr) == ISE
  {
    hide TransientOk, TokensOk, MissesOk;
    CalmFromInv(cfg, s, q.src);
  }

  // ---------------------------------------------------------------- the rest of a cycle

  /** After the hazard: M at cache j while cache r waits for memory's DATA. */
  ghost predicate Hurt(cfg: Config, s: Sys, j: nat, r: nat, a: Addr) {
    && AllCalm(s) && BuffersEmpty(s) && |s.procs| == cfg.nodes && WaitsFor(s, r, a) && Broken(s, j, a) && j != r
    && s.bus.inProgress && s.mem.addr == a && s.mem.target == r
    && (if s.bus.reply.None? then s.mem.busy && s.clock <= s.mem.time
        else s.bus.reply == Some(Mreq(DATA, a, cfg.nodes, Some(r))))
  }

  lemma CalmProcs(s: Sys)
    requires AllCalm(s)
    ensures AllCalm(TickProcs(s)) && TickProcs(s).bus == s.bus && TickProcs(s).mem == s.mem
            && TickProcs(s).clock == s.clock
    ensures forall i :: 0 <= i < |s.caches| ==> TickProcs(s).caches[i].lines == s.caches[i].lines
    ensures forall i :: 0 <= i < |s.procs| && s.procs[i].outstanding && s.procs[i].inbound.None? ==>
              TickProcs(s).procs[i] == s.procs[i] && TickProcs(s).caches[i] == s.caches[i]
  {
    var x := TickProcs(s);
    forall i | 0 <= i < |x.caches| ensures Calm(MOESI, x.caches[i], x.procs[i]) {
      assert Calm(MOESI, s.caches[i], s.procs[i]);
      assert forall b :: StateOf(x.caches[i], b) == StateOf(s.caches[i], b);
    }
  }

  lemma CalmTocks(s: Sys)
    requires AllCalm(s)
    ensures AllCalm(TockProcs(s)) && BuffersEmpty(TockProcs(s))
    ensures TockProcs(s).bus == s.bus && TockProcs(s).mem == s.mem && TockProcs(s).clock == s.clock
            && TockProcs(s).caches == s.caches
    ensures forall i :: 0 <= i < |s.procs| && s.procs[i].buffer.None? ==> TockProcs(s).procs[i] == s.procs[i]
  {
    var x := TockProcs(s);
    forall i | 0 <= i < |x.caches| ensures Calm(MOESI, x.caches[i], x.procs[i]) {
      assert Calm(MOESI, s.caches[i], s.procs[i]);
    }
  }

  lemma HazardCycle(cfg: Config, s: Sys) returns (j: nat)
    requires cfg.hitTime >= 1 && EndInv(cfg, s) && Cycles.Danger(cfg, s)
    ensures WellSized(cfg, s) && s.bus.pending != [] && j < cfg.nodes && s.bus.pending[0].src < cfg.nodes
    ensures var x := Cycle(cfg, s);
            && Hurt(cfg, x, j, s.bus.pending[0].src, s.bus.pending[0].addr)
            && x.bus.reply.None? && x.mem.time == s.clock + cfg.hitTime && x.clock == s.clock + 1
  {
    hide Core, AllCalm, TickCaches, TickProcs, TockProcs, Calm, Cycles.Danger;
    j := HazardBegins(cfg, s);
    var q := s.bus.pending[0];
    var s0 := Grant(s);
    HazardCaches(s0, cfg.nodes, j, q.src, q.addr);
    CachesTouchLittle(MOESI, s0, cfg.nodes);
    var s1 := TickCaches(MOESI, s0, cfg.nodes);
    CalmProcs(s1);
    var s2 := TickProcs(s1);
    Sized(s1);
    Sized(s2);
    IdleMemory(cfg, s);
    var s3 := TickMem(cfg, s2);
    CalmMem(s2, s3);
    CalmTocks(s3);
    Sized(TockProcs(s3));
    DangerIsMoesi(cfg, s);
    CalmMem(TockProcs(s3), Cycle(cfg, s));
  }

  lemma DangerIsMoesi(cfg: Config, s: Sys)
    requires Cycles.Danger(cfg, s)
    ensures cfg.protocol == MOESI && !s.failed
  {
  }

  lemma IdleMemory(cfg: Config, s: Sys)
    requires EndInv(cfg, s) && !s.bus.inProgress
    ensures !s.mem.busy && WellSized(cfg, s) && !s.failed
  {
  }

  lemma Sized(s: Sys)
    requires AllCalm(s)
    ensures |s.caches| == |s.procs| && !s.failed
  {
  }

  lemma CalmMem(s: Sys, s': Sys)
    requires AllCalm(s) && s'.caches == s.caches && s'.procs == s.procs && !s'.failed
    ensures AllCalm(s')
  {
  }

  // ---------------------------------------------------------------- waiting for memory

  /** The caches' part of a cycle in which no GET is on the bus; `data` says that the DATA
      for cache r is. */
  ghost predicate LimpInv(s: Sys, k: nat, j: nat, r: nat, a: Addr, data: bool) {
    && AllCalm(s) && r < |s.caches| && Broken(s, j, a) && j != r && s.bus.reply.None?
    && (if data then s.bus.current.Some? && s.bus.current.value.msg == DATA && s.bus.current.value.addr == a
                     && s.bus.current.value.dest == Some(r)
        else s.bus.current.None?)
    && (if data && r < k then StateOf(s.caches[r], a) == S else WaitsFor(s, r, a))
  }

  lemma LimpServe(s: Sys, k: nat, j: nat, r: nat, a: Addr, data: bool)
    requires LimpInv(s, k, j, r, a, data) && k < |s.caches|
    ensures LimpInv(ServeCache(MOESI, s, k), k, j, r, a, data)
  {
    hide ServeCache, Calm;
    CalmServe(s, k);
    CalmServeLine(s, k, a);
  }

  lemma LimpReact(s: Sys, k: nat, j: nat, r: nat, a: Addr, data: bool)
    requires LimpInv(s, k, j, r, a, data) && k < |s.caches|
    ensures LimpInv(ReactCache(MOESI, s, k), k + 1, j, r, a, data)
  {
    var x := ReactCache(MOESI, s, k);
    if data && k == r {
      assert Calm(MOESI, s.caches[r], s.procs[r]);
      assert forall b :: StateOf(x.caches[r], b) == if b == a then S else StateOf(s.caches[r], b);
      assert Calm(MOESI, x.caches[r], x.procs[r]);
    } else {
      assert s.caches[k := s.caches[k]] == s.caches;
      assert s.procs[k := s.procs[k].(buffer := s.procs[k].buffer)] == s.procs;
    }
  }

  lemma LimpTick(s: Sys, k: nat, j: nat, r: nat, a: Addr, data: bool)
    requires LimpInv(s, k, j, r, a, data) && k < |s.caches| == |s.procs|
    ensures LimpInv(TickCache(MOESI, s, k), k + 1, j, r, a, data)
  {
    hide LimpInv, ServeCache, ReactCache;
    LimpServe(s, k, j, r, a, data);
    ServeTouchesLittle(MOESI, s, k);
    LimpReact(ServeCache(MOESI, s, k), k, j, r, a, data);
  }

  lemma {:induction false} LimpCaches(s: Sys, k: nat, j: nat, r: nat, a: Addr, data: bool)
    requires LimpInv(s, 0, j, r, a, data) && |s.caches| == |s.procs| && k <= |s.caches|
    ensures LimpInv(TickCaches(MOESI, s, k), k, j, r, a, data)
  {
    hide LimpInv, TickCache;
    if k > 0 {
      LimpCaches(s, k - 1, j, r, a, data);
      LimpTick(TickCaches(MOESI, s, k - 1), k - 1, j, r, a, data);
    }
  }

  lemma WaitCycle(cfg: Config, s: Sys, j: nat, r: nat, a: Addr)
    requires cfg.protocol == MOESI && Hurt(cfg, s, j, r, a) && s.bus.reply.None?
    ensures WellSized(cfg, s)
    ensures var x := Cycle(cfg, s);
            && Hurt(cfg, x, j, r, a)
            && (if s.clock < s.mem.time then x.bus.reply.None? && x.mem.time == s.mem.time && x.clock == s.clock + 1
                else x.bus.reply.Some?)
  {
    hide Calm, TickCaches, TickProcs, TockProcs;
    var s0 := Grant(s);
    CalmBus(s, s0);
    LimpCaches(s0, cfg.nodes, j, r, a, false);
    CachesTouchLittle(MOESI, s0, cfg.nodes);
    var s1 := TickCaches(MOESI, s0, cfg.nodes);
    CalmProcs(s1);
    var s2 := TickProcs(s1);
    var s3 := TickMem(cfg, s2);
    CalmBus(s2, s3);
    CalmTocks(s3);
    CalmBus(TockProcs(s3), Cycle(cfg, s));
  }

  lemma CalmBus(s: Sys, s': Sys)
    requires AllCalm(s) && s'.caches == s.caches && s'.procs == s.procs && !s'.failed
    ensures AllCalm(s')
  {
  }

  lemma DataCycle(cfg: Config, s: Sys, j: nat, r: nat, a: Addr)
    requires cfg.protocol == MOESI && Hurt(cfg, s, j, r, a) && s.bus.reply.Some?
    ensures WellSized(cfg, s) && r < cfg.nodes && j < cfg.nodes
    ensures StateOf(Cycle(cfg, s).caches[j], a) == M && StateOf(Cycle(cfg, s).caches[r], a) == S
  {
    hide Calm, TickCaches, TickProcs, TockProcs;
    var s0 := Grant(s);
    CalmBus(s, s0);
    LimpCaches(s0, cfg.nodes, j, r, a, true);
    CachesTouchLittle(MOESI, s0, cfg.nodes);
    var s1 := TickCaches(MOESI, s0, cfg.nodes);
    CalmProcs(s1);
    var s2 := TickProcs(s1);
    var s3 := TickMem(cfg, s2);
    CalmBus(s2, s3);
    CalmTocks(s3);
  }

  /** Memory's DATA arrives after the cycles it still needs. */
  lemma {:induction false} HurtEnds(cfg: Config, s: Sys, j: nat, r: nat, a: Addr, d: nat)
    requires cfg.protocol == MOESI && Hurt(cfg, s, j, r, a)
    requires d == (if s.bus.reply.Some? then 0 else s.mem.time - s.clock + 1)
    ensures WellSized(cfg, s) && r < cfg.nodes && j < cfg.nodes && r != j
    ensures StateOf(After(cfg, s, d + 1).caches[j], a) == M && StateOf(After(cfg, s, d + 1).caches[r], a) == S
    decreases d
  {
    hide AllCalm, Cycle;
    if s.bus.reply.Some? {
      DataCycle(cfg, s, j, r, a);
      assert After(cfg, s, 1) == Cycle(cfg, After(cfg, s, 0));
    } else {
      WaitCycle(cfg, s, j, r, a);
      var x := Cycle(cfg, s);
      HurtEnds(cfg, x, j, r, a, d - 1);
      AfterShift(cfg, s, d);
    }
  }

  lemma {:induction false} AfterShift(cfg: Config, s: Sys, m: nat)
    requires WellSized(cfg, s)
    ensures After(cfg, Cycle(cfg, s), m) == After(cfg, s, m + 1)
  {
    hide Cycle;
    if m > 0 {
      AfterShift(cfg, s, m - 1);
    }
  }

  lemma {:induction false} AfterSum(cfg: Config, s: Sys, m: nat, d: nat)
    requires WellSized(cfg, s)
    ensures After(cfg, After(cfg, s, m), d) == After(cfg, s, m + d)
  {
    hide Cycle;
    if d > 0 {
      AfterSum(cfg, s, m, d - 1);
    }
  }

  // ---------------------------------------------------------------- the exact condition

  /** The first hazard of a run, in the cycle that follows m cycles, leaves one cache with
      the line in M and another with it in S hitTime + 2 cycles later. */
  lemma HazardBreaksSingleWriter(cfg: Config, traces: seq<seq<Op>>, m: nat) returns (i: nat, j: nat, a: Addr)
    requires cfg.hitTime >= 1 && |traces| == cfg.nodes
    requires Cycles.Safe(cfg, Initial(traces), m) && Cycles.Danger(cfg, After(cfg, Initial(traces), m))
    ensures i < cfg.nodes && j < cfg.nodes && i != j
    ensures var s := After(cfg, Initial(traces), m + cfg.hitTime + 2);
            StateOf(s.caches[j], a) == M && StateOf(s.caches[i], a) == S
  {
    hide EndInv, Hurt, Cycles.Danger, Cycle, After;
    var s := After(cfg, Initial(traces), m);
    Cycles.ReachableOk(cfg, traces, m);
    DangerIsMoesi(cfg, s);
    j := HazardCycle(cfg, s);
    i := s.bus.pending[0].src;
    a := s.bus.pending[0].addr;
    var x := Cycle(cfg, s);
    HurtEnds(cfg, x, j, i, a, cfg.hitTime);
    Cycles.AfterNext(cfg, Initial(traces), m);
    AfterSum(cfg, Initial(traces), m + 1, cfg.hitTime + 1);
  }

  /** MOESI keeps a single writer in a run if and only if no OM line ever snoops another
      cache's GETS in it. */
  lemma MoesiExactCondition(cfg: Config, traces: seq<seq<Op>>)
    requires cfg.protocol == MOESI && cfg.hitTime >= 1 && |traces| == cfg.nodes
    ensures (forall m: nat, a: Addr :: Safety.SingleWriterAt(MOESI, After(cfg, Initial(traces), m), a))
            <==> (forall m: nat :: !Cycles.Danger(cfg, After(cfg, Initial(traces), m)))
  {
    hide Cycles.Danger, After, Cycle, Safety.SingleWriterAt;
    if forall m: nat :: !Cycles.Danger(cfg, After(cfg, Initial(traces), m)) {
      forall m: nat, a: Addr ensures Safety.SingleWriterAt(MOESI, After(cfg, Initial(traces), m), a) {
        Safety.SingleWriter(cfg, traces, m, a);
      }
    } else {
      var d: nat :| Cycles.Danger(cfg, After(cfg, Initial(traces), d));
      var m := FirstDanger(cfg, traces, d);
      var i, j, a := HazardBreaksSingleWriter(cfg, traces, m);
      BothHold(After(cfg, Initial(traces), m + cfg.hitTime + 2), i, j, a);
    }
  }

  lemma BothHold(s: Sys, i: nat, j: nat, a: Addr)
    requires i < |s.caches| && j < |s.caches| && i != j
    requires StateOf(s.caches[j], a) == M && StateOf(s.caches[i], a) == S
    ensures !Safety.SingleWriterAt(MOESI, s, a)
  {
    assert s.caches[j] == s.caches[j] && s.caches[i] == s.caches[i];
  }

  lemma {:induction false} FirstDanger(cfg: Config, traces: seq<seq<Op>>, d: nat) returns (m: nat)
    requires |traces| == cfg.nodes
    requires Cycles.Danger(cfg, After(cfg, Initial(traces), d))
    ensures m <= d && Cycles.Safe(cfg, Initial(traces), m) && Cycles.Danger(cfg, After(cfg, Initial(traces), m))
    decreases d
  {
    hide Cycles.Danger, After;
    if Cycles.Safe(cfg, Initial(traces), d) {
      m := d;
    } else {
      var e :| 0 <= e < d && Cycles.Danger(cfg, After(cfg, Initial(traces), e));
      m := FirstDanger(cfg, traces, e);
    }
  }
}
