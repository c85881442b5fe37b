/** A GET from its grant to its DATA: exactly one module answers it, memory answers if and
    only if no cache does, and the shared line keeps the answer given by the other caches. */
module Transactions {
  import opened Messages
  import opened Reactions
  import opened Protocols
  import opened Machine
  import opened Invariant
  import opened Progress
  import opened Waiting
  import Steps
  import Cycles
  import L = LineMachine

  ghost predicate OwnedBy(s: Sys, i: nat, a: Addr) {
    i < |s.caches| && Owner(StateOf(s.caches[i], a))
  }

  /** A cache other than r raises the shared line for line a. */
  ghost predicate RaisedBy(s: Sys, r: nat, i: nat, a: Addr) {
    i < |s.caches| && i != r && Raises(StateOf(s.caches[i], a))
  }

  // ---------------------------------------------------------------- the cycle of the GET

  lemma ServeKeepsClass(p: Protocol, st: LineState, store: bool)
    requires Legal(p, st) && !Transient(st)
    ensures var r := OnProcessor(p, st, store);
            && Owner(r.next) == Owner(st)
            && (p == MESI ==> Raises(r.next) == Raises(st) && !r.raise)
  {
  }

  lemma ServedStates(cfg: Config, s: Sys, k: nat, a: Addr)
    requires MidInv(cfg, s, k) && k < cfg.nodes
    ensures var st, st' := StateOf(s.caches[k], a), StateOf(ServeCache(cfg.protocol, s, k).caches[k], a);
            && Owner(st') == Owner(st)
            && (cfg.protocol == MESI ==> Raises(st') == Raises(st))
    ensures cfg.protocol == MESI ==> ServeCache(cfg.protocol, s, k).bus.shared == s.bus.shared
    ensures s.bus.shared ==> ServeCache(cfg.protocol, s, k).bus.shared
    ensures ServeCache(cfg.protocol, s, k).bus.reply == s.bus.reply
  {
    hide LinesOk, TokensOk, QueueOk, TransientOk, MissesOk, BusMid, OmDanger, OnProcessor;
    if s.caches[k].request.Some? {
      Steps.ServeFacts(cfg, s, k);
      var op := s.caches[k].request.value;
      ServeKeepsClass(cfg.protocol, StateOf(s.caches[k], op.addr), op.Store?);
    } else {
      Steps.IdleServe(cfg.protocol, s, k);
    }
  }

  lemma MesiRaise(st: LineState, msg: Msg, own: bool, shared: bool)
    requires Legal(MESI, st) && msg != DATA
    ensures OnSnoop(MESI, st, msg, own, shared).raise == Raises(st)
  {
  }

  lemma ReactedBus(cfg: Config, s: Sys, k: nat)
    requires MidInv(cfg, s, k) && k < cfg.nodes && Steps.SnoopsGet(s)
    ensures var q := s.bus.current.value;
            var x := ReactCache(cfg.protocol, s, k);
            && x.bus.reply == (if OwnedBy(s, k, q.addr) then Some(Mreq(DATA, q.addr, k, Some(q.src))) else s.bus.reply)
            && (OwnedBy(s, k, q.addr) ==> s.bus.reply.None?)
            && (cfg.protocol == MESI ==> x.bus.shared == (s.bus.shared || Raises(StateOf(s.caches[k], q.addr))))
  {
    hide LinesOk, TokensOk, QueueOk, TransientOk, MissesOk, OmDanger, OnSnoop;
    Steps.GetFacts(cfg, s, k);
    var q := s.bus.current.value;
    if cfg.protocol == MESI {
      MesiRaise(StateOf(s.caches[k], q.addr), q.msg, q.src == k, s.bus.shared);
    }
  }

  /** One cache's whole tick in the cycle of a GET. */
  lemma GetTick(cfg: Config, s: Sys, k: nat)
    requires MidInv(cfg, s, k) && k < cfg.nodes && Steps.SnoopsGet(s)
    ensures WellSized(cfg, s)
    ensures var q := s.bus.current.value;
            var x := TickCache(cfg.protocol, s, k);
            && x.bus.reply == (if OwnedBy(s, k, q.addr) then Some(Mreq(DATA, q.addr, k, Some(q.src))) else s.bus.reply)
            && (OwnedBy(s, k, q.addr) ==> s.bus.reply.None?)
            && (cfg.protocol == MESI ==> x.bus.shared == (s.bus.shared || Raises(StateOf(s.caches[k], q.addr))))
  {
    hide MidInv, ServeCache, ReactCache;
    Steps.MidFacts(cfg, s, k);
    ServedStates(cfg, s, k, s.bus.current.value.addr);
    Steps.ServeKeeps(cfg, s, k);
    ServeTouchesLittle(cfg.protocol, s, k);
    ReactedBus(cfg, ServeCache(cfg.protocol, s, k), k);
  }

  /** After the first k caches have snooped a GET, its reply comes from the one of them that
      owned the line when the cycle began, and (MESI) the shared line is up if and only if
      one of them held the line. */
  lemma {:induction false} GetCycle(cfg: Config, s: Sys, k: nat)
    requires MidInv(cfg, s, 0) && k <= cfg.nodes && Steps.SnoopsGet(s) && s.bus.reply.None?
    ensures WellSized(cfg, s)
    ensures var q := s.bus.current.value;
            var x := TickCaches(cfg.protocol, s, k);
            && (x.bus.reply.None? ==> forall i :: 0 <= i < k ==> !OwnedBy(s, i, q.addr))
            && (x.bus.reply.Some? ==>
                  exists i :: 0 <= i < k && OwnedBy(s, i, q.addr)
                    && x.bus.reply == Some(Mreq(DATA, q.addr, i, Some(q.src))))
            && (cfg.protocol == MESI ==>
                  (x.bus.shared <==> s.bus.shared || exists i :: 0 <= i < k && Raises(StateOf(s.caches[i], q.addr))))
  {
    hide MidInv, TickCache;
    Steps.MidFacts(cfg, s, 0);
    if k > 0 {
      GetCycle(cfg, s, k - 1);
      var x := TickCaches(cfg.protocol, s, k - 1);
      Steps.TickCachesKeep(cfg, s, k - 1);
      CachesTouchLittle(cfg.protocol, s, k - 1);
      GetTick(cfg, x, k - 1);
    }
  }

  // ---------------------------------------------------------------- the caches while DATA is awaited

  /** A cache that neither has a request nor snoops anything keeps its lines. */
  lemma {:induction false} IdleCacheStays(cfg: Config, s: Sys, k: nat, r: nat)
    requires MidInv(cfg, s, 0) && k <= cfg.nodes && r < cfg.nodes
    requires s.bus.current.None? && s.caches[r].request.None?
    ensures WellSized(cfg, s)
    ensures TickCaches(cfg.protocol, s, k).caches[r] == s.caches[r]
    ensures cfg.protocol == MESI ==> TickCaches(cfg.protocol, s, k).bus.shared == s.bus.shared
  {
    hide MidInv, ServeCache, ReactCache;
    Steps.MidFacts(cfg, s, 0);
    if k > 0 {
      IdleCacheStays(cfg, s, k - 1, r);
      var x := TickCaches(cfg.protocol, s, k - 1);
      Steps.TickCachesKeep(cfg, s, k - 1);
      CachesTouchLittle(cfg.protocol, s, k - 1);
      IdleTickStays(cfg, x, k - 1, r);
    }
  }

  lemma IdleTickStays(cfg: Config, s: Sys, k: nat, r: nat)
    requires MidInv(cfg, s, k) && k < cfg.nodes && r < cfg.nodes && WellSized(cfg, s)
    requires s.bus.current.None? && s.caches[r].request.None?
    ensures TickCache(cfg.protocol, s, k).caches[r] == s.caches[r]
    ensures cfg.protocol == MESI ==> TickCache(cfg.protocol, s, k).bus.shared == s.bus.shared
  {
    hide MidInv, ServeCache, ReactCache;
    ServeTouchesLittle(cfg.protocol, s, k);
    ServedStates(cfg, s, k, 0);
    Steps.ServeKeeps(cfg, s, k);
    Steps.IdleReact(cfg, ServeCache(cfg.protocol, s, k), k);
    OtherCacheStays(cfg.protocol, s, k, r);
  }

  lemma OtherCacheStays(p: Protocol, s: Sys, k: nat, r: nat)
    requires k < |s.caches| == |s.procs| && r < |s.caches|
    requires r != k || s.caches[r].request.None?
    ensures ServeCache(p, s, k).caches[r] == s.caches[r]
  {
    hide OnProcessor;
  }

  /** The requester of a MESI or MOESI load snoops its own GETS and keeps waiting for it. */
  lemma {:induction false} RequesterStays(cfg: Config, s: Sys, k: nat)
    requires MidInv(cfg, s, 0) && k <= cfg.nodes && (cfg.protocol == MESI || cfg.protocol == MOESI)
    requires Steps.SnoopsGet(s) && s.bus.current.value.msg == GETS
    ensures WellSized(cfg, s) && s.bus.current.value.src < cfg.nodes
    ensures var q := s.bus.current.value;
            && StateOf(s.caches[q.src], q.addr) == ISE
            && s.caches[q.src].request.None?
            && TickCaches(cfg.protocol, s, k).caches[q.src].request.None?
            && StateOf(TickCaches(cfg.protocol, s, k).caches[q.src], q.addr) == ISE
  {
    hide TransientOk, QueueOk, MissesOk, OmDanger, ServeCache, ReactCache, L.SingleWriter, L.OwnedIsShared, L.Snooped;
    var q := s.bus.current.value;
    assert L.LineInv(cfg.protocol, Column(s, q.addr), TxnAt(s, 0, q.addr));
    assert Column(s, q.addr)[q.src] == StateOf(s.caches[q.src], q.addr);
    assert Places(s, 0, q.src) == One(s.procs[q.src].outstanding);
    if k > 0 {
      RequesterStays(cfg, s, k - 1);
      var x := TickCaches(cfg.protocol, s, k - 1);
      Steps.TickCachesKeep(cfg, s, k - 1);
      CachesTouchLittle(cfg.protocol, s, k - 1);
      OtherCacheStays(cfg.protocol, x, k - 1, q.src);
      ServeTouchesLittle(cfg.protocol, x, k - 1);
      IgnoresOwnGets(cfg.protocol, ServeCache(cfg.protocol, x, k - 1), k - 1, q.src);
    }
  }

  lemma IgnoresOwnGets(p: Protocol, s: Sys, k: nat, r: nat)
    requires k < |s.caches| == |s.procs| && r < |s.caches| && (p == MESI || p == MOESI)
    requires s.bus.current.Some? && s.bus.current.value.msg == GETS && s.caches[r].request.None?
    requires StateOf(s.caches[r], s.bus.current.value.addr) == ISE
    ensures ReactCache(p, s, k).caches[r].request.None?
    ensures StateOf(ReactCache(p, s, k).caches[r], s.bus.current.value.addr) == ISE
  {
  }

  // ---------------------------------------------------------------- whole cycles

  /** The state in which a cycle's caches have ticked, and what the rest makes of it. */
  lemma CycleParts(cfg: Config, s: Sys) returns (s0: Sys, s1: Sys, s2: Sys)
    requires cfg.hitTime >= 1 && EndInv(cfg, s) && !Cycles.Danger(cfg, s)
    ensures WellSized(cfg, s) && !s.failed && s0 == Grant(s) && MidInv(cfg, s0, 0)
    ensures WellSized(cfg, s0) && s1 == TickCaches(cfg.protocol, s0, cfg.nodes) && MidInv(cfg, s1, cfg.nodes)
    ensures TouchesLittle(s0, s1, cfg.nodes)
    ensures s2 == TickProcs(s1) && s2.bus == s1.bus && s2.mem == s1.mem && s2.clock == s1.clock
    ensures Core(cfg, s2, cfg.nodes) && BusMid(cfg, s2) && !TickMem(cfg, s2).failed
    ensures Cycle(cfg, s) == TockProcs(TickMem(cfg, s2)).(clock := s.clock + 1)
  {
    hide MidInv, EndInv, Core, BusMid, BusEnd, BuffersEmpty, Cycles.Danger, TickCaches, TickMem, TockProcs;
    Cycles.EndFacts(cfg, s);
    Cycles.GrantKeeps(cfg, s);
    s0 := Grant(s);
    Steps.TickCachesKeep(cfg, s0, cfg.nodes);
    s1 := TickCaches(cfg.protocol, s0, cfg.nodes);
    Steps.MidFacts(cfg, s1, cfg.nodes);
    CachesTouchLittle(cfg.protocol, s0, cfg.nodes);
    Cycles.MidCore(cfg, s1, cfg.nodes);
    Cycles.ProcsKeep(cfg, s1);
    ProcsKeepBus(s1);
    s2 := TickProcs(s1);
    NotFailedLate(cfg, s2);
  }

  /** The cycle in which a GET is granted: DATA from the one cache that owns the line, or a
      memory access that will take hitTime cycles. */
  lemma GetAnswered(cfg: Config, s: Sys)
    requires cfg.hitTime >= 1 && EndInv(cfg, s) && !Cycles.Danger(cfg, s) && KindOf(s) == Serving
    ensures WellSized(cfg, s)
    ensures var q := s.bus.pending[0];
            var x := Cycle(cfg, s);
            && !s.mem.busy
            && Holder(x, cfg.nodes) == Some(Want(q.addr, q.src))
            && (x.bus.reply.Some? ==>
                  exists i :: 0 <= i < cfg.nodes && OwnedBy(s, i, q.addr)
                    && x.bus.reply == Some(Mreq(DATA, q.addr, i, Some(q.src))))
            && (x.bus.reply.None? ==>
                  (forall i :: 0 <= i < cfg.nodes ==> !OwnedBy(s, i, q.addr)) && x.mem.busy
                    && x.mem.time == s.clock + cfg.hitTime)
            && (cfg.protocol == MESI ==>
                  (x.bus.shared <==> exists i :: 0 <= i < cfg.nodes && Raises(StateOf(s.caches[i], q.addr))))
            && ((cfg.protocol == MESI || cfg.protocol == MOESI) && q.msg == GETS ==>
                  StateOf(x.caches[q.src], q.addr) == ISE && StateOf(s.caches[q.src], q.addr) == ISE)
  {
    hide LinesOk, TokensOk, QueueOk, TransientOk, MissesOk, OmDanger, TickCaches;
    var s0, s1, s2 := CycleParts(cfg, s);
    var q := s.bus.pending[0];
    GetCycle(cfg, s0, cfg.nodes);
    assert forall i :: 0 <= i < cfg.nodes ==> OwnedBy(s0, i, q.addr) == OwnedBy(s, i, q.addr);
    if (cfg.protocol == MESI || cfg.protocol == MOESI) && q.msg == GETS {
      RequesterStays(cfg, s0, cfg.nodes);
      assert s2.caches[q.src].lines == s1.caches[q.src].lines;
    }
  }

  /** A cycle spent waiting for memory. */
  lemma WaitCycle(cfg: Config, s: Sys)
    requires cfg.hitTime >= 1 && EndInv(cfg, s) && !Cycles.Danger(cfg, s) && KindOf(s) == Wait
    ensures WellSized(cfg, s)
    ensures var x := Cycle(cfg, s);
            && x.bus.inProgress && Holder(x, cfg.nodes) == Holder(s, cfg.nodes) == Some(Want(s.mem.addr, s.mem.target))
            && s.mem.target < cfg.nodes
            && (if s.clock < s.mem.time
                then x.bus.reply.None? && x.mem.time == s.mem.time
                else x.bus.reply == Some(Mreq(DATA, s.mem.addr, cfg.nodes, Some(s.mem.target))))
            && (cfg.protocol == MESI ==> x.bus.shared == s.bus.shared)
            && x.caches[s.mem.target].lines == s.caches[s.mem.target].lines
  {
    hide LinesOk, QueueOk, TransientOk, MissesOk, OmDanger, TickCaches;
    var s0, s1, s2 := CycleParts(cfg, s);
    assert Places(s, cfg.nodes, s.mem.target) == One(s.procs[s.mem.target].outstanding);
    IdleCacheStays(cfg, s0, cfg.nodes, s.mem.target);
  }

  // ---------------------------------------------------------------- the cycle of the DATA

  /** Until the requester's own tick nothing happens to its cache; the shared line stays up
      if it is, and MESI leaves it alone altogether. */
  lemma {:induction false} DataCycle(cfg: Config, s: Sys, k: nat, r: nat)
    requires MidInv(cfg, s, 0) && k <= cfg.nodes
    requires s.bus.current.Some? && s.bus.current.value.msg == DATA && s.bus.current.value.dest == Some(r)
    ensures WellSized(cfg, s) && r < cfg.nodes
    ensures var q := s.bus.current.value;
            var x := TickCaches(cfg.protocol, s, k);
            var st := StateOf(s.caches[r], q.addr);
            && Transient(st)
            && (k <= r ==> x.caches[r] == s.caches[r] && (s.bus.shared ==> x.bus.shared)
                           && (cfg.protocol == MESI ==> x.bus.shared == s.bus.shared))
            && (k > r ==> FilledFrom(cfg.protocol, st, s.bus.shared, StateOf(x.caches[r], q.addr)))
  {
    hide MidInv, ServeCache, ReactCache;
    DataWaiting(cfg, s, 0, r);
    if k > 0 {
      DataCycle(cfg, s, k - 1, r);
      var x := TickCaches(cfg.protocol, s, k - 1);
      Steps.TickCachesKeep(cfg, s, k - 1);
      CachesTouchLittle(cfg.protocol, s, k - 1);
      if k - 1 == r {
        Delivered(cfg, x, r);
      } else {
        NotForMe(cfg, x, k - 1, r);
      }
    }
  }

  /** What the requester's line becomes. The shared line at the beginning of the cycle settles
      MESI's choice between S and E; in MOESI it may still be raised, but not lowered. */
  predicate FilledFrom(p: Protocol, st: LineState, shared: bool, next: LineState) {
    && (WantsM(st) ==> next == M)
    && (st == IS ==> next == S)
    && (p == MESI && st == ISE ==> next == if shared then S else E)
    && (st == ISE && shared ==> next == S)
  }

  lemma NotForMe(cfg: Config, s: Sys, k: nat, r: nat)
    requires MidInv(cfg, s, k) && k < cfg.nodes && r < cfg.nodes && k != r
    requires s.bus.current.Some? && s.bus.current.value.msg == DATA && s.bus.current.value.dest == Some(r)
    ensures WellSized(cfg, s)
    ensures TickCache(cfg.protocol, s, k).caches[r] == s.caches[r]
    ensures cfg.protocol == MESI ==> TickCache(cfg.protocol, s, k).bus.shared == s.bus.shared
    ensures s.bus.shared ==> TickCache(cfg.protocol, s, k).bus.shared
  {
    hide MidInv, ServeCache, ReactCache;
    Steps.MidFacts(cfg, s, k);
    ServedStates(cfg, s, k, 0);
    Steps.ServeKeeps(cfg, s, k);
    ServeTouchesLittle(cfg.protocol, s, k);
    Steps.IdleReact(cfg, ServeCache(cfg.protocol, s, k), k);
    OtherCacheStays(cfg.protocol, s, k, r);
  }

  lemma DataWaiting(cfg: Config, s: Sys, k: nat, r: nat)
    requires MidInv(cfg, s, k) && k <= r
    requires s.bus.current.Some? && s.bus.current.value.msg == DATA && s.bus.current.value.dest == Some(r)
    ensures r < cfg.nodes && WellSized(cfg, s)
    ensures s.caches[r].request.None? && Transient(StateOf(s.caches[r], s.bus.current.value.addr))
  {
    hide QueueOk, TransientOk, MissesOk, OmDanger, L.SingleWriter, L.OwnedIsShared, L.Snooped;
    var q := s.bus.current.value;
    assert Places(s, k, r) == One(s.procs[r].outstanding);
    assert L.LineInv(cfg.protocol, Column(s, q.addr), TxnAt(s, k, q.addr));
    assert Column(s, q.addr)[r] == StateOf(s.caches[r], q.addr);
  }

  lemma Delivered(cfg: Config, s: Sys, r: nat)
    requires MidInv(cfg, s, r) && r < cfg.nodes && s.caches[r].request.None?
    requires s.bus.current.Some? && s.bus.current.value.msg == DATA && s.bus.current.value.dest == Some(r)
    ensures var q := s.bus.current.value;
            FilledFrom(cfg.protocol, StateOf(s.caches[r], q.addr), s.bus.shared,
                       StateOf(TickCache(cfg.protocol, s, r).caches[r], q.addr))
  {
    hide TokensOk, QueueOk, TransientOk, MissesOk, OmDanger, OnSnoop;
    var q := s.bus.current.value;
    Steps.IdleServe(cfg.protocol, s, r);
    Steps.DataFacts(cfg, s, r);
    assert L.LineInv(cfg.protocol, Column(s, q.addr), TxnAt(s, r, q.addr));
    assert Column(s, q.addr)[r] == StateOf(s.caches[r], q.addr);
    L.FillKeepsInv(cfg.protocol, Column(s, q.addr), TxnAt(s, r, q.addr), q.src == r);
  }

  lemma DeliverCycle(cfg: Config, s: Sys)
    requires cfg.hitTime >= 1 && EndInv(cfg, s) && !Cycles.Danger(cfg, s) && KindOf(s) == Deliver
    ensures WellSized(cfg, s)
    ensures Holder(s, cfg.nodes).Some? && Holder(s, cfg.nodes).value.req < cfg.nodes
    ensures var x := Cycle(cfg, s);
            var h := Holder(s, cfg.nodes).value;
            var st, st' := StateOf(s.caches[h.req], h.addr), StateOf(x.caches[h.req], h.addr);
            && x.procs[h.req].inbound == Some(h.addr)
            && Transient(st)
            && FilledFrom(cfg.protocol, st, s.bus.shared, st')
  {
    hide LinesOk, TokensOk, QueueOk, TransientOk, MissesOk, OmDanger, TickCaches;
    CycleBus(cfg, s);
    var s0, s1, s2 := CycleParts(cfg, s);
    var h := Holder(s, cfg.nodes).value;
    DataCycle(cfg, s0, cfg.nodes, h.req);
    assert s2.caches[h.req].lines == s1.caches[h.req].lines;
  }

  // ---------------------------------------------------------------- whole transactions

  /** From a transaction in progress to the cycle of its DATA. */
  lemma {:induction false} TransactionEnds(cfg: Config, traces: seq<seq<Op>>, j: nat, limit: nat) returns (w: nat)
    requires cfg.hitTime >= 1 && |traces| == cfg.nodes && Cycles.Safe(cfg, Initial(traces), j + limit)
    requires After(cfg, Initial(traces), j).bus.inProgress
    requires Left(After(cfg, Initial(traces), j)) <= limit
    ensures var s, x := After(cfg, Initial(traces), j), After(cfg, Initial(traces), w);
            && j <= w < j + limit
            && (forall t :: j <= t < w ==> KindOf(After(cfg, Initial(traces), t)) == Wait)
            && KindOf(x) == Deliver
            && Holder(x, cfg.nodes) == Holder(s, cfg.nodes) && Holder(s, cfg.nodes).Some?
               && Holder(s, cfg.nodes).value.req < cfg.nodes
            && (cfg.protocol == MESI ==> x.bus.shared == s.bus.shared)
            && x.caches[Holder(s, cfg.nodes).value.req].lines == s.caches[Holder(s, cfg.nodes).value.req].lines
            && (if s.bus.reply.Some? then w == j
                else s.clock <= s.mem.time && w == j + (s.mem.time - s.clock) + 1
                     && x.bus.reply == Some(Mreq(DATA, Holder(s, cfg.nodes).value.addr, cfg.nodes,
                                                 Some(Holder(s, cfg.nodes).value.req))))
    decreases limit
  {
    hide EndInv, Cycle, Cycles.Danger;
    var s := After(cfg, Initial(traces), j);
    Cycles.ReachableOk(cfg, traces, j);
    InProgressFacts(cfg, s);
    if s.bus.reply.Some? {
      w := j;
    } else {
      WaitCycle(cfg, s);
      CycleBus(cfg, s);
      QueueIsFifo(cfg, s);
      assert After(cfg, Initial(traces), j + 1) == Cycle(cfg, s);
      w := TransactionEnds(cfg, traces, j + 1, limit - 1);
    }
  }

  lemma InProgressFacts(cfg: Config, s: Sys)
    requires EndInv(cfg, s) && s.bus.inProgress
    ensures Holder(s, cfg.nodes).Some? && Holder(s, cfg.nodes).value.req < cfg.nodes
    ensures s.bus.reply.None? ==> s.clock <= s.mem.time
    ensures 0 < Left(s) <= cfg.hitTime + 1
  {
  }

  /** Every granted GET gets exactly one DATA, addressed to its requester: in the next cycle
      from the cache that owned the line, if one did, and hitTime + 1 cycles after the grant
      from memory, if none did. */
  lemma OneDataPerGet(cfg: Config, traces: seq<seq<Op>>, m: nat) returns (w: nat)
    requires cfg.hitTime >= 1 && |traces| == cfg.nodes && Cycles.Safe(cfg, Initial(traces), m + cfg.hitTime + 2)
    requires KindOf(After(cfg, Initial(traces), m)) == Serving
    ensures var s, q := After(cfg, Initial(traces), m), After(cfg, Initial(traces), m).bus.pending[0];
            var x := After(cfg, Initial(traces), w);
            && (forall t :: m < t < w ==> KindOf(After(cfg, Initial(traces), t)) == Wait)
            && KindOf(x) == Deliver
            && q.src < cfg.nodes
            && (if exists i :: 0 <= i < cfg.nodes && OwnedBy(s, i, q.addr)
                then w == m + 1 && exists i :: 0 <= i < cfg.nodes && OwnedBy(s, i, q.addr)
                                               && x.bus.reply == Some(Mreq(DATA, q.addr, i, Some(q.src)))
                else w == m + 1 + cfg.hitTime && x.bus.reply == Some(Mreq(DATA, q.addr, cfg.nodes, Some(q.src))))
            && After(cfg, Initial(traces), w + 1).procs[q.src].inbound == Some(q.addr)
  {
    hide EndInv, Cycle, Cycles.Danger, OwnedBy;
    var s := After(cfg, Initial(traces), m);
    Cycles.ReachableOk(cfg, traces, m);
    GetAnswered(cfg, s);
    CycleBus(cfg, s);
    QueueIsFifo(cfg, s);
    assert After(cfg, Initial(traces), m + 1) == Cycle(cfg, s);
    w := TransactionEnds(cfg, traces, m + 1, cfg.hitTime + 1);
    Cycles.ReachableOk(cfg, traces, w);
    DeliverCycle(cfg, After(cfg, Initial(traces), w));
    assert After(cfg, Initial(traces), w + 1) == Cycle(cfg, After(cfg, Initial(traces), w));
  }

  /** MESI exclusivity is exact: a load miss fills to E if and only if no other cache held
      the line in S, E, M or SM when the GETS was granted, whatever happens in between. */
  lemma MesiExclusivity(cfg: Config, traces: seq<seq<Op>>, m: nat) returns (w: nat)
    requires cfg.protocol == MESI && cfg.hitTime >= 1 && |traces| == cfg.nodes
    requires KindOf(After(cfg, Initial(traces), m)) == Serving
    requires After(cfg, Initial(traces), m).bus.pending[0].msg == GETS
    ensures var s, q := After(cfg, Initial(traces), m), After(cfg, Initial(traces), m).bus.pending[0];
            && m < w <= m + cfg.hitTime + 1 && q.src < cfg.nodes
            && (forall t :: m < t < w ==> KindOf(After(cfg, Initial(traces), t)) == Wait)
            && KindOf(After(cfg, Initial(traces), w)) == Deliver
            && StateOf(After(cfg, Initial(traces), w + 1).caches[q.src], q.addr)
               == (if exists i :: RaisedBy(s, q.src, i, q.addr) then S else E)
  {
    hide EndInv, Cycle, Cycles.Danger, Cycles.Safe, After, Holder, BusEnd;
    var s := After(cfg, Initial(traces), m);
    var q := s.bus.pending[0];
    Cycles.ReachableAndSafe(cfg, traces, m);
    GetAnswered(cfg, s);
    CycleBus(cfg, s);
    QueueIsFifo(cfg, s);
    Cycles.AfterNext(cfg, Initial(traces), m);
    Cycles.AlwaysSafe(cfg, Initial(traces), m + 1 + cfg.hitTime + 1);
    w := TransactionEnds(cfg, traces, m + 1, cfg.hitTime + 1);
    Cycles.ReachableAndSafe(cfg, traces, w);
    DeliverCycle(cfg, After(cfg, Initial(traces), w));
    Cycles.AfterNext(cfg, Initial(traces), w);
    assert forall i: nat :: RaisedBy(s, q.src, i, q.addr) <==> i < cfg.nodes && Raises(StateOf(s.caches[i], q.addr));
  }
}
