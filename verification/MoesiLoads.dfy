/** MOESI loads that a cache answers. An O line does not raise the shared line when it answers
    a GETS, and yet the requester never fills to E: some other copy raises it. */
module MoesiLoads {
  import opened Messages
  import opened Reactions
  import opened Protocols
  import opened Machine
  import opened Invariant
  import opened Progress
  import opened Waiting
  import opened Transactions
  import Steps
  import Cycles
  import L = LineMachine

  /** The DATA in the reply slot came from one of the first k caches, which kept a copy. */
  ghost predicate SupplierKeepsCopy(s: Sys, k: nat, a: Addr) {
    s.bus.reply.Some? ==>
      && s.bus.reply.value.src < k <= |s.caches|
      && (StateOf(s.caches[s.bus.reply.value.src], a) == S || StateOf(s.caches[s.bus.reply.value.src], a) == O)
  }

  lemma SupplierTable(st: LineState, own: bool, shared: bool)
    requires Legal(MOESI, st) && st != OM
    ensures var r := OnSnoop(MOESI, st, GETS, own, shared);
            r.supply ==> r.next == S || r.next == O
  {
  }

  lemma ReactKeepsCopy(cfg: Config, s: Sys, k: nat)
    requires MidInv(cfg, s, k) && k < cfg.nodes && cfg.protocol == MOESI
    requires Steps.SnoopsGet(s) && s.bus.current.value.msg == GETS
    requires SupplierKeepsCopy(s, k, s.bus.current.value.addr)
    ensures SupplierKeepsCopy(ReactCache(MOESI, s, k), k + 1, s.bus.current.value.addr)
  {
    hide TokensOk, QueueOk, TransientOk, MissesOk, OnSnoop, L.SingleWriter, L.OwnedIsShared, L.Snooped;
    var q := s.bus.current.value;
    assert L.LineInv(MOESI, Column(s, q.addr), TxnAt(s, k, q.addr));
    assert Column(s, q.addr)[k] == StateOf(s.caches[k], q.addr);
    SupplierTable(StateOf(s.caches[k], q.addr), q.src == k, s.bus.shared);
  }

  lemma ServeKeepsCopy(cfg: Config, s: Sys, k: nat, a: Addr)
    requires MidInv(cfg, s, k) && k < cfg.nodes && cfg.protocol == MOESI
    requires SupplierKeepsCopy(s, k, a)
    ensures SupplierKeepsCopy(ServeCache(MOESI, s, k), k, a)
  {
    hide MidInv, ServeCache;
    Steps.MidFacts(cfg, s, k);
    ServedStates(cfg, s, k, a);
    ServeTouchesLittle(MOESI, s, k);
    if s.bus.reply.Some? {
      OtherCacheStays(MOESI, s, k, s.bus.reply.value.src);
    }
  }

  lemma {:induction false} CachesKeepCopy(cfg: Config, s: Sys, k: nat)
    requires MidInv(cfg, s, 0) && k <= cfg.nodes && cfg.protocol == MOESI
    requires Steps.SnoopsGet(s) && s.bus.current.value.msg == GETS && s.bus.reply.None?
    ensures WellSized(cfg, s)
    ensures SupplierKeepsCopy(TickCaches(MOESI, s, k), k, s.bus.current.value.addr)
  {
    hide MidInv, ServeCache, ReactCache, SupplierKeepsCopy;
    Steps.MidFacts(cfg, s, 0);
    if k > 0 {
      CachesKeepCopy(cfg, s, k - 1);
      var x := TickCaches(MOESI, s, k - 1);
      Steps.TickCachesKeep(cfg, s, k - 1);
      CachesTouchLittle(MOESI, s, k - 1);
      ServeKeepsCopy(cfg, x, k - 1, s.bus.current.value.addr);
      Steps.ServeKeeps(cfg, x, k - 1);
      Steps.MidFacts(cfg, x, k - 1);
      ServeTouchesLittle(MOESI, x, k - 1);
      ReactKeepsCopy(cfg, ServeCache(MOESI, x, k - 1), k - 1);
    } else {
      NothingSupplied(s, s.bus.current.value.addr);
    }
  }

  lemma NothingSupplied(s: Sys, a: Addr)
    requires s.bus.reply.None?
    ensures SupplierKeepsCopy(s, 0, a)
  {
  }

  /** A copy outside the requester's cache means that the shared line is up. */
  lemma CopyMeansShared(cfg: Config, s: Sys, a: Addr)
    requires EndInv(cfg, s) && cfg.protocol == MOESI
    requires s.bus.inProgress && Holder(s, cfg.nodes).Some? && Holder(s, cfg.nodes).value.addr == a
    requires s.bus.reply.Some? && SupplierKeepsCopy(s, cfg.nodes, a)
    requires WantsS(StateOf(s.caches[Holder(s, cfg.nodes).value.req], a))
    ensures s.bus.shared
  {
    hide TokensOk, QueueOk, TransientOk, MissesOk, L.SingleWriter;
    var col := Column(s, a);
    var t := TxnAt(s, cfg.nodes, a);
    var j := s.bus.reply.value.src;
    assert L.LineInv(MOESI, col, t);
    assert col[j] == StateOf(s.caches[j], a);
    assert col[t.req] == StateOf(s.caches[t.req], a);
    if !s.bus.shared {
      L.UnsharedMeansAlone(MOESI, col, t, j);
    }
  }

  /** In a safe run a GETS for a line that a cache owns fills to S, never to E. */
  lemma OwnedLineFillsToS(cfg: Config, traces: seq<seq<Op>>, m: nat, i: nat)
    requires cfg.protocol == MOESI && cfg.hitTime >= 1 && |traces| == cfg.nodes
             && Cycles.Safe(cfg, Initial(traces), m + 2)
    requires KindOf(After(cfg, Initial(traces), m)) == Serving
    requires After(cfg, Initial(traces), m).bus.pending[0].msg == GETS
    requires OwnedBy(After(cfg, Initial(traces), m), i, After(cfg, Initial(traces), m).bus.pending[0].addr)
    ensures var q := After(cfg, Initial(traces), m).bus.pending[0];
            && q.src < cfg.nodes
            && StateOf(After(cfg, Initial(traces), m + 2).caches[q.src], q.addr) == S
  {
    hide EndInv, Cycle, Cycles.Danger, Holder, After, SupplierKeepsCopy;
    var s := After(cfg, Initial(traces), m);
    var q := s.bus.pending[0];
    SafeSoFar(cfg, traces, m);
    Cycles.ReachableOk(cfg, traces, m);
    Cycles.AfterNext(cfg, Initial(traces), m);
    Cycles.AfterNext(cfg, Initial(traces), m + 1);
    Cycles.ReachableOk(cfg, traces, m + 1);
    var x := Cycle(cfg, s);
    LoadIsShared(cfg, s, i);
    DeliverCycle(cfg, x);
  }

  lemma SafeSoFar(cfg: Config, traces: seq<seq<Op>>, m: nat)
    requires |traces| == cfg.nodes && Cycles.Safe(cfg, Initial(traces), m + 2)
    ensures Cycles.Safe(cfg, Initial(traces), m) && Cycles.Safe(cfg, Initial(traces), m + 1)
    ensures !Cycles.Danger(cfg, After(cfg, Initial(traces), m))
    ensures !Cycles.Danger(cfg, After(cfg, Initial(traces), m + 1))
  {
    hide Cycles.Danger, After;
  }

  /** The cycle in which such a GETS is granted ends with the shared line up. */
  lemma LoadIsShared(cfg: Config, s: Sys, i: nat)
    requires cfg.protocol == MOESI && cfg.hitTime >= 1 && EndInv(cfg, s) && !Cycles.Danger(cfg, s)
    requires KindOf(s) == Serving && s.bus.pending[0].msg == GETS && OwnedBy(s, i, s.bus.pending[0].addr)
    ensures WellSized(cfg, s)
    ensures var q := s.bus.pending[0];
            var x := Cycle(cfg, s);
            && KindOf(x) == Deliver && x.bus.shared && q.src < cfg.nodes
            && Holder(x, cfg.nodes) == Some(Want(q.addr, q.src))
            && StateOf(x.caches[q.src], q.addr) == ISE
  {
    hide LinesOk, TokensOk, QueueOk, TransientOk, MissesOk, OmDanger, TickCaches;
    var q := s.bus.pending[0];
    GetAnswered(cfg, s);
    Cycles.CycleKeeps(cfg, s);
    var s0, s1, s2 := CycleParts(cfg, s);
    CachesKeepCopy(cfg, s0, cfg.nodes);
    var x := Cycle(cfg, s);
    assert SupplierKeepsCopy(x, cfg.nodes, q.addr);
    CopyMeansShared(cfg, x, q.addr);
  }
}
