/** Every step of a cycle keeps the invariant. */
module Steps {
  import opened Messages
  import opened Reactions
  import opened Protocols
  import opened Machine
  import opened Invariant
  import L = LineMachine

  lemma ColumnUpdate(s: Sys, s': Sys, k: nat, a: Addr)
    requires k < |s.caches| == |s'.caches|
    requires forall i :: 0 <= i < |s.caches| && i != k ==> StateOf(s'.caches[i], a) == StateOf(s.caches[i], a)
    ensures Column(s', a) == Column(s, a)[k := StateOf(s'.caches[k], a)]
    ensures Column(s, a)[k] == StateOf(s.caches[k], a)
  {
  }

  // ---------------------------------------------------------------- a cache serves its processor

  /** A processor request always finds a stable line and an empty answer buffer. */
  lemma ServeFacts(cfg: Config, s: Sys, k: nat)
    requires MidInv(cfg, s, k) && k < cfg.nodes && s.caches[k].request.Some?
    ensures Queued(s.bus.pending, k) == 0
    ensures !(Holder(s, k).Some? && Holder(s, k).value.req == k)
    ensures s.procs[k].inbound.None? && s.procs[k].buffer.None? && s.procs[k].outstanding
    ensures forall a :: !Transient(StateOf(s.caches[k], a))
    ensures forall a :: Legal(cfg.protocol, StateOf(s.caches[k], a))
    ensures var op := s.caches[k].request.value;
            OnProcessor(cfg.protocol, StateOf(s.caches[k], op.addr), op.Store?).answer != Abort
  {
    hide QueueOk, MissesOk, BusMid, OmDanger;
    assert Places(s, k, k) == One(s.procs[k].outstanding);
    forall a ensures !Transient(StateOf(s.caches[k], a)) {
      NoGetNoTransient(s, k, k, a);
    }
    forall a ensures Legal(cfg.protocol, StateOf(s.caches[k], a)) {
      assert L.LineInv(cfg.protocol, Column(s, a), TxnAt(s, k, a));
      assert Column(s, a)[k] == StateOf(s.caches[k], a);
    }
    var op := s.caches[k].request.value;
    L.ServedClaimsNoMore(cfg.protocol, StateOf(s.caches[k], op.addr), op.Store?);
  }

  lemma ServeLines(cfg: Config, s: Sys, k: nat)
    requires MidInv(cfg, s, k) && k < cfg.nodes && s.caches[k].request.Some?
    ensures LinesOk(cfg.protocol, ServeCache(cfg.protocol, s, k), k)
  {
    hide TokensOk, QueueOk, TransientOk, MissesOk, BusMid, OmDanger, OnProcessor, L.LineInv;
    ServeFacts(cfg, s, k);
    var s' := ServeCache(cfg.protocol, s, k);
    var op := s.caches[k].request.value;
    var st := StateOf(s.caches[k], op.addr);
    var r := OnProcessor(cfg.protocol, st, op.Store?);
    forall a ensures L.LineInv(cfg.protocol, Column(s', a), TxnAt(s', k, a)) {
      assert L.LineInv(cfg.protocol, Column(s, a), TxnAt(s, k, a));
      ColumnUpdate(s, s', k, a);
      var t := TxnAt(s, k, a);
      assert TxnAt(s', k, a) == if t.Busy? then t.(shared := t.shared || r.raise) else t;
      if a == op.addr {
        L.ServeKeepsInv(cfg.protocol, Column(s, a), t, k, op.Store?);
      } else {
        L.RaiseKeepsInv(cfg.protocol, Column(s, a), t, r.raise);
        assert Column(s', a) == Column(s, a);
      }
    }
  }

  lemma AskedForMatches(p: Protocol, st: LineState, store: bool)
    requires Legal(p, st) && !Transient(st)
    ensures var r := OnProcessor(p, st, store);
            && r.answer != Abort
            && (r.answer == Hit ==> !Transient(r.next))
            && (r.answer == AskShared ==> WantsS(r.next))
            && (r.answer == AskModified ==> WantsM(r.next))
  {
  }

  lemma ServeTokens(cfg: Config, s: Sys, k: nat)
    requires MidInv(cfg, s, k) && k < cfg.nodes && s.caches[k].request.Some?
    ensures var s' := ServeCache(cfg.protocol, s, k);
            && !s'.failed && WellSized(cfg, s') && s'.caches[k].request.None?
            && TokensOk(s', k) && MissesOk(s')
  {
    hide LinesOk, QueueOk, TransientOk, BusMid, OmDanger, OnProcessor;
    ServeFacts(cfg, s, k);
    var s' := ServeCache(cfg.protocol, s, k);
    var op := s.caches[k].request.value;
    assert Holder(s', k) == Holder(s, k);
    forall i | 0 <= i < |s'.procs| ensures Places(s', k, i) == One(s'.procs[i].outstanding) {
      assert Places(s, k, i) == One(s.procs[i].outstanding);
      QueuedAppend(s.bus.pending, Mreq(GETS, op.addr, k, None), i);
      QueuedAppend(s.bus.pending, Mreq(GETM, op.addr, k, None), i);
    }
  }

  lemma ServeQueue(cfg: Config, s: Sys, k: nat)
    requires MidInv(cfg, s, k) && k < cfg.nodes && s.caches[k].request.Some?
    ensures var s' := ServeCache(cfg.protocol, s, k);
            QueueOk(s') && TransientOk(s', k)
  {
    hide LinesOk, TokensOk, BusMid, OmDanger, MissesOk, OnProcessor;
    ServeFacts(cfg, s, k);
    var s' := ServeCache(cfg.protocol, s, k);
    var op := s.caches[k].request.value;
    var st := StateOf(s.caches[k], op.addr);
    var r := OnProcessor(cfg.protocol, st, op.Store?);
    AskedForMatches(cfg.protocol, st, op.Store?);
    QueuedNone(s.bus.pending, k);
    forall i, a | 0 <= i < |s'.caches| && Transient(StateOf(s'.caches[i], a))
      ensures HasGet(s', k, i, a)
    {
      if i == k {
        assert StateOf(s'.caches[k], a) == if a == op.addr then r.next else StateOf(s.caches[k], a);
        var q := Mreq(if r.answer == AskShared then GETS else GETM, op.addr, k, None);
        assert q in s'.bus.pending;
      } else {
        assert StateOf(s'.caches[i], a) == StateOf(s.caches[i], a);
        assert HasGet(s, k, i, a);
        if Holder(s, k) != Some(Want(a, i)) {
          var q :| q in s.bus.pending && q.src == i && q.addr == a;
          assert q in s'.bus.pending;
        }
      }
    }
  }

  lemma IdleServe(p: Protocol, s: Sys, k: nat)
    requires k < |s.caches| == |s.procs| && s.caches[k].request.None?
    ensures ServeCache(p, s, k) == s
  {
    assert s.caches[k := s.caches[k]] == s.caches;
    assert s.procs[k := s.procs[k].(buffer := s.procs[k].buffer)] == s.procs;
  }

  lemma ServeKeeps(cfg: Config, s: Sys, k: nat)
    requires MidInv(cfg, s, k) && k < cfg.nodes
    ensures MidInv(cfg, ServeCache(cfg.protocol, s, k), k)
    ensures ServeCache(cfg.protocol, s, k).caches[k].request.None?
  {
    if s.caches[k].request.Some? {
      ServeLines(cfg, s, k);
      ServeTokens(cfg, s, k);
      ServeQueue(cfg, s, k);
      ServeBus(cfg, s, k);
    } else {
      IdleServe(cfg.protocol, s, k);
    }
  }

  lemma ServeBus(cfg: Config, s: Sys, k: nat)
    requires MidInv(cfg, s, k) && k < cfg.nodes && s.caches[k].request.Some?
    ensures BusMid(cfg, ServeCache(cfg.protocol, s, k))
    ensures !OmDanger(cfg.protocol, ServeCache(cfg.protocol, s, k), k)
  {
    hide LinesOk, TokensOk, MissesOk, QueueOk, TransientOk;
    ServeFacts(cfg, s, k);
  }

  // ---------------------------------------------------------------- a cache snoops the bus

  predicate SnoopsGet(s: Sys) { s.bus.current.Some? && s.bus.current.value.msg != DATA }

  predicate SnoopsOwnData(s: Sys, k: nat) {
    s.bus.current.Some? && s.bus.current.value.msg == DATA && s.bus.current.value.dest == Some(k)
  }

  lemma NoOmHazard(cfg: Config, s: Sys, k: nat)
    requires MidInv(cfg, s, k) && k < cfg.nodes && SnoopsGet(s)
    ensures !(cfg.protocol == MOESI && s.bus.current.value.msg == GETS
              && StateOf(s.caches[k], s.bus.current.value.addr) == OM)
  {
    hide LinesOk, TokensOk, QueueOk, TransientOk, MissesOk, BusMid;
    var a := s.bus.current.value.addr;
    assert StateOf(s.caches[k], a) == OM ==> WillBeOm(s.caches[k], a);
  }

  lemma GetFacts(cfg: Config, s: Sys, k: nat)
    requires MidInv(cfg, s, k) && k < cfg.nodes && SnoopsGet(s)
    ensures var q := s.bus.current.value;
            var st := StateOf(s.caches[k], q.addr);
            var r := OnSnoop(cfg.protocol, st, q.msg, q.src == k, s.bus.shared);
            && Legal(cfg.protocol, st)
            && !r.abort && !r.fill && r.supply == Owner(st)
            && (r.supply ==> s.bus.reply.None?)
  {
    hide TokensOk, QueueOk, TransientOk, MissesOk, OnSnoop;
    var q := s.bus.current.value;
    var col := Column(s, q.addr);
    assert L.LineInv(cfg.protocol, col, TxnAt(s, k, q.addr));
    assert col[k] == StateOf(s.caches[k], q.addr) && col[q.src] == StateOf(s.caches[q.src], q.addr);
    NoOmHazard(cfg, s, k);
    L.SnoopKeepsInv(cfg.protocol, col, TxnAt(s, k, q.addr), q.msg);
  }

  lemma GetLine(cfg: Config, s: Sys, k: nat)
    requires MidInv(cfg, s, k) && k < cfg.nodes && SnoopsGet(s)
    ensures var q := s.bus.current.value;
            var r := OnSnoop(cfg.protocol, StateOf(s.caches[k], q.addr), q.msg, q.src == k, s.bus.shared);
            L.LineInv(cfg.protocol, Column(s, q.addr)[k := r.next],
                      L.Busy(q.src, k + 1, if r.supply then L.FromCache else Author(cfg.nodes, s.bus.reply),
                             s.bus.shared || r.raise))
  {
    hide TokensOk, QueueOk, TransientOk, MissesOk, OnSnoop;
    var q := s.bus.current.value;
    var col := Column(s, q.addr);
    assert L.LineInv(cfg.protocol, col, TxnAt(s, k, q.addr));
    assert col[k] == StateOf(s.caches[k], q.addr) && col[q.src] == StateOf(s.caches[q.src], q.addr);
    NoOmHazard(cfg, s, k);
    L.SnoopKeepsInv(cfg.protocol, col, TxnAt(s, k, q.addr), q.msg);
  }

  lemma GetLines(cfg: Config, s: Sys, k: nat)
    requires MidInv(cfg, s, k) && k < cfg.nodes && SnoopsGet(s) && s.caches[k].request.None?
    ensures LinesOk(cfg.protocol, ReactCache(cfg.protocol, s, k), k + 1)
  {
    hide TokensOk, QueueOk, TransientOk, MissesOk, OmDanger, OnSnoop, L.LineInv;
    GetFacts(cfg, s, k);
    GetLine(cfg, s, k);
    var s' := ReactCache(cfg.protocol, s, k);
    var q := s.bus.current.value;
    forall a ensures L.LineInv(cfg.protocol, Column(s', a), TxnAt(s', k + 1, a)) {
      assert L.LineInv(cfg.protocol, Column(s, a), TxnAt(s, k, a));
      ColumnUpdate(s, s', k, a);
      if a != q.addr {
        assert Column(s', a) == Column(s, a);
      }
    }
  }

  lemma GetTokens(cfg: Config, s: Sys, k: nat)
    requires MidInv(cfg, s, k) && k < cfg.nodes && SnoopsGet(s) && s.caches[k].request.None?
    ensures var s' := ReactCache(cfg.protocol, s, k);
            && !s'.failed && WellSized(cfg, s') && s'.caches[k].request.None?
            && TokensOk(s', k + 1) && MissesOk(s')
  {
    hide LinesOk, QueueOk, TransientOk, OmDanger, OnSnoop;
    GetFacts(cfg, s, k);
    var s' := ReactCache(cfg.protocol, s, k);
    assert Holder(s', k + 1) == Holder(s, k);
    forall i | 0 <= i < |s'.procs| ensures Places(s', k + 1, i) == One(s'.procs[i].outstanding) {
      assert Places(s, k, i) == One(s.procs[i].outstanding);
    }
  }

  lemma GetStates(cfg: Config, s: Sys, k: nat, i: nat, a: Addr)
    requires MidInv(cfg, s, k) && k < cfg.nodes && SnoopsGet(s) && s.caches[k].request.None?
    requires i < cfg.nodes
    ensures var s' := ReactCache(cfg.protocol, s, k);
            var st, st' := StateOf(s.caches[i], a), StateOf(s'.caches[i], a);
            Transient(st') == Transient(st) && WantsM(st') == WantsM(st)
  {
    hide LinesOk, QueueOk, TransientOk, OmDanger, TokensOk, MissesOk, OnSnoop;
    GetFacts(cfg, s, k);
    NoOmHazard(cfg, s, k);
    var q := s.bus.current.value;
    if i == k && a == q.addr {
      L.SnoopedStaysTransient(cfg.protocol, StateOf(s.caches[k], a), q.msg, q.src == k, s.bus.shared);
    }
  }

  lemma GetQueue(cfg: Config, s: Sys, k: nat)
    requires MidInv(cfg, s, k) && k < cfg.nodes && SnoopsGet(s) && s.caches[k].request.None?
    ensures var s' := ReactCache(cfg.protocol, s, k);
            QueueOk(s') && TransientOk(s', k + 1)
  {
    hide LinesOk, OmDanger, TokensOk, MissesOk, OnSnoop;
    GetFacts(cfg, s, k);
    var s' := ReactCache(cfg.protocol, s, k);
    assert Holder(s', k + 1) == Holder(s, k);
    forall q | q in s'.bus.pending
      ensures q.src < |s'.caches| && q.dest.None? && Matches(q.msg, StateOf(s'.caches[q.src], q.addr))
    {
      assert q in s.bus.pending;
      GetStates(cfg, s, k, q.src, q.addr);
    }
    forall i, a | 0 <= i < |s'.caches| && Transient(StateOf(s'.caches[i], a))
      ensures HasGet(s', k + 1, i, a)
    {
      GetStates(cfg, s, k, i, a);
      assert HasGet(s, k, i, a);
    }
  }

  lemma GetBus(cfg: Config, s: Sys, k: nat)
    requires MidInv(cfg, s, k) && k < cfg.nodes && SnoopsGet(s) && s.caches[k].request.None?
    ensures BusMid(cfg, ReactCache(cfg.protocol, s, k))
    ensures !OmDanger(cfg.protocol, ReactCache(cfg.protocol, s, k), k + 1)
  {
    hide LinesOk, TokensOk, MissesOk, QueueOk, TransientOk, OnSnoop;
    GetFacts(cfg, s, k);
    var s' := ReactCache(cfg.protocol, s, k);
    var q := s.bus.current.value;
    GetStates(cfg, s, k, q.src, q.addr);
    assert forall i :: k + 1 <= i < |s.caches| ==> s'.caches[i] == s.caches[i];
    assert s'.bus.reply.Some? ==> s'.bus.reply == Some(Mreq(DATA, q.addr, s'.bus.reply.value.src, Some(q.src)));
  }

  // ---------------------------------------------------------------- a cache receives its DATA

  lemma DataFacts(cfg: Config, s: Sys, k: nat)
    requires MidInv(cfg, s, k) && k < cfg.nodes && SnoopsOwnData(s, k)
    ensures var q := s.bus.current.value;
            var st := StateOf(s.caches[k], q.addr);
            var r := OnSnoop(cfg.protocol, st, DATA, q.src == k, s.bus.shared);
            && Transient(st)
            && r.fill && !r.abort && !r.supply && !Transient(r.next)
            && L.LineInv(cfg.protocol, Column(s, q.addr)[k := r.next], L.Quiet)
    ensures s.procs[k].buffer.None? && Queued(s.bus.pending, k) == 0
  {
    hide QueueOk, TransientOk, MissesOk, OmDanger;
    var q := s.bus.current.value;
    var col := Column(s, q.addr);
    var t := TxnAt(s, k, q.addr);
    assert L.LineInv(cfg.protocol, col, t);
    assert col[k] == StateOf(s.caches[k], q.addr);
    L.FillKeepsInv(cfg.protocol, col, t, q.src == k);
    assert Places(s, k, k) == One(s.procs[k].outstanding);
  }

  lemma DataLines(cfg: Config, s: Sys, k: nat)
    requires MidInv(cfg, s, k) && k < cfg.nodes && SnoopsOwnData(s, k)
    ensures LinesOk(cfg.protocol, ReactCache(cfg.protocol, s, k), k + 1)
  {
    hide TokensOk, QueueOk, TransientOk, MissesOk, OmDanger, OnSnoop, L.LineInv;
    DataFacts(cfg, s, k);
    var s' := ReactCache(cfg.protocol, s, k);
    var q := s.bus.current.value;
    forall a ensures L.LineInv(cfg.protocol, Column(s', a), TxnAt(s', k + 1, a)) {
      assert L.LineInv(cfg.protocol, Column(s, a), TxnAt(s, k, a));
      ColumnUpdate(s, s', k, a);
      if a != q.addr {
        assert Column(s', a) == Column(s, a);
      }
    }
  }

  lemma DataTokens(cfg: Config, s: Sys, k: nat)
    requires MidInv(cfg, s, k) && k < cfg.nodes && SnoopsOwnData(s, k) && s.caches[k].request.None?
    ensures var s' := ReactCache(cfg.protocol, s, k);
            && !s'.failed && WellSized(cfg, s') && s'.caches[k].request.None?
            && TokensOk(s', k + 1) && MissesOk(s') && BusMid(cfg, s')
  {
    hide LinesOk, QueueOk, TransientOk, OnSnoop;
    DataFacts(cfg, s, k);
    var s' := ReactCache(cfg.protocol, s, k);
    forall i | 0 <= i < |s'.procs| ensures Places(s', k + 1, i) == One(s'.procs[i].outstanding) {
      assert Places(s, k, i) == One(s.procs[i].outstanding);
    }
  }

  lemma DataQueue(cfg: Config, s: Sys, k: nat)
    requires MidInv(cfg, s, k) && k < cfg.nodes && SnoopsOwnData(s, k)
    ensures QueueOk(ReactCache(cfg.protocol, s, k)) && TransientOk(ReactCache(cfg.protocol, s, k), k + 1)
  {
    hide LinesOk, TokensOk, OnSnoop, OmDanger;
    DataFacts(cfg, s, k);
    var s' := ReactCache(cfg.protocol, s, k);
    QueuedNone(s.bus.pending, k);
    forall i, a | 0 <= i < |s'.caches| && Transient(StateOf(s'.caches[i], a))
      ensures HasGet(s', k + 1, i, a)
    {
      assert Transient(StateOf(s.caches[i], a));
      assert HasGet(s, k, i, a);
    }
  }

  lemma IdleReact(cfg: Config, s: Sys, k: nat)
    requires MidInv(cfg, s, k) && k < cfg.nodes && !SnoopsGet(s) && !SnoopsOwnData(s, k)
    ensures ReactCache(cfg.protocol, s, k) == s
    ensures MidInv(cfg, s, k + 1)
  {
    assert s.caches[k := s.caches[k]] == s.caches;
    assert s.procs[k := s.procs[k].(buffer := s.procs[k].buffer)] == s.procs;
    assert Holder(s, k + 1) == Holder(s, k);
    forall a ensures L.LineInv(cfg.protocol, Column(s, a), TxnAt(s, k + 1, a)) {
      assert TxnAt(s, k + 1, a) == TxnAt(s, k, a);
    }
    forall i | 0 <= i < |s.procs| ensures Places(s, k + 1, i) == One(s.procs[i].outstanding) {
      assert Places(s, k + 1, i) == Places(s, k, i);
    }
    forall i, a | 0 <= i < |s.caches| && Transient(StateOf(s.caches[i], a))
      ensures HasGet(s, k + 1, i, a)
    {
      assert HasGet(s, k, i, a);
    }
  }

  lemma ReactKeeps(cfg: Config, s: Sys, k: nat)
    requires MidInv(cfg, s, k) && k < cfg.nodes && s.caches[k].request.None?
    ensures MidInv(cfg, ReactCache(cfg.protocol, s, k), k + 1)
  {
    if SnoopsGet(s) {
      GetLines(cfg, s, k);
      GetTokens(cfg, s, k);
      GetQueue(cfg, s, k);
      GetBus(cfg, s, k);
    } else if SnoopsOwnData(s, k) {
      DataLines(cfg, s, k);
      DataTokens(cfg, s, k);
      DataQueue(cfg, s, k);
    } else {
      IdleReact(cfg, s, k);
    }
  }

  lemma TickCacheKeeps(cfg: Config, s: Sys, k: nat)
    requires MidInv(cfg, s, k) && k < cfg.nodes
    ensures MidInv(cfg, TickCache(cfg.protocol, s, k), k + 1)
  {
    ServeKeeps(cfg, s, k);
    ReactKeeps(cfg, ServeCache(cfg.protocol, s, k), k);
  }

  lemma MidFacts(cfg: Config, s: Sys, k: nat)
    requires MidInv(cfg, s, k)
    ensures WellSized(cfg, s) && !s.failed
  {
  }

  lemma {:induction false} TickCachesKeep(cfg: Config, s: Sys, k: nat)
    requires MidInv(cfg, s, 0) && k <= cfg.nodes
    ensures MidInv(cfg, TickCaches(cfg.protocol, s, k), k)
  {
    hide MidInv, TickCache;
    MidFacts(cfg, s, 0);
    if k > 0 {
      TickCachesKeep(cfg, s, k - 1);
      var x := TickCaches(cfg.protocol, s, k - 1);
      TickCacheKeeps(cfg, x, k - 1);
    }
  }
}
