/** Under MI, MOSI and MOESI a line that has once been modified never goes back to memory: there
    is always one owner, or an owner's DATA is on its way to the next one. Under MOESI this
    holds as long as no OM line snoops another cache's GETS. */
module Ownership {
  import opened Messages
  import opened Reactions
  import opened Protocols
  import opened Machine
  import opened Invariant
  import opened Transactions
  import Steps
  import Cycles
  import L = LineMachine
  import V = LineValues

  // ---------------------------------------------------------------- one line

  /** An owner whose copy memory does not have; E is the owner whose copy it has. */
  predicate Dirty(st: LineState) { st == M || st == O || st == OM }

  ghost predicate HasDirty(col: seq<LineState>) {
    exists i :: 0 <= i < |col| && Dirty(col[i])
  }

  /** The line has such an owner, or is being handed over to one. */
  ghost predicate LineKept(col: seq<LineState>, t: L.Txn) {
    HasDirty(col) || (t.Busy? && t.reply == L.FromCache && t.req < |col| && WantsM(col[t.req]))
  }

  lemma ServedKept(p: Protocol, col: seq<LineState>, t: L.Txn, i: nat, store: bool)
    requires i < |col| && Legal(p, col[i]) && !Transient(col[i]) && LineKept(col, t)
    ensures var r := OnProcessor(p, col[i], store);
            LineKept(col[i := r.next], if t.Busy? then t.(shared := t.shared || r.raise) else t)
  {
    var r := OnProcessor(p, col[i], store);
    DirtyServed(p, col[i], store);
    if HasDirty(col) {
      var j :| 0 <= j < |col| && Dirty(col[j]);
      assert Dirty(col[i := r.next][j]);
    }
  }

  lemma DirtyServed(p: Protocol, st: LineState, store: bool)
    requires Legal(p, st) && !Transient(st)
    ensures Dirty(st) ==> Dirty(OnProcessor(p, st, store).next)
  {
  }

  lemma DirtySnooped(p: Protocol, st: LineState, own: bool, shared: bool)
    requires V.KeepsOwner(p) && p != MI && Legal(p, st) && !(p == MOESI && st == OM)
    ensures Dirty(st) ==> Dirty(OnSnoop(p, st, GETS, own, shared).next)
  {
  }

  lemma SnoopedKept(p: Protocol, col: seq<LineState>, t: L.Txn, msg: Msg)
    requires V.KeepsOwner(p) && !(p == MOESI && msg == GETS && t.Busy? && t.seen < |col| && col[t.seen] == OM)
    requires L.LineInv(p, col, t) && t.Busy? && t.seen < |col| && LineKept(col, t)
    requires msg == (if WantsM(col[t.req]) then GETM else GETS)
    ensures var r := OnSnoop(p, col[t.seen], msg, t.seen == t.req, t.shared);
            LineKept(col[t.seen := r.next],
                     L.Busy(t.req, t.seen + 1, if r.supply then L.FromCache else t.reply, t.shared || r.raise))
  {
    hide L.SingleWriter, L.OwnedIsShared, OnSnoop;
    var i := t.seen;
    var r := OnSnoop(p, col[i], msg, i == t.req, t.shared);
    var col' := col[i := r.next];
    L.SnoopKeepsInv(p, col, t, msg);
    L.SnoopedStaysTransient(p, col[i], msg, i == t.req, t.shared);
    if HasDirty(col) && (!r.supply || msg == GETS) {
      var j :| 0 <= j < |col| && Dirty(col[j]);
      if j == i {
        DirtySnooped(p, col[i], i == t.req, t.shared);
      }
      assert Dirty(col'[j]);
    }
  }

  lemma FilledKept(p: Protocol, col: seq<LineState>, t: L.Txn, own: bool)
    requires L.LineInv(p, col, t) && t.Busy? && t.seen == |col| && LineKept(col, t)
    ensures LineKept(col[t.req := OnSnoop(p, col[t.req], DATA, own, t.shared).next], L.Quiet)
  {
    hide L.SingleWriter, L.OwnedIsShared, L.Snooped;
    L.FillKeepsInv(p, col, t, own);
    var col' := col[t.req := OnSnoop(p, col[t.req], DATA, own, t.shared).next];
    if WantsM(col[t.req]) {
      assert Dirty(col'[t.req]);
    } else {
      var j :| 0 <= j < |col| && Dirty(col[j]);
      assert Dirty(col'[j]);
    }
  }

  /** Memory is never asked for a kept line. */
  lemma KeptNeedsNoMemory(p: Protocol, col: seq<LineState>, t: L.Txn)
    requires L.LineInv(p, col, t) && LineKept(col, t) && t.Busy? && t.seen == |col|
    ensures t.reply == L.FromCache
  {
  }

  // ---------------------------------------------------------------- the machine

  ghost predicate Kept(s: Sys, k: nat, a: Addr) {
    LineKept(Column(s, a), TxnAt(s, k, a))
  }

  lemma GrantKept(cfg: Config, s: Sys, a: Addr)
    requires EndInv(cfg, s) && Kept(s, cfg.nodes, a)
    ensures Kept(Grant(s), 0, a)
  {
    hide LinesOk, TokensOk, TransientOk, MissesOk, QueueOk;
    var s' := Grant(s);
    assert Column(s', a) == Column(s, a);
    if !s.bus.inProgress && s.bus.pending != [] {
      assert TxnAt(s, cfg.nodes, a) == L.Quiet;
    } else {
      assert TxnAt(s', 0, a) == TxnAt(s, cfg.nodes, a);
    }
  }

  lemma ServeKept(cfg: Config, s: Sys, k: nat, a: Addr)
    requires MidInv(cfg, s, k) && k < cfg.nodes && Kept(s, k, a)
    ensures Kept(ServeCache(cfg.protocol, s, k), k, a)
  {
    hide LinesOk, TokensOk, QueueOk, TransientOk, MissesOk, BusMid, OmDanger, OnProcessor;
    if s.caches[k].request.Some? {
      Steps.ServeFacts(cfg, s, k);
      var s' := ServeCache(cfg.protocol, s, k);
      var op := s.caches[k].request.value;
      var r := OnProcessor(cfg.protocol, StateOf(s.caches[k], op.addr), op.Store?);
      var t := TxnAt(s, k, a);
      Steps.ColumnUpdate(s, s', k, a);
      assert TxnAt(s', k, a) == if t.Busy? then t.(shared := t.shared || r.raise) else t;
      if a == op.addr {
        ServedKept(cfg.protocol, Column(s, a), t, k, op.Store?);
      } else {
        assert Column(s', a) == Column(s, a);
      }
    } else {
      Steps.IdleServe(cfg.protocol, s, k);
    }
  }

  lemma ReactKept(cfg: Config, s: Sys, k: nat, a: Addr)
    requires V.KeepsOwner(cfg.protocol)
    requires MidInv(cfg, s, k) && k < cfg.nodes && Kept(s, k, a)
    ensures Kept(ReactCache(cfg.protocol, s, k), k + 1, a)
  {
    hide TokensOk, QueueOk, TransientOk, MissesOk, OmDanger, OnSnoop, L.LineInv;
    var s' := ReactCache(cfg.protocol, s, k);
    var col, t := Column(s, a), TxnAt(s, k, a);
    assert L.LineInv(cfg.protocol, col, t);
    if Steps.SnoopsGet(s) {
      var q := s.bus.current.value;
      Steps.GetFacts(cfg, s, k);
      Steps.ColumnUpdate(s, s', k, a);
      if a == q.addr {
        assert col[q.src] == StateOf(s.caches[q.src], a) && col[k] == StateOf(s.caches[k], a);
        Steps.NoOmHazard(cfg, s, k);
        SnoopedKept(cfg.protocol, col, t, q.msg);
      } else {
        assert Column(s', a) == col;
      }
    } else if Steps.SnoopsOwnData(s, k) {
      var q := s.bus.current.value;
      Steps.DataFacts(cfg, s, k);
      Steps.ColumnUpdate(s, s', k, a);
      if a == q.addr {
        FilledKept(cfg.protocol, col, t, q.src == k);
      } else {
        assert Column(s', a) == col;
      }
    } else {
      Steps.IdleReact(cfg, s, k);
      assert TxnAt(s, k + 1, a) == t;
    }
  }

  lemma {:induction false} CachesKept(cfg: Config, s: Sys, k: nat, a: Addr)
    requires V.KeepsOwner(cfg.protocol)
    requires MidInv(cfg, s, 0) && k <= cfg.nodes && Kept(s, 0, a)
    ensures WellSized(cfg, s) && Kept(TickCaches(cfg.protocol, s, k), k, a)
  {
    hide MidInv, Kept, ServeCache, ReactCache;
    Steps.MidFacts(cfg, s, 0);
    if k > 0 {
      CachesKept(cfg, s, k - 1, a);
      var x := TickCaches(cfg.protocol, s, k - 1);
      Steps.TickCachesKeep(cfg, s, k - 1);
      Steps.MidFacts(cfg, x, k - 1);
      ServeKept(cfg, x, k - 1, a);
      Steps.ServeKeeps(cfg, x, k - 1);
      ReactKept(cfg, ServeCache(cfg.protocol, x, k - 1), k - 1, a);
    }
  }

  lemma LateKept(cfg: Config, s: Sys, s': Sys, a: Addr)
    requires cfg.hitTime >= 1 && Core(cfg, s, cfg.nodes) && BusMid(cfg, s) && Kept(s, cfg.nodes, a)
    requires s' == TockProcs(TickMem(cfg, s)).(clock := s.clock + 1)
    ensures Kept(s', cfg.nodes, a)
  {
    hide TokensOk, QueueOk, TransientOk, MissesOk, L.LineInv;
    assert L.LineInv(cfg.protocol, Column(s, a), TxnAt(s, cfg.nodes, a));
    if TxnAt(s, cfg.nodes, a).Busy? {
      KeptNeedsNoMemory(cfg.protocol, Column(s, a), TxnAt(s, cfg.nodes, a));
    }
    assert Holder(s', cfg.nodes) == Holder(s, cfg.nodes);
    assert Column(s', a) == Column(s, a);
  }

  lemma CycleKept(cfg: Config, s: Sys, a: Addr)
    requires V.KeepsOwner(cfg.protocol)
    requires cfg.hitTime >= 1 && EndInv(cfg, s) && !Cycles.Danger(cfg, s) && Kept(s, cfg.nodes, a)
    ensures WellSized(cfg, s) && Kept(Cycle(cfg, s), cfg.nodes, a)
  {
    hide EndInv, MidInv, Core, BusMid, Cycles.Danger, TickCaches, TickMem, TockProcs;
    var s0, s1, s2 := CycleParts(cfg, s);
    GrantKept(cfg, s, a);
    CachesKept(cfg, s0, cfg.nodes, a);
    ProcsKept(s1, cfg.nodes, a);
    LateKept(cfg, s2, Cycle(cfg, s), a);
  }

  lemma ProcsKept(s: Sys, k: nat, a: Addr)
    requires |s.caches| == |s.procs| && Kept(s, k, a)
    ensures Kept(TickProcs(s), k, a)
  {
    assert Column(TickProcs(s), a) == Column(s, a);
  }

  // ---------------------------------------------------------------- runs

  /** Exactly one cache owns the line, with a copy memory does not have, or none owns it and a
      cache's DATA is about to answer another cache's GETM for it; memory has no part in it. */
  ghost predicate OneOwner(cfg: Config, s: Sys, a: Addr) {
    && (forall i, j :: OwnedBy(s, i, a) && OwnedBy(s, j, a) ==> i == j)
    && (forall i: nat :: OwnedBy(s, i, a) ==> Dirty(StateOf(s.caches[i], a)))
    && ((exists i :: OwnedBy(s, i, a))
        || (s.bus.reply.Some? && s.bus.reply.value.addr == a && s.bus.reply.value.src < cfg.nodes
            && s.bus.reply.value.dest.Some? && s.bus.reply.value.dest.value < |s.caches|
            && WantsM(StateOf(s.caches[s.bus.reply.value.dest.value], a))))
    && (s.bus.reply.Some? && s.bus.reply.value.addr == a ==> s.bus.reply.value.src < cfg.nodes)
    && (s.bus.inProgress && Holder(s, cfg.nodes).Some? && Holder(s, cfg.nodes).value.addr == a ==> s.bus.reply.Some?)
  }

  lemma KeptMeansOneOwner(cfg: Config, s: Sys, a: Addr)
    requires EndInv(cfg, s) && Kept(s, cfg.nodes, a)
    ensures OneOwner(cfg, s, a)
  {
    hide LinesOk, TokensOk, QueueOk, TransientOk, MissesOk, L.LineInv;
    var col, t := Column(s, a), TxnAt(s, cfg.nodes, a);
    assert L.LineInv(cfg.protocol, col, t) by { LineHolds(cfg, s, a); }
    OneDirty(cfg.protocol, col, t);
    assert forall i: nat :: OwnedBy(s, i, a) <==> i < |col| && Owner(col[i]);
    if t.Busy? {
      KeptNeedsNoMemory(cfg.protocol, col, t);
    }
    if HasDirty(col) {
      var j :| 0 <= j < |col| && Dirty(col[j]);
      assert OwnedBy(s, j, a);
    }
  }

  lemma LineHolds(cfg: Config, s: Sys, a: Addr)
    requires EndInv(cfg, s)
    ensures L.LineInv(cfg.protocol, Column(s, a), TxnAt(s, cfg.nodes, a))
  {
  }

  /** A kept line has no owner beside the one whose copy memory does not have. */
  lemma OneDirty(p: Protocol, col: seq<LineState>, t: L.Txn)
    requires L.LineInv(p, col, t) && LineKept(col, t) && (t.Busy? ==> t.seen == |col|)
    ensures forall i, j :: 0 <= i < |col| && 0 <= j < |col| && Owner(col[i]) && Owner(col[j]) ==> i == j
    ensures forall i :: 0 <= i < |col| && Owner(col[i]) ==> Dirty(col[i])
  {
    hide L.OwnedIsShared;
    if HasDirty(col) {
      var j :| 0 <= j < |col| && Dirty(col[j]);
      assert forall i :: 0 <= i < |col| && i != j ==> !Owner(col[i]);
    }
  }

  lemma {:induction false} StaysKept(cfg: Config, traces: seq<seq<Op>>, m: nat, later: nat, a: Addr)
    requires V.KeepsOwner(cfg.protocol)
    requires cfg.hitTime >= 1 && |traces| == cfg.nodes && m <= later && Cycles.Safe(cfg, Initial(traces), later)
    requires Kept(After(cfg, Initial(traces), m), cfg.nodes, a)
    ensures Kept(After(cfg, Initial(traces), later), cfg.nodes, a)
  {
    hide EndInv, Kept, Cycles.Danger, Cycle;
    if later > m {
      StaysKept(cfg, traces, m, later - 1, a);
      Cycles.ReachableOk(cfg, traces, later - 1);
      CycleKept(cfg, After(cfg, Initial(traces), later - 1), a);
    }
  }

  /** Ownership is conserved: once a cache holds the line in M, at the end of every later
      cycle it has one owner or is being handed over, and memory never answers for it. MOESI
      must not have met its hazard. */
  lemma OwnershipConserved(cfg: Config, traces: seq<seq<Op>>, m: nat, i: nat, later: nat, a: Addr)
    requires V.KeepsOwner(cfg.protocol)
    requires cfg.hitTime >= 1 && |traces| == cfg.nodes && m <= later
    requires cfg.protocol == MOESI ==> Cycles.Safe(cfg, Initial(traces), later)
    requires i < cfg.nodes && StateOf(After(cfg, Initial(traces), m).caches[i], a) == M
    ensures OneOwner(cfg, After(cfg, Initial(traces), later), a)
  {
    hide EndInv, OneOwner, Cycles.Danger, Cycle;
    if cfg.protocol != MOESI {
      Cycles.AlwaysSafe(cfg, Initial(traces), later);
    }
    var s := After(cfg, Initial(traces), m);
    assert Dirty(Column(s, a)[i]);
    assert Kept(s, cfg.nodes, a);
    StaysKept(cfg, traces, m, later, a);
    Cycles.ReachableOk(cfg, traces, later);
    KeptMeansOneOwner(cfg, After(cfg, Initial(traces), later), a);
  }
}
