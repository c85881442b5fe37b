/** What every run of every protocol keeps until a fatal error ends it, MOESI's hazard
    included: a processor that waits has exactly one transient line, and every transient line
    has a GET in the queue or on the bus. Nothing is said about who else holds a line. */
module Liveness {
  import opened Messages
  import opened Reactions
  import opened Protocols
  import opened Machine
  import opened Invariant
  import Cycles
  import Steps

  ghost predicate Stable(c: Cache) {
    forall b :: !Transient(StateOf(c, b))
  }

  /** A processor that is answered or idle has no transient line. */
  ghost predicate Calm(p: Protocol, c: Cache, r: Proc) {
    && (forall b :: Legal(p, StateOf(c, b)))
    && (c.request.Some? ==> r.outstanding && r.inbound.None? && r.buffer.None? && Stable(c))
    && (r.inbound.Some? || r.buffer.Some? || !r.outstanding ==> c.request.None? && Stable(c))
    && (r.buffer.Some? ==> r.outstanding && r.inbound.None?)
  }

  predicate Unanswered(r: Proc) {
    r.outstanding && r.inbound.None? && r.buffer.None?
  }

  /** A processor whose request has left its cache waits for a transient line. */
  ghost predicate Asking(c: Cache, r: Proc) {
    && (forall a, b :: Transient(StateOf(c, a)) && Transient(StateOf(c, b)) ==> a == b)
    && (Unanswered(r) && c.request.None? ==> exists a :: Transient(StateOf(c, a)))
  }

  ghost predicate NodeOk(p: Protocol, c: Cache, r: Proc) {
    Calm(p, c, r) && Asking(c, r)
  }

  ghost predicate NodesOk(p: Protocol, s: Sys) {
    && |s.caches| == |s.procs|
    && forall i :: 0 <= i < |s.caches| ==> NodeOk(p, s.caches[i], s.procs[i])
  }

  ghost predicate GetsQueued(s: Sys) {
    forall q :: q in s.bus.pending ==> q.src < |s.caches| && q.dest.None? && q.msg != DATA
  }

  ghost predicate Steady(cfg: Config, s: Sys, k: nat) {
    WellSized(cfg, s) && !s.failed && NodesOk(cfg.protocol, s) && GetsQueued(s) && TransientOk(s, k)
  }

  ghost predicate MidSteady(cfg: Config, s: Sys, k: nat) {
    Steady(cfg, s, k) && BusShape(cfg, s)
  }

  ghost predicate EndSteady(cfg: Config, s: Sys) {
    Steady(cfg, s, cfg.nodes) && BusEnd(cfg, s) && BuffersEmpty(s)
  }

  // ---------------------------------------------------------------- a cache serves its processor

  /** A request is answered or becomes a GET behind the others. */
  lemma ServeShape(p: Protocol, s: Sys, k: nat)
    requires |s.caches| == |s.procs| && k < |s.caches| && !s.failed
    requires Calm(p, s.caches[k], s.procs[k]) && s.caches[k].request.Some?
    ensures var x, op := ServeCache(p, s, k), s.caches[k].request.value;
            var r := OnProcessor(p, StateOf(s.caches[k], op.addr), op.Store?);
            && !x.failed && |x.caches| == |x.procs| == |s.procs| && x.mem == s.mem && x.clock == s.clock
            && x.caches == s.caches[k := Cache(None, s.caches[k].lines[op.addr := r.next])]
            && x.procs == s.procs[k := s.procs[k].(buffer := if r.answer == Hit then Some(op.addr) else None)]
            && x.bus == s.bus.(shared := x.bus.shared, pending := x.bus.pending)
            && x.bus.pending == (if r.answer == Hit then s.bus.pending
                                 else s.bus.pending
                                      + [Mreq(if r.answer == AskShared then GETS else GETM, op.addr, k, None)])
  {
    hide OnProcessor;
    Steps.AskedForMatches(p, StateOf(s.caches[k], s.caches[k].request.value.addr), s.caches[k].request.value.Store?);
  }

  lemma LegalServed(p: Protocol, st: LineState, store: bool)
    requires Legal(p, st) && !Transient(st)
    ensures var r := OnProcessor(p, st, store);
            && Legal(p, r.next) && r.answer != Abort && Transient(r.next) == (r.answer != Hit)
            && (r.next == OM || r.next == O ==> st == O) && (r.next == OM ==> store)
  {
  }

  lemma ServeSteady(cfg: Config, s: Sys, k: nat)
    requires MidSteady(cfg, s, k) && k < cfg.nodes
    ensures MidSteady(cfg, ServeCache(cfg.protocol, s, k), k)
    ensures ServeCache(cfg.protocol, s, k).caches[k].request.None?
  {
    hide OnProcessor, Legal, Transient;
    if s.caches[k].request.None? {
      Steps.IdleServe(cfg.protocol, s, k);
      return;
    }
    assert NodeOk(cfg.protocol, s.caches[k], s.procs[k]);
    ServeShape(cfg.protocol, s, k);
    var x, op := ServeCache(cfg.protocol, s, k), s.caches[k].request.value;
    var r := OnProcessor(cfg.protocol, StateOf(s.caches[k], op.addr), op.Store?);
    LegalServed(cfg.protocol, StateOf(s.caches[k], op.addr), op.Store?);
    assert forall b :: StateOf(x.caches[k], b) == if b == op.addr then r.next else StateOf(s.caches[k], b);
    assert Transient(StateOf(x.caches[k], op.addr)) == (r.answer != Hit);
    assert NodeOk(cfg.protocol, x.caches[k], x.procs[k]);
    forall i, a | 0 <= i < |x.caches| && Transient(StateOf(x.caches[i], a)) ensures HasGet(x, k, i, a) {
      if i == k && a == op.addr {
        assert Mreq(if r.answer == AskShared then GETS else GETM, op.addr, k, None) in x.bus.pending;
      } else {
        assert HasGet(s, k, i, a);
        assert forall q :: q in s.bus.pending ==> q in x.bus.pending;
      }
    }
  }

  // ---------------------------------------------------------------- a cache snoops the bus

  /** Only MOESI's OM lines are filled by a GET. */
  lemma GetTable(p: Protocol, st: LineState, msg: Msg, own: bool, shared: bool)
    requires Legal(p, st) && msg != DATA
    ensures var r := OnSnoop(p, st, msg, own, shared);
            && !r.abort && Legal(p, r.next)
            && (if r.fill then p == MOESI && msg == GETS && st == OM && r.next == M && !r.supply
                else Transient(r.next) == Transient(st))
  {
    match p
    case MI => match msg { case GETS => case GETM => }
    case MSI => match msg { case GETS => case GETM => }
    case MESI => match msg { case GETS => case GETM => }
    case MOSI => match msg { case GETS => case GETM => }
    case MOESI => match msg { case GETS => case GETM => }
  }

  /** DATA for a line that waits for none is a fatal error, unless the line is in I. */
  lemma DataTable(p: Protocol, st: LineState, own: bool, shared: bool)
    requires Legal(p, st)
    ensures var r := OnSnoop(p, st, DATA, own, shared);
            if Transient(st) then r.fill && !r.abort && !r.supply && !Transient(r.next) && Legal(p, r.next)
            else r.abort || r == Ignored(st)
  {
  }

  lemma GetSteady(cfg: Config, s: Sys, k: nat)
    requires MidSteady(cfg, s, k) && k < cfg.nodes && s.caches[k].request.None? && Steps.SnoopsGet(s)
    ensures var x := ReactCache(cfg.protocol, s, k);
            x.failed || MidSteady(cfg, x, k + 1)
  {
    hide OnSnoop, Legal, Transient;
    var x, q := ReactCache(cfg.protocol, s, k), s.bus.current.value;
    var r := OnSnoop(cfg.protocol, StateOf(s.caches[k], q.addr), q.msg, q.src == k, s.bus.shared);
    assert NodeOk(cfg.protocol, s.caches[k], s.procs[k]);
    GetTable(cfg.protocol, StateOf(s.caches[k], q.addr), q.msg, q.src == k, s.bus.shared);
    StablePoints();
    if !x.failed {
      assert forall b :: StateOf(x.caches[k], b) == if b == q.addr then r.next else StateOf(s.caches[k], b);
      SnoopedNode(cfg.protocol, s.caches[k], s.procs[k], x.caches[k], x.procs[k], q.addr);
      forall i, a | 0 <= i < |x.caches| && Transient(StateOf(x.caches[i], a)) ensures HasGet(x, k + 1, i, a) {
        assert Transient(StateOf(s.caches[i], a));
        assert HasGet(s, k, i, a);
      }
      assert x.bus.reply.Some? ==> x.bus.reply == Some(Mreq(DATA, q.addr, x.bus.reply.value.src, Some(q.src)));
    }
  }

  lemma StablePoints()
    ensures Transient(OM) && !Transient(M)
  {
  }

  /** A snooped message leaves a line as transient as it was, or answers the processor. */
  lemma SnoopedNode(p: Protocol, c: Cache, r: Proc, c': Cache, r': Proc, a: Addr)
    requires NodeOk(p, c, r) && c.request.None? && c'.request.None?
    requires forall b :: b != a ==> StateOf(c', b) == StateOf(c, b)
    requires Legal(p, StateOf(c', a))
    requires if r' == r then Transient(StateOf(c', a)) == Transient(StateOf(c, a))
             else r' == r.(buffer := Some(a)) && Transient(StateOf(c, a)) && !Transient(StateOf(c', a))
    ensures NodeOk(p, c', r')
  {
    hide Legal, Transient;
    assert forall b :: Transient(StateOf(c', b)) ==> Transient(StateOf(c, b));
    if r' == r && Unanswered(r) {
      var b :| Transient(StateOf(c, b));
      assert Transient(StateOf(c', b));
    }
  }

  lemma DataSteady(cfg: Config, s: Sys, k: nat)
    requires MidSteady(cfg, s, k) && k < cfg.nodes && s.caches[k].request.None? && Steps.SnoopsOwnData(s, k)
    ensures var x := ReactCache(cfg.protocol, s, k);
            x.failed || MidSteady(cfg, x, k + 1)
  {
    hide OnSnoop, Legal, Transient;
    var x, q := ReactCache(cfg.protocol, s, k), s.bus.current.value;
    var r := OnSnoop(cfg.protocol, StateOf(s.caches[k], q.addr), q.msg, q.src == k, s.bus.shared);
    assert NodeOk(cfg.protocol, s.caches[k], s.procs[k]);
    DataTable(cfg.protocol, StateOf(s.caches[k], q.addr), q.src == k, s.bus.shared);
    if !x.failed {
      assert forall b :: StateOf(x.caches[k], b) == if b == q.addr then r.next else StateOf(s.caches[k], b);
      SnoopedNode(cfg.protocol, s.caches[k], s.procs[k], x.caches[k], x.procs[k], q.addr);
      forall i, a | 0 <= i < |x.caches| && Transient(StateOf(x.caches[i], a)) ensures HasGet(x, k + 1, i, a) {
        assert Transient(StateOf(s.caches[i], a));
        assert HasGet(s, k, i, a);
      }
    }
  }

  lemma IdleSteady(cfg: Config, s: Sys, k: nat)
    requires MidSteady(cfg, s, k) && k < cfg.nodes && !Steps.SnoopsGet(s) && !Steps.SnoopsOwnData(s, k)
    ensures ReactCache(cfg.protocol, s, k) == s && MidSteady(cfg, s, k + 1)
  {
    assert s.caches[k := s.caches[k]] == s.caches;
    assert s.procs[k := s.procs[k].(buffer := s.procs[k].buffer)] == s.procs;
    forall i, a | 0 <= i < |s.caches| && Transient(StateOf(s.caches[i], a)) ensures HasGet(s, k + 1, i, a) {
      assert HasGet(s, k, i, a);
    }
  }

  lemma ReactSteady(cfg: Config, s: Sys, k: nat)
    requires MidSteady(cfg, s, k) && k < cfg.nodes && s.caches[k].request.None?
    ensures var x := ReactCache(cfg.protocol, s, k);
            x.failed || MidSteady(cfg, x, k + 1)
  {
    hide MidSteady, ReactCache;
    if Steps.SnoopsGet(s) {
      GetSteady(cfg, s, k);
    } else if Steps.SnoopsOwnData(s, k) {
      DataSteady(cfg, s, k);
    } else {
      IdleSteady(cfg, s, k);
      SteadyFacts(cfg, s, k);
    }
  }

  lemma SteadyFacts(cfg: Config, s: Sys, k: nat)
    requires MidSteady(cfg, s, k)
    ensures WellSized(cfg, s) && !s.failed && BusShape(cfg, s)
  {
  }

  // ---------------------------------------------------------------- the rest of a cycle

  lemma GrantSteady(cfg: Config, s: Sys)
    requires EndSteady(cfg, s)
    ensures MidSteady(cfg, Grant(s), 0)
  {
    hide NodesOk;
    var x := Grant(s);
    if !s.bus.inProgress && s.bus.pending != [] {
      assert s.bus.pending[0] in s.bus.pending;
      assert s.bus.pending == [s.bus.pending[0]] + s.bus.pending[1..];
    }
    assert NodesOk(cfg.protocol, x) by { SameNodes(cfg.protocol, s, x); }
    forall i, a | 0 <= i < |x.caches| && Transient(StateOf(x.caches[i], a)) ensures HasGet(x, 0, i, a) {
      assert HasGet(s, cfg.nodes, i, a);
    }
  }

  lemma SameNodes(p: Protocol, s: Sys, x: Sys)
    requires NodesOk(p, s) && x.caches == s.caches && x.procs == s.procs
    ensures NodesOk(p, x)
  {
  }

  lemma ProcsSteady(cfg: Config, s: Sys)
    requires MidSteady(cfg, s, cfg.nodes)
    ensures MidSteady(cfg, TickProcs(s), cfg.nodes)
  {
    hide Legal, Transient;
    var x := TickProcs(s);
    forall i | 0 <= i < |x.caches| ensures NodeOk(cfg.protocol, x.caches[i], x.procs[i]) {
      assert NodeOk(cfg.protocol, s.caches[i], s.procs[i]);
      assert forall b :: StateOf(x.caches[i], b) == StateOf(s.caches[i], b);
    }
    forall i, a | 0 <= i < |x.caches| && Transient(StateOf(x.caches[i], a)) ensures HasGet(x, cfg.nodes, i, a) {
      assert HasGet(s, cfg.nodes, i, a);
    }
  }

  lemma LateSteady(cfg: Config, s: Sys)
    requires MidSteady(cfg, s, cfg.nodes) && cfg.hitTime >= 1
    ensures var x := TockProcs(TickMem(cfg, s));
            !x.failed && x.clock == s.clock && EndSteady(cfg, x.(clock := s.clock + 1))
  {
    hide Legal, Transient;
    Cycles.MemBus(cfg, s);
    var x := TockProcs(TickMem(cfg, s)).(clock := s.clock + 1);
    forall i | 0 <= i < |x.caches| ensures NodeOk(cfg.protocol, x.caches[i], x.procs[i]) {
      assert NodeOk(cfg.protocol, s.caches[i], s.procs[i]);
    }
    forall i, a | 0 <= i < |x.caches| && Transient(StateOf(x.caches[i], a)) ensures HasGet(x, cfg.nodes, i, a) {
      assert HasGet(s, cfg.nodes, i, a);
    }
  }

  lemma InitialSteady(cfg: Config, traces: seq<seq<Op>>)
    requires |traces| == cfg.nodes
    ensures EndSteady(cfg, Initial(traces))
  {
  }
}
