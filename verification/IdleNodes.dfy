/** Nodes without a trace change nothing: a run with more of them is the same run, and the
    memory controller's module number is the only thing in it that differs. */
module IdleNodes {
  import opened Messages
  import opened Reactions
  import opened Protocols
  import opened Machine
  import opened Shadow
  import Steps

  function Wider(cfg: Config, n: nat): Config { cfg.(nodes := n) }

  function Padded(traces: seq<seq<Op>>, n: nat): (r: seq<seq<Op>>)
    requires |traces| <= n
    ensures |r| == n
  {
    traces + seq(n - |traces|, _ => [])
  }

  /** Memory's module number is the number of nodes. */
  function Renumbered(n: nat, m: nat, q: Mreq): Mreq {
    if q.msg == DATA && q.src == n then q.(src := m) else q
  }

  function RenumberedSlot(n: nat, m: nat, o: Option<Mreq>): Option<Mreq> {
    match o
    case None => None
    case Some(q) => Some(Renumbered(n, m, q))
  }

  function RenumberedBus(n: nat, m: nat, b: Bus): Bus {
    b.(current := RenumberedSlot(n, m, b.current), reply := RenumberedSlot(n, m, b.reply))
  }

  function RenumberedPort(n: nat, m: nat, y: Port): Port {
    y.(bus := RenumberedBus(n, m, y.bus))
  }

  ghost predicate OnlyGets(ps: seq<Mreq>) {
    forall q :: q in ps ==> q.msg != DATA
  }

  ghost predicate Asleep(c: Cache, r: Proc) {
    && c.request.None? && (forall b :: StateOf(c, b) == I)
    && r.trace == [] && !r.outstanding && r.inbound.None? && r.buffer.None?
  }

  /** x is s with more nodes, all of them asleep. */
  ghost predicate Extends(s: Sys, x: Sys) {
    && |s.caches| == |s.procs| <= |x.caches| == |x.procs|
    && x.bus == RenumberedBus(|s.caches|, |x.caches|, s.bus)
    && OnlyGets(s.bus.pending) && x.mem == s.mem && x.clock == s.clock && x.stats == s.stats && x.failed == s.failed
    && (forall i :: 0 <= i < |s.caches| ==> x.caches[i] == s.caches[i] && x.procs[i] == s.procs[i])
    && (forall i :: |s.caches| <= i < |x.caches| ==> Asleep(x.caches[i], x.procs[i]))
  }

  ghost predicate ExtendsValues(v: Values, w: Values) {
    && |v.copies| == |v.ops| <= |w.copies| == |w.ops|
    && w.wire == v.wire && w.memory == v.memory && w.log == v.log
    && (forall i :: 0 <= i < |v.ops| ==> w.copies[i] == v.copies[i] && w.ops[i] == v.ops[i])
    && (forall i :: |v.ops| <= i < |w.ops| ==> w.ops[i].None?)
  }

  // ---------------------------------------------------------------- the caches of the smaller machine

  function RenumberedWires(n: nat, m: nat, w: Wires): Wires {
    w.(bus := RenumberedBus(n, m, w.bus))
  }

  lemma OrderWires(i: nat, a: Addr, r: ProcOut, w: Wires, n: nat, m: nat)
    requires OnlyGets(w.bus.pending)
    ensures Order(i, a, r, RenumberedWires(n, m, w)) == RenumberedWires(n, m, Order(i, a, r, w))
    ensures OnlyGets(Order(i, a, r, w).bus.pending)
  {
  }

  lemma ServePort(p: Protocol, i: nat, y: Port, n: nat, m: nat)
    requires OnlyGets(y.bus.pending)
    ensures Serve(p, i, RenumberedPort(n, m, y)) == RenumberedPort(n, m, Serve(p, i, y))
    ensures OnlyGets(Serve(p, i, y).bus.pending)
  {
    hide OnProcessor, Order, OnlyGets;
    if y.cache.request.Some? {
      var op := y.cache.request.value;
      OrderWires(i, op.addr, OnProcessor(p, StateOf(y.cache, op.addr), op.Store?),
                 Wires(y.bus, y.buffer, y.stats.(accesses := y.stats.accesses + 1), false), n, m);
    }
  }

  lemma DataGetsNoData(p: Protocol, st: LineState, own: bool, shared: bool)
    ensures !OnSnoop(p, st, DATA, own, shared).supply
  {
  }

  lemma ReplyWires(i: nat, q: Mreq, r: SnoopOut, w: Wires, n: nat, m: nat)
    requires i < n <= m && (q.msg == DATA ==> !r.supply)
    ensures Reply(i, Renumbered(n, m, q), r, RenumberedWires(n, m, w)) == RenumberedWires(n, m, Reply(i, q, r, w))
    ensures Reply(i, q, r, w).bus.pending == w.bus.pending
  {
  }

  lemma ReactPort(p: Protocol, i: nat, y: Port, n: nat, m: nat)
    requires i < n <= m
    ensures React(p, i, RenumberedPort(n, m, y)) == RenumberedPort(n, m, React(p, i, y))
    ensures React(p, i, y).bus.pending == y.bus.pending
  {
    hide OnSnoop, Reply;
    if y.bus.current.Some? {
      var q := y.bus.current.value;
      DataGetsNoData(p, StateOf(y.cache, q.addr), q.src == i, y.bus.shared);
      ReplyWires(i, q, OnSnoop(p, StateOf(y.cache, q.addr), q.msg, q.src == i, y.bus.shared),
                 Wires(y.bus, y.buffer, y.stats, false), n, m);
    }
  }

  lemma PortExtends(s: Sys, x: Sys, k: nat, y: Port)
    requires Extends(s, x) && k < |s.caches| && OnlyGets(y.bus.pending)
    ensures Extends(WithPort(s, k, y), WithPort(x, k, RenumberedPort(|s.caches|, |x.caches|, y)))
  {
    hide Asleep, OnlyGets;
  }

  lemma ServeExtends(p: Protocol, s: Sys, x: Sys, k: nat)
    requires Extends(s, x) && k < |s.caches|
    ensures Extends(ServeCache(p, s, k), ServeCache(p, x, k))
  {
    hide Serve, Asleep, OnlyGets;
    var y := PortOf(s, k);
    ServePort(p, k, y, |s.caches|, |x.caches|);
    PortExtends(s, x, k, Serve(p, k, y));
    assert PortOf(x, k) == RenumberedPort(|s.caches|, |x.caches|, y);
  }

  lemma ReactExtends(p: Protocol, s: Sys, x: Sys, k: nat)
    requires Extends(s, x) && k < |s.caches|
    ensures Extends(ReactCache(p, s, k), ReactCache(p, x, k))
  {
    hide React, Asleep, OnlyGets;
    var y := PortOf(s, k);
    ReactPort(p, k, y, |s.caches|, |x.caches|);
    PortExtends(s, x, k, React(p, k, y));
    assert PortOf(x, k) == RenumberedPort(|s.caches|, |x.caches|, y);
  }

  lemma CommitExtends(v: Values, w: Values, k: nat, op: Op)
    requires ExtendsValues(v, w) && k < |v.ops|
    ensures ExtendsValues(Commit(v, k, op), Commit(w, k, op))
  {
  }

  lemma CarryExtends(v: Values, w: Values, k: nat, q: Mreq, q': Mreq, r: SnoopOut)
    requires ExtendsValues(v, w) && k < |v.ops| && q'.addr == q.addr && q'.msg == q.msg
    ensures ExtendsValues(Carry(v, k, q, r), Carry(w, k, q', r))
  {
    hide Commit;
    var v1 :=
      if r.supply then v.(wire := ValueOf(v.copies[k], q.addr))
      else if r.fill && q.msg == DATA then v.(copies := v.copies[k := With(v.copies[k], q.addr, v.wire)])
      else v;
    var w1 :=
      if r.supply then w.(wire := ValueOf(w.copies[k], q.addr))
      else if r.fill && q.msg == DATA then w.(copies := w.copies[k := With(w.copies[k], q.addr, w.wire)])
      else w;
    assert ExtendsValues(v1, w1);
    if r.fill && v.ops[k].Some? {
      CommitExtends(v1, w1, k, v.ops[k].value);
    }
  }

  lemma TurnExtends(p: Protocol, s: Sys, x: Sys, v: Values, w: Values, k: nat)
    requires Extends(s, x) && ExtendsValues(v, w) && Fits(s, v) && Fits(x, w) && k < |s.caches|
    ensures ExtendsValues(ShadowServe(p, s, v, k), ShadowServe(p, x, w, k))
    ensures ExtendsValues(ShadowReact(p, s, v, k), ShadowReact(p, x, w, k))
  {
    hide OnProcessor, OnSnoop, Commit, Carry;
    if s.caches[k].request.Some? {
      CommitExtends(v, w, k, s.caches[k].request.value);
    }
    if s.bus.current.Some? {
      var q, q' := s.bus.current.value, x.bus.current.value;
      CarryExtends(v, w, k, q, q', OnSnoop(p, StateOf(s.caches[k], q.addr), q.msg, q.src == k, s.bus.shared));
    }
  }

  lemma {:induction false} CachesExtend(p: Protocol, s: Sys, x: Sys, v: Values, w: Values, k: nat)
    requires Extends(s, x) && ExtendsValues(v, w) && Fits(s, v) && Fits(x, w) && k <= |s.caches|
    ensures Extends(TickCaches(p, s, k), TickCaches(p, x, k))
    ensures ExtendsValues(ShadowCaches(p, s, v, k), ShadowCaches(p, x, w, k))
  {
    hide Extends, ExtendsValues, ServeCache, ReactCache, ShadowServe, ShadowReact;
    ExtendsSizes(s, x);
    if k > 0 {
      CachesExtend(p, s, x, v, w, k - 1);
      CachesKeepSize(p, s, k - 1);
      CachesKeepSize(p, x, k - 1);
      var s0, x0 := TickCaches(p, s, k - 1), TickCaches(p, x, k - 1);
      var v0, w0 := ShadowCaches(p, s, v, k - 1), ShadowCaches(p, x, w, k - 1);
      TurnExtends(p, s0, x0, v0, w0, k - 1);
      ServeExtends(p, s0, x0, k - 1);
      var s1, x1 := ServeCache(p, s0, k - 1), ServeCache(p, x0, k - 1);
      ServeSizes(p, s0, k - 1);
      ServeSizes(p, x0, k - 1);
      TurnExtends(p, s1, x1, ShadowServe(p, s0, v0, k - 1), ShadowServe(p, x0, w0, k - 1), k - 1);
      ReactExtends(p, s1, x1, k - 1);
    }
  }

  lemma ExtendsSizes(s: Sys, x: Sys)
    requires Extends(s, x)
    ensures |s.caches| == |s.procs| <= |x.caches| == |x.procs| && x.failed == s.failed
  {
  }

  lemma ServeSizes(p: Protocol, s: Sys, k: nat)
    requires |s.caches| == |s.procs| && k < |s.caches|
    ensures |ServeCache(p, s, k).caches| == |ServeCache(p, s, k).procs| == |s.procs|
  {
    hide Serve;
  }

  // ---------------------------------------------------------------- the others

  /** A line in state I takes no notice of anything on the bus. */
  lemma IgnoresBus(p: Protocol, msg: Msg, own: bool, shared: bool)
    ensures OnSnoop(p, I, msg, own, shared) == Ignored(I)
  {
  }

  lemma SleepingPort(p: Protocol, i: nat, y: Port)
    requires !y.failed && forall b :: StateOf(y.cache, b) == I
    ensures var z := React(p, i, y);
            && z == y.(cache := z.cache) && z.cache.request == y.cache.request
            && (forall b :: StateOf(z.cache, b) == I)
  {
    hide OnSnoop, Reply;
    if y.bus.current.Some? {
      var q := y.bus.current.value;
      assert StateOf(y.cache, q.addr) == I;
      IgnoresBus(p, q.msg, q.src == i, y.bus.shared);
      IgnoredReply(i, q, Wires(y.bus, y.buffer, y.stats, false));
    }
    forall b ensures StateOf(React(p, i, y).cache, b) == I {
      assert StateOf(y.cache, b) == I;
    }
  }

  lemma IgnoredReply(i: nat, q: Mreq, w: Wires)
    requires !w.failed
    ensures Reply(i, q, Ignored(I), w) == w
  {
  }

  lemma SleepsOn(p: Protocol, s: Sys, x: Sys, v: Values, w: Values, k: nat)
    requires Extends(s, x) && ExtendsValues(v, w) && Fits(s, v) && Fits(x, w) && |s.caches| <= k < |x.caches|
    ensures ServeCache(p, x, k) == x && Extends(s, ReactCache(p, x, k))
    ensures ShadowServe(p, x, w, k) == w && ShadowReact(p, x, w, k) == w
  {
    hide OnSnoop, OnProcessor, React, OnlyGets;
    assert Asleep(x.caches[k], x.procs[k]);
    Steps.IdleServe(p, x, k);
    if !x.failed {
      SleepingPort(p, k, PortOf(x, k));
    }
    if x.bus.current.Some? {
      var q := x.bus.current.value;
      IgnoresBus(p, q.msg, q.src == k, x.bus.shared);
      assert StateOf(x.caches[k], q.addr) == I;
    }
  }

  lemma {:induction false} AllSleepOn(p: Protocol, s: Sys, x: Sys, v: Values, w: Values, k: nat)
    requires Extends(s, x) && ExtendsValues(v, w) && Fits(s, v) && Fits(x, w) && |s.caches| <= k <= |x.caches|
    ensures Extends(TickCaches(p, s, |s.caches|), TickCaches(p, x, k))
    ensures ExtendsValues(ShadowCaches(p, s, v, |s.caches|), ShadowCaches(p, x, w, k))
  {
    hide Extends, ExtendsValues, ServeCache, ReactCache, ShadowServe, ShadowReact;
    ExtendsSizes(s, x);
    var n := |s.caches|;
    if k == n {
      CachesExtend(p, s, x, v, w, n);
    } else {
      AllSleepOn(p, s, x, v, w, k - 1);
      CachesKeepSize(p, s, n);
      CachesKeepSize(p, x, k - 1);
      SleepsOn(p, TickCaches(p, s, n), TickCaches(p, x, k - 1), ShadowCaches(p, s, v, n), ShadowCaches(p, x, w, k - 1),
               k - 1);
    }
  }

  // ---------------------------------------------------------------- cycles and runs

  lemma GrantExtends(s: Sys, x: Sys)
    requires Extends(s, x)
    ensures Extends(Grant(s), Grant(x))
  {
    hide Asleep;
    if s.bus.pending != [] {
      assert s.bus.pending[0] in s.bus.pending;
    }
  }

  lemma ProcsExtend(s: Sys, x: Sys, v: Values, w: Values)
    requires Extends(s, x) && ExtendsValues(v, w) && Fits(s, v) && Fits(x, w)
    ensures Extends(TickProcs(s), TickProcs(x)) && ExtendsValues(ShadowProcs(s, v), ShadowProcs(x, w))
  {
    forall i | |s.caches| <= i < |x.caches|
      ensures Asleep(TickProcs(x).caches[i], TickProcs(x).procs[i])
      ensures ShadowProcs(x, w).ops[i].None?
    {
      assert Asleep(x.caches[i], x.procs[i]);
    }
  }

  lemma MemExtends(cfg: Config, copies: bool, s: Sys, x: Sys, v: Values, w: Values)
    requires Extends(s, x) && ExtendsValues(v, w) && |s.caches| == cfg.nodes
    ensures var big := Wider(cfg, |x.caches|);
            && Extends(TickMem(cfg, s), TickMem(big, x))
            && ExtendsValues(ShadowMem(cfg, copies, s, v), ShadowMem(big, copies, x, w))
  {
    hide Asleep;
  }

  lemma TocksExtend(s: Sys, x: Sys)
    requires Extends(s, x)
    ensures Extends(TockProcs(s), TockProcs(x))
  {
    forall i | |s.caches| <= i < |x.caches| ensures Asleep(TockProcs(x).caches[i], TockProcs(x).procs[i]) {
      assert Asleep(x.caches[i], x.procs[i]);
    }
  }

  lemma ClockExtends(s: Sys, x: Sys)
    requires Extends(s, x)
    ensures Extends(if s.failed then s else s.(clock := s.clock + 1), if x.failed then x else x.(clock := x.clock + 1))
  {
  }

  lemma CycleExtends(cfg: Config, copies: bool, s: Sys, x: Sys, v: Values, w: Values)
    requires Extends(s, x) && ExtendsValues(v, w) && Fits(s, v) && Fits(x, w) && |s.caches| == cfg.nodes
    ensures WellSized(cfg, s) && WellSized(Wider(cfg, |x.caches|), x)
    ensures Extends(Cycle(cfg, s), Cycle(Wider(cfg, |x.caches|), x))
    ensures ExtendsValues(ShadowCycle(cfg, copies, s, v), ShadowCycle(Wider(cfg, |x.caches|), copies, x, w))
  {
    hide Extends, ExtendsValues, Grant, TickCaches, TickProcs, TickMem, TockProcs, ShadowCaches, ShadowProcs, ShadowMem;
    ExtendsSizes(s, x);
    var n, m, p := cfg.nodes, |x.caches|, cfg.protocol;
    GrantExtends(s, x);
    GrantSizes(s);
    GrantSizes(x);
    AllSleepOn(p, Grant(s), Grant(x), v, w, m);
    var s1, x1 := TickCaches(p, Grant(s), n), TickCaches(p, Grant(x), m);
    CachesKeepSize(p, Grant(s), n);
    CachesKeepSize(p, Grant(x), m);
    var v1, w1 := ShadowCaches(p, Grant(s), v, n), ShadowCaches(p, Grant(x), w, m);
    ProcsExtend(s1, x1, v1, w1);
    MemExtends(cfg, copies, TickProcs(s1), TickProcs(x1), ShadowProcs(s1, v1), ShadowProcs(x1, w1));
    var s3, x3 := TickMem(cfg, TickProcs(s1)), TickMem(Wider(cfg, m), TickProcs(x1));
    TocksExtend(s3, x3);
    ClockExtends(TockProcs(s3), TockProcs(x3));
  }

  lemma GrantSizes(s: Sys)
    ensures Grant(s).caches == s.caches && Grant(s).procs == s.procs
  {
  }

  /** The same run, at every moment. */
  lemma {:induction false} RunExtends(cfg: Config, copies: bool, traces: seq<seq<Op>>, n: nat, m: nat)
    requires |traces| == cfg.nodes <= n
    ensures Extends(After(cfg, Initial(traces), m), After(Wider(cfg, n), Initial(Padded(traces, n)), m))
    ensures ExtendsValues(ShadowAfter(cfg, copies, Initial(traces), ShadowInitial(cfg.nodes), m),
                          ShadowAfter(Wider(cfg, n), copies, Initial(Padded(traces, n)), ShadowInitial(n), m))
  {
    hide Extends, ExtendsValues, Cycle, ShadowCycle;
    if m == 0 {
      FirstExtends(traces, n);
    } else {
      RunExtends(cfg, copies, traces, n, m - 1);
      CycleExtends(cfg, copies, After(cfg, Initial(traces), m - 1),
                   After(Wider(cfg, n), Initial(Padded(traces, n)), m - 1),
                   ShadowAfter(cfg, copies, Initial(traces), ShadowInitial(cfg.nodes), m - 1),
                   ShadowAfter(Wider(cfg, n), copies, Initial(Padded(traces, n)), ShadowInitial(n), m - 1));
    }
  }

  lemma FirstExtends(traces: seq<seq<Op>>, n: nat)
    requires |traces| <= n
    ensures Extends(Initial(traces), Initial(Padded(traces, n)))
    ensures ExtendsValues(ShadowInitial(|traces|), ShadowInitial(n))
  {
  }
}
