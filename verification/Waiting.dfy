/** The bus is fair: requests are granted in the order they were queued, and with n caches
    and memory delay H a request is answered within n * (H + 2) cycles. */
module Waiting {
  import opened Messages
  import opened Protocols
  import opened Machine
  import opened Invariant
  import opened Progress
  import Steps
  import Cycles

  // ---------------------------------------------------------------- ranks

  /** Cycles until the DATA of the present transaction is on the bus. */
  function Left(s: Sys): nat {
    if !s.bus.inProgress then 0
    else if s.bus.reply.Some? then 1
    else if s.clock <= s.mem.time then s.mem.time - s.clock + 2
    else 2
  }

  /** The place in the queue of cache i's first request. */
  function Position(ps: seq<Mreq>, i: nat): nat {
    if ps == [] || ps[0].src == i then 0 else 1 + Position(ps[1..], i)
  }

  predicate Holds(s: Sys, n: nat, i: nat) {
    Holder(s, n).Some? && Holder(s, n).value.req == i
  }

  /** An upper bound on the cycles cache i's request still has to wait. */
  function Rank(h: nat, s: Sys, n: nat, i: nat): nat {
    if Holds(s, n, i) then Left(s) else Left(s) + Times(h + 2, Position(s.bus.pending, i) + 1)
  }

  lemma {:induction false} PositionOfPrefix(ps: seq<Mreq>, more: seq<Mreq>, i: nat)
    requires ps <= more && Queued(ps, i) > 0
    ensures Position(more, i) == Position(ps, i) < |ps|
  {
    if ps[0].src != i {
      PositionOfPrefix(ps[1..], more[1..], i);
    }
  }

  // ---------------------------------------------------------------- how many requests there can be

  function AllQueued(ps: seq<Mreq>, n: nat): nat {
    if n == 0 then 0 else AllQueued(ps, n - 1) + Queued(ps, n - 1)
  }

  lemma {:induction false} AllQueuedOfOne(ps: seq<Mreq>, n: nat)
    requires ps != []
    ensures AllQueued(ps, n) == AllQueued(ps[1..], n) + One(ps[0].src < n)
  {
    if n > 0 {
      AllQueuedOfOne(ps, n - 1);
    }
  }

  lemma {:induction false} EveryRequestCounted(ps: seq<Mreq>, n: nat)
    requires forall q :: q in ps ==> q.src < n
    ensures AllQueued(ps, n) == |ps|
  {
    if ps == [] {
      NothingQueued(n);
    } else {
      assert ps[0] in ps && forall q :: q in ps[1..] ==> q in ps;
      AllQueuedOfOne(ps, n);
      EveryRequestCounted(ps[1..], n);
    }
  }

  lemma {:induction false} NothingQueued(n: nat)
    ensures AllQueued([], n) == 0
  {
    if n > 0 {
      NothingQueued(n - 1);
    }
  }

  lemma {:induction false} OneRequestEach(s: Sys, n: nat, k: nat)
    requires |s.caches| == |s.procs| == n && k <= n && TokensOk(s, n)
    ensures AllQueued(s.bus.pending, k) + One(Holder(s, n).Some? && Holder(s, n).value.req < k) <= k
  {
    if k > 0 {
      OneRequestEach(s, n, k - 1);
      assert Places(s, n, k - 1) == One(s.procs[k - 1].outstanding);
    }
  }

  /** The queue never holds more requests than there are caches without the bus. */
  lemma QueueFits(cfg: Config, s: Sys)
    requires EndInv(cfg, s)
    ensures |s.bus.pending| + One(s.bus.inProgress) <= cfg.nodes
  {
    hide LinesOk, TransientOk, MissesOk;
    EveryRequestCounted(s.bus.pending, cfg.nodes);
    OneRequestEach(s, cfg.nodes, cfg.nodes);
  }

  // ---------------------------------------------------------------- what a cycle does to the bus

  lemma {:induction false} CachesOnlyAppend(p: Protocol, s: Sys, k: nat)
    requires k <= |s.caches| == |s.procs|
    ensures s.bus.pending <= TickCaches(p, s, k).bus.pending
  {
    hide ServeCache, ReactCache;
    if k > 0 {
      CachesOnlyAppend(p, s, k - 1);
      var x := TickCaches(p, s, k - 1);
      ServeOnlyAppends(p, x, k - 1);
      ServeTouchesLittle(p, x, k - 1);
      ReactKeepsQueue(p, ServeCache(p, x, k - 1), k - 1);
    }
  }

  lemma ServeOnlyAppends(p: Protocol, s: Sys, k: nat)
    requires k < |s.caches| == |s.procs|
    ensures s.bus.pending <= ServeCache(p, s, k).bus.pending
  {
    hide OnProcessor;
  }

  lemma ReactKeepsQueue(p: Protocol, s: Sys, k: nat)
    requires k < |s.caches| == |s.procs|
    ensures ReactCache(p, s, k).bus.pending == s.bus.pending
  {
    hide OnSnoop;
  }

  /** The requester's processor finds its answer in the buffer. */
  lemma {:induction false} DataReaches(cfg: Config, s: Sys, k: nat)
    requires MidInv(cfg, s, 0) && k <= cfg.nodes
    requires s.bus.current.Some? && s.bus.current.value.msg == DATA
    ensures s.bus.current.value.dest.Some? && s.bus.current.value.dest.value < cfg.nodes
            && |s.procs| == cfg.nodes == |s.caches|
    ensures var q := s.bus.current.value;
            q.dest.value < k ==> TickCaches(cfg.protocol, s, k).procs[q.dest.value].buffer == Some(q.addr)
  {
    hide LinesOk, TokensOk, QueueOk, TransientOk, MissesOk, OmDanger, ServeCache, ReactCache;
    if k > 0 {
      DataReaches(cfg, s, k - 1);
      var x := TickCaches(cfg.protocol, s, k - 1);
      Steps.TickCachesKeep(cfg, s, k - 1);
      CachesTouchLittle(cfg.protocol, s, k - 1);
      DataFills(cfg, x, k - 1);
    }
  }

  lemma DataFills(cfg: Config, s: Sys, k: nat)
    requires MidInv(cfg, s, k) && k < cfg.nodes
    requires s.bus.current.Some? && s.bus.current.value.msg == DATA && s.bus.current.value.dest.Some?
    requires s.bus.current.value.dest.value < |s.procs|
    ensures var q := s.bus.current.value;
            var x := TickCache(cfg.protocol, s, k);
            x.procs[q.dest.value].buffer == if q.dest == Some(k) then Some(q.addr) else s.procs[q.dest.value].buffer
  {
    hide LinesOk, TokensOk, QueueOk, TransientOk, MissesOk, OmDanger, OnProcessor, OnSnoop;
    var q := s.bus.current.value;
    Steps.ServeKeeps(cfg, s, k);
    if q.dest == Some(k) {
      ServeTouchesLittle(cfg.protocol, s, k);
      Steps.DataFacts(cfg, ServeCache(cfg.protocol, s, k), k);
    }
  }

  /** The four kinds of cycle: waiting for DATA, DATA, granting a GET, and idling. */
  datatype Kind = Wait | Deliver | Serving | Idle

  function KindOf(s: Sys): Kind {
    if s.bus.inProgress then if s.bus.reply.Some? then Deliver else Wait
    else if s.bus.pending != [] then Serving
    else Idle
  }

  /** First in, first out: a cycle takes at most the head of the queue off, and what it adds
      goes behind. */
  lemma QueueIsFifo(cfg: Config, s: Sys)
    requires cfg.hitTime >= 1 && EndInv(cfg, s) && !Cycles.Danger(cfg, s)
    ensures WellSized(cfg, s)
    ensures (if KindOf(s) == Serving then s.bus.pending[1..] else s.bus.pending) <= Cycle(cfg, s).bus.pending
    ensures Cycle(cfg, s).clock == s.clock + 1
  {
    hide MidInv, EndInv, Core, BusMid, BusEnd, BuffersEmpty, Cycles.Danger, TickCaches, TickMem, TockProcs;
    Cycles.EndFacts(cfg, s);
    var s0 := Grant(s);
    Cycles.GrantKeeps(cfg, s);
    Steps.TickCachesKeep(cfg, s0, cfg.nodes);
    Steps.MidFacts(cfg, TickCaches(cfg.protocol, s0, cfg.nodes), cfg.nodes);
    CachesOnlyAppend(cfg.protocol, s0, cfg.nodes);
    CachesTouchLittle(cfg.protocol, s0, cfg.nodes);
    var s1 := TickCaches(cfg.protocol, s0, cfg.nodes);
    Cycles.MidCore(cfg, s1, cfg.nodes);
    Cycles.ProcsKeep(cfg, s1);
    ProcsKeepBus(s1);
    NotFailedLate(cfg, TickProcs(s1));
    LateKeepsQueue(cfg, TickProcs(s1));
  }

  lemma LateKeepsQueue(cfg: Config, s: Sys)
    requires |s.caches| == |s.procs|
    ensures TockProcs(TickMem(cfg, s)).bus.pending == s.bus.pending
  {
  }

  /** What the rest of the cycle makes of the transaction. */
  lemma LateBus(cfg: Config, s: Sys)
    requires Core(cfg, s, cfg.nodes) && BusMid(cfg, s) && cfg.hitTime >= 1
    ensures var x := TockProcs(TickMem(cfg, s)).(clock := s.clock + 1);
            && (s.bus.current.None? && s.bus.inProgress ==>
                  x.bus.inProgress && Holder(x, cfg.nodes) == Holder(s, cfg.nodes) && Left(x) < Left(s))
            && (Steps.SnoopsGet(s) ==>
                  x.bus.inProgress && Holder(x, cfg.nodes)
                    == Some(Want(s.bus.current.value.addr, s.bus.current.value.src))
                  && Left(x) <= cfg.hitTime + 1)
            && (!s.bus.inProgress ==> !x.bus.inProgress)
  {
    hide LinesOk, TokensOk, QueueOk, TransientOk, MissesOk;
  }

  lemma LateProcs(cfg: Config, s: Sys, i: nat)
    requires |s.caches| == |s.procs| && i < |s.procs| && !s.failed && !TickMem(cfg, s).failed
    ensures s.procs[i].buffer.Some? ==> TockProcs(TickMem(cfg, s)).procs[i].inbound == s.procs[i].buffer
  {
  }

  lemma HeadIsGet(cfg: Config, s: Sys)
    requires EndInv(cfg, s) && s.bus.pending != []
    ensures s.bus.pending[0].msg != DATA
  {
    assert s.bus.pending[0] in s.bus.pending;
  }

  lemma CycleBus(cfg: Config, s: Sys)
    requires cfg.hitTime >= 1 && EndInv(cfg, s) && !Cycles.Danger(cfg, s)
    ensures WellSized(cfg, s)
    ensures var x := Cycle(cfg, s);
            match KindOf(s)
            case Wait => x.bus.inProgress && Holder(x, cfg.nodes) == Holder(s, cfg.nodes) && Left(x) < Left(s)
            case Deliver =>
              !x.bus.inProgress && Holder(s, cfg.nodes).Some? && Holder(s, cfg.nodes).value.req < cfg.nodes
              && x.procs[Holder(s, cfg.nodes).value.req].inbound == Some(Holder(s, cfg.nodes).value.addr)
            case Serving =>
              x.bus.inProgress && Holder(x, cfg.nodes) == Some(Want(s.bus.pending[0].addr, s.bus.pending[0].src))
              && Left(x) <= cfg.hitTime + 1
            case Idle => !x.bus.inProgress
  {
    hide MidInv, Core, BusMid, BuffersEmpty, Cycles.Danger, TickCaches, TickMem, TockProcs;
    Cycles.EndFacts(cfg, s);
    var s0 := Grant(s);
    Cycles.GrantKeeps(cfg, s);
    Steps.TickCachesKeep(cfg, s0, cfg.nodes);
    var s1 := TickCaches(cfg.protocol, s0, cfg.nodes);
    Steps.MidFacts(cfg, s1, cfg.nodes);
    CachesTouchLittle(cfg.protocol, s0, cfg.nodes);
    Cycles.MidCore(cfg, s1, cfg.nodes);
    Cycles.ProcsKeep(cfg, s1);
    ProcsKeepBus(s1);
    var s2 := TickProcs(s1);
    NotFailedLate(cfg, s2);
    LateBus(cfg, s2);
    if KindOf(s) == Serving {
      HeadIsGet(cfg, s);
    }
    if KindOf(s) == Deliver {
      DataReaches(cfg, s0, cfg.nodes);
      var r := Holder(s, cfg.nodes).value.req;
      assert s2.procs[r].buffer == s1.procs[r].buffer;
      LateProcs(cfg, s2, r);
    }
  }

  // ---------------------------------------------------------------- bounded waiting

  lemma HolderInProgress(cfg: Config, s: Sys)
    requires EndInv(cfg, s) && Holder(s, cfg.nodes).Some?
    ensures s.bus.inProgress
  {
  }

  lemma RankWhenHolding(cfg: Config, s: Sys, i: nat, a: Addr)
    requires cfg.hitTime >= 1 && EndInv(cfg, s) && !Cycles.Danger(cfg, s)
    requires Holder(s, cfg.nodes) == Some(Want(a, i))
    ensures WellSized(cfg, s) && i < cfg.nodes
    ensures Rank(cfg.hitTime, s, cfg.nodes, i) > 0
    ensures var x := Cycle(cfg, s);
            || x.procs[i].inbound == Some(a)
            || (HasGet(x, cfg.nodes, i, a) && Rank(cfg.hitTime, x, cfg.nodes, i) < Rank(cfg.hitTime, s, cfg.nodes, i))
  {
    hide EndInv, Holder, Cycle, Cycles.Danger;
    HolderInProgress(cfg, s);
    HolderIsNode(cfg, s);
    CycleBus(cfg, s);
  }

  lemma HolderIsNode(cfg: Config, s: Sys)
    requires EndInv(cfg, s) && Holder(s, cfg.nodes).Some?
    ensures Holder(s, cfg.nodes).value.req < cfg.nodes
  {
  }

  /** A cache that has asked and is not being served has one request in the queue. */
  lemma QueuedOnce(cfg: Config, s: Sys, i: nat, a: Addr) returns (q: Mreq)
    requires EndInv(cfg, s) && i < cfg.nodes && HasGet(s, cfg.nodes, i, a) && Holder(s, cfg.nodes) != Some(Want(a, i))
    ensures q in s.bus.pending && q.src == i && q.addr == a
    ensures Queued(s.bus.pending, i) == 1 && !Holds(s, cfg.nodes, i)
  {
    hide LinesOk, QueueOk, TransientOk, MissesOk, BuffersEmpty, BusEnd, Holder;
    q :| q in s.bus.pending && q.src == i && q.addr == a;
    QueuedNone(s.bus.pending, i);
    assert Places(s, cfg.nodes, i) == One(s.procs[i].outstanding);
  }

  lemma RankWhenQueued(cfg: Config, s: Sys, i: nat, a: Addr)
    requires cfg.hitTime >= 1 && EndInv(cfg, s) && !Cycles.Danger(cfg, s)
    requires i < cfg.nodes && HasGet(s, cfg.nodes, i, a) && Holder(s, cfg.nodes) != Some(Want(a, i))
    ensures WellSized(cfg, s)
    ensures var x := Cycle(cfg, s);
            HasGet(x, cfg.nodes, i, a) && Rank(cfg.hitTime, x, cfg.nodes, i) < Rank(cfg.hitTime, s, cfg.nodes, i)
  {
    hide EndInv, Holder, Cycle, Cycles.Danger, Left;
    var q := QueuedOnce(cfg, s, i, a);
    CycleBus(cfg, s);
    QueueIsFifo(cfg, s);
    var x := Cycle(cfg, s);
    LeftWhenIdle(s);
    LeftWhenIdle(x);
    var rest := if KindOf(s) == Serving then s.bus.pending[1..] else s.bus.pending;
    if KindOf(s) == Serving && s.bus.pending[0].src == i {
      OnlyRequest(s.bus.pending, i, q);
      assert Position(s.bus.pending, i) == 0;
    } else {
      if KindOf(s) == Serving {
        assert s.bus.pending == [s.bus.pending[0]] + rest;
      }
      assert q in rest && q in x.bus.pending;
      PositionOfPrefix(rest, x.bus.pending, i);
    }
  }

  lemma LeftWhenIdle(s: Sys)
    ensures !s.bus.inProgress <==> Left(s) == 0
  {
  }

  /** A cycle either answers cache i's request or brings the answer nearer. */
  lemma RankDrops(cfg: Config, s: Sys, i: nat, a: Addr)
    requires cfg.hitTime >= 1 && EndInv(cfg, s) && !Cycles.Danger(cfg, s)
    requires i < cfg.nodes && HasGet(s, cfg.nodes, i, a)
    ensures WellSized(cfg, s)
    ensures Rank(cfg.hitTime, s, cfg.nodes, i) > 0
    ensures var x := Cycle(cfg, s);
            || x.procs[i].inbound == Some(a)
            || (HasGet(x, cfg.nodes, i, a) && Rank(cfg.hitTime, x, cfg.nodes, i) < Rank(cfg.hitTime, s, cfg.nodes, i))
  {
    hide EndInv, Holder, Cycle, Cycles.Danger, Rank, HasGet;
    if Holder(s, cfg.nodes) == Some(Want(a, i)) {
      RankWhenHolding(cfg, s, i, a);
    } else {
      RankWhenQueued(cfg, s, i, a);
    }
  }

  /** A cache with one queued request has no other. */
  lemma OnlyRequest(ps: seq<Mreq>, i: nat, q: Mreq)
    requires ps != [] && ps[0].src == i && Queued(ps, i) <= 1
    requires q in ps && q.src == i
    ensures q == ps[0]
  {
    QueuedNone(ps[1..], i);
    assert ps == [ps[0]] + ps[1..];
  }

  lemma LeftBound(cfg: Config, s: Sys)
    requires BusEnd(cfg, s)
    ensures Left(s) <= cfg.hitTime + 1
  {
  }

  lemma RankBound(cfg: Config, s: Sys, i: nat, a: Addr)
    requires EndInv(cfg, s) && i < cfg.nodes && HasGet(s, cfg.nodes, i, a)
    ensures Rank(cfg.hitTime, s, cfg.nodes, i) <= Times(cfg.hitTime + 2, cfg.nodes)
  {
    hide LinesOk, QueueOk, TransientOk, TokensOk, MissesOk, BuffersEmpty, BusEnd;
    var n := cfg.nodes;
    QueueFits(cfg, s);
    QueuedNone(s.bus.pending, i);
    LeftBound(cfg, s);
    if !Holds(s, n, i) {
      PositionOfPrefix(s.bus.pending, s.bus.pending, i);
      var p := Position(s.bus.pending, i) + 1;
      TimesOfSum(cfg.hitTime + 2, p, n - p);
    }
  }

  lemma {:induction false} AnsweredFrom(cfg: Config, traces: seq<seq<Op>>, m: nat, i: nat, a: Addr, limit: nat)
    returns (w: nat)
    requires cfg.hitTime >= 1 && |traces| == cfg.nodes
    requires Cycles.Safe(cfg, Initial(traces), m + limit)
    requires i < cfg.nodes && HasGet(After(cfg, Initial(traces), m), cfg.nodes, i, a)
    requires Rank(cfg.hitTime, After(cfg, Initial(traces), m), cfg.nodes, i) <= limit
    ensures m < w <= m + limit
    ensures After(cfg, Initial(traces), w).procs[i].inbound == Some(a)
    ensures forall j :: m <= j < w ==> HasGet(After(cfg, Initial(traces), j), cfg.nodes, i, a)
    decreases limit
  {
    hide EndInv, Rank, HasGet, Cycle;
    var s := After(cfg, Initial(traces), m);
    var x := After(cfg, Initial(traces), m + 1);
    Cycles.ReachableOk(cfg, traces, m);
    assert limit > 0 ==> !Cycles.Danger(cfg, s);
    RankPositive(cfg, s, i, a);
    RankDrops(cfg, s, i, a);
    assert x == Cycle(cfg, s);
    if x.procs[i].inbound == Some(a) {
      w := m + 1;
    } else {
      w := AnsweredFrom(cfg, traces, m + 1, i, a, limit - 1);
    }
  }

  lemma RankPositive(cfg: Config, s: Sys, i: nat, a: Addr)
    requires EndInv(cfg, s) && i < cfg.nodes && HasGet(s, cfg.nodes, i, a)
    ensures Rank(cfg.hitTime, s, cfg.nodes, i) > 0
  {
  }

  /** A request that is queued or on the bus after m cycles has been answered within
      n * (H + 2) more cycles. */
  lemma AnsweredInTime(cfg: Config, traces: seq<seq<Op>>, m: nat, i: nat, a: Addr) returns (w: nat)
    requires cfg.hitTime >= 1 && |traces| == cfg.nodes
    requires Cycles.Safe(cfg, Initial(traces), m + cfg.nodes * (cfg.hitTime + 2))
    requires i < cfg.nodes && HasGet(After(cfg, Initial(traces), m), cfg.nodes, i, a)
    ensures m < w <= m + cfg.nodes * (cfg.hitTime + 2)
    ensures After(cfg, Initial(traces), w).procs[i].inbound == Some(a)
    ensures forall j :: m <= j < w ==> HasGet(After(cfg, Initial(traces), j), cfg.nodes, i, a)
  {
    hide EndInv, Rank, HasGet, Cycle;
    Cycles.ReachableOk(cfg, traces, m);
    RankBound(cfg, After(cfg, Initial(traces), m), i, a);
    TimesIsProduct(cfg.hitTime + 2, cfg.nodes);
    w := AnsweredFrom(cfg, traces, m, i, a, cfg.nodes * (cfg.hitTime + 2));
  }

  // ---------------------------------------------------------------- order over a run

  /** Those the bus has to serve, in order: the transaction in progress and the queue. */
  function Line(cfg: Config, s: Sys): seq<Want> {
    (if Holder(s, cfg.nodes).Some? then [Holder(s, cfg.nodes).value] else []) + Wants(s.bus.pending)
  }

  function Wants(ps: seq<Mreq>): (r: seq<Want>)
    ensures |r| == |ps|
  {
    seq(|ps|, i requires 0 <= i < |ps| => Want(ps[i].addr, ps[i].src))
  }

  /** The answers that reach their processors in the cycles m, ..., n-1, in order. */
  function Delivered(cfg: Config, traces: seq<seq<Op>>, m: nat, n: nat): seq<Want>
    requires |traces| == cfg.nodes && m <= n
  {
    if n == m then []
    else Delivered(cfg, traces, m, n - 1) + DeliveredIn(After(cfg, Initial(traces), n - 1))
  }

  /** The DATA in the reply slot is taken in the coming cycle. */
  function DeliveredIn(s: Sys): seq<Want> {
    if KindOf(s) == Deliver && s.bus.reply.value.dest.Some?
    then [Want(s.bus.reply.value.addr, s.bus.reply.value.dest.value)] else []
  }

  lemma ReplyIsForHolder(cfg: Config, s: Sys)
    requires EndInv(cfg, s)
    ensures DeliveredIn(s)
            == if KindOf(s) == Deliver && Holder(s, cfg.nodes).Some? then [Holder(s, cfg.nodes).value] else []
    ensures Holder(s, cfg.nodes).Some? <==> s.bus.inProgress
  {
    hide Core, BuffersEmpty;
  }

  /** A cycle delivers at most the first of the line and lets the others move up. */
  lemma LineMoves(cfg: Config, s: Sys)
    requires cfg.hitTime >= 1 && EndInv(cfg, s) && !Cycles.Danger(cfg, s)
    ensures WellSized(cfg, s)
    ensures Line(cfg, s) <= DeliveredIn(s) + Line(cfg, Cycle(cfg, s))
  {
    hide EndInv, Holder, Cycle, Cycles.Danger, DeliveredIn, Left;
    QueueIsFifo(cfg, s);
    CycleBus(cfg, s);
    CycleEnds(cfg, s);
    var x := Cycle(cfg, s);
    ReplyIsForHolder(cfg, s);
    ReplyIsForHolder(cfg, x);
    if KindOf(s) == Serving {
      assert Wants(s.bus.pending) == [Want(s.bus.pending[0].addr, s.bus.pending[0].src)] + Wants(s.bus.pending[1..]);
      WantsOfPrefix(s.bus.pending[1..], x.bus.pending);
    } else {
      WantsOfPrefix(s.bus.pending, x.bus.pending);
    }
  }

  lemma CycleEnds(cfg: Config, s: Sys)
    requires cfg.hitTime >= 1 && EndInv(cfg, s) && !Cycles.Danger(cfg, s)
    ensures EndInv(cfg, Cycle(cfg, s))
  {
    hide EndInv, Cycle, Cycles.Danger;
    Cycles.CycleKeeps(cfg, s);
  }

  lemma WantsOfPrefix(ps: seq<Mreq>, more: seq<Mreq>)
    requires ps <= more
    ensures Wants(ps) <= Wants(more)
  {
  }

  /** First come, first served: those in line after m cycles are answered in this order before
      anybody who comes later, each answer reaching its processor. */
  lemma {:induction false} AnsweredInOrder(cfg: Config, traces: seq<seq<Op>>, m: nat, n: nat)
    requires cfg.hitTime >= 1 && |traces| == cfg.nodes && m <= n && Cycles.Safe(cfg, Initial(traces), n)
    ensures Line(cfg, After(cfg, Initial(traces), m))
            <= Delivered(cfg, traces, m, n) + Line(cfg, After(cfg, Initial(traces), n))
    ensures forall j, w :: m <= j < n && w in DeliveredIn(After(cfg, Initial(traces), j)) ==>
              w.req < cfg.nodes && After(cfg, Initial(traces), j + 1).procs[w.req].inbound == Some(w.addr)
  {
    hide EndInv, Cycle, Cycles.Danger, DeliveredIn, Line;
    if m < n {
      AnsweredInOrder(cfg, traces, m, n - 1);
      var s := After(cfg, Initial(traces), n - 1);
      Cycles.ReachableOk(cfg, traces, n - 1);
      LineMoves(cfg, s);
      DeliveryArrives(cfg, s);
      var before, now, later := Delivered(cfg, traces, m, n - 1), DeliveredIn(s), Line(cfg, Cycle(cfg, s));
      assert before + Line(cfg, s) <= before + (now + later);
      assert before + (now + later) == (before + now) + later;
    }
  }

  lemma DeliveryArrives(cfg: Config, s: Sys)
    requires cfg.hitTime >= 1 && EndInv(cfg, s) && !Cycles.Danger(cfg, s)
    ensures WellSized(cfg, s)
    ensures forall w :: w in DeliveredIn(s) ==> w.req < cfg.nodes && Cycle(cfg, s).procs[w.req].inbound == Some(w.addr)
  {
    hide EndInv, Cycle, Cycles.Danger, Holder, DeliveredIn, Left;
    CycleBus(cfg, s);
    ReplyIsForHolder(cfg, s);
  }
}
