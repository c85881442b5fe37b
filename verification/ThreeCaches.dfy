/** Three caches and the cycles of their runs spelled out, for runs on a single line with any
    memory delay; versions go along, and memory does not copy the DATA it sees. */
module ThreeCaches {
  import opened Messages
  import opened Reactions
  import opened Protocols
  import opened Machine
  import opened Shadow

  function Three(p: Protocol, h: nat): Config { Config(p, 3, h) }

  function Asks(op: Op): Cache { Cache(Some(op), map[]) }

  function Holds(st: LineState): Cache { Cache(None, map[0 := st]) }

  function Waits(trace: seq<Op>): Proc { Proc(trace, false, true, None, None) }

  function Served(trace: seq<Op>): Proc { Proc(trace, false, true, Some(0), None) }

  function Finished(): Proc { Proc([], true, false, None, None) }

  function Get(msg: Msg, i: nat): Mreq { Mreq(msg, 0, i, None) }

  function Data(i: nat, dest: nat): Mreq { Mreq(DATA, 0, i, Some(dest)) }

  /** A point of a run: the machine's state and the versions beside it. */
  datatype Point = Point(s: Sys, v: Values)

  function Next(cfg: Config, x: Point): (r: Point)
    requires WellSized(cfg, x.s) && Fits(x.s, x.v)
  {
    Point(Cycle(cfg, x.s), ShadowCycle(cfg, false, x.s, x.v))
  }

  function Run(cfg: Config, traces: seq<seq<Op>>, m: nat): Point
    requires |traces| == cfg.nodes
  {
    Point(After(cfg, Initial(traces), m), ShadowAfter(cfg, false, Initial(traces), ShadowInitial(cfg.nodes), m))
  }

  lemma RunNext(cfg: Config, traces: seq<seq<Op>>, m: nat)
    requires |traces| == cfg.nodes
    ensures var x := Run(cfg, traces, m);
            WellSized(cfg, x.s) && Fits(x.s, x.v) && Run(cfg, traces, m + 1) == Next(cfg, x)
  {
    hide Cycle, ShadowCycle;
  }

  // ---------------------------------------------------------------- the machine's cycle

  function OwnPort(s: Sys, i: nat, bus: Bus, stats: Stats): Port
    requires i < |s.caches| == |s.procs|
  {
    Port(bus, s.caches[i], s.procs[i].buffer, stats, false)
  }

  lemma Overwritten()
    ensures forall st: LineState, next: LineState :: (map[0 := st])[0 := next] == map[0 := next]
    ensures forall next: LineState :: map[][0 := next] == map[0 := next]
  {
  }

  lemma TickedPort(p: Protocol, s: Sys, i: nat)
    requires i < |s.caches| == |s.procs| && !s.failed
    requires !TickPort(p, i, PortOf(s, i)).failed
    ensures TickCache(p, s, i) == WithPort(s, i, TickPort(p, i, PortOf(s, i)))
  {
    hide OnProcessor, OnSnoop;
  }

  /** A cache without a request only looks at the bus. */
  lemma OnlySnoops(p: Protocol, i: nat, y: Port)
    requires y.cache.request.None? && !y.failed
    ensures TickPort(p, i, y) == React(p, i, y)
  {
  }

  /** On an idle bus it only serves its request. */
  lemma OnlyServes(p: Protocol, i: nat, y: Port)
    requires y.bus.current.None?
    ensures TickPort(p, i, y) == Serve(p, i, y)
  {
    hide OnProcessor;
  }

  /** What the three caches' ticks make of what they can reach. */
  datatype Ports = Ports(x: Port, y: Port, z: Port)

  function Turns(p: Protocol, s: Sys): Ports
    requires |s.caches| == |s.procs| == 3
  {
    var x := TickPort(p, 0, OwnPort(s, 0, s.bus, s.stats));
    var y := TickPort(p, 1, OwnPort(s, 1, x.bus, x.stats));
    var z := TickPort(p, 2, OwnPort(s, 2, y.bus, y.stats));
    Ports(x, y, z)
  }

  predicate Fine(t: Ports) {
    !t.x.failed && !t.y.failed && !t.z.failed
  }

  /** The state after the caches' ticks. */
  function Ticked(s: Sys, t: Ports): Sys
    requires |s.procs| == 3
  {
    s.(bus := t.z.bus, stats := t.z.stats, caches := [t.x.cache, t.y.cache, t.z.cache],
       procs := [s.procs[0].(buffer := t.x.buffer), s.procs[1].(buffer := t.y.buffer),
                 s.procs[2].(buffer := t.z.buffer)])
  }

  lemma ThreeTicks(p: Protocol, s: Sys)
    requires |s.caches| == |s.procs| == 3 && !s.failed && Fine(Turns(p, s))
    ensures var t := Turns(p, s);
            && TickCaches(p, s, 0) == s
            && TickCaches(p, s, 1) == WithPort(s, 0, t.x)
            && TickCaches(p, s, 2) == WithPort(WithPort(s, 0, t.x), 1, t.y)
            && TickCaches(p, s, 3) == Ticked(s, t)
  {
    hide TickCache, TickPort;
    TickedPort(p, s, 0);
    var s1 := TickCache(p, s, 0);
    assert s1 == TickCaches(p, s, 1);
    TickedPort(p, s1, 1);
    var s2 := TickCache(p, s1, 1);
    assert s2 == TickCaches(p, s, 2);
    TickedPort(p, s2, 2);
  }

  /** The state after the processors' ticks. */
  function Moved(x: Sys): Sys
    requires |x.caches| == |x.procs| == 3
  {
    x.(caches := [Issue(x.procs[0], x.caches[0]), Issue(x.procs[1], x.caches[1]), Issue(x.procs[2], x.caches[2])],
       procs := [TickProc(x.procs[0]), TickProc(x.procs[1]), TickProc(x.procs[2])])
  }

  function Closed(m: Sys): Sys
    requires |m.procs| == 3
  {
    m.(procs := [TockProc(m.procs[0]), TockProc(m.procs[1]), TockProc(m.procs[2])], clock := m.clock + 1)
  }

  lemma CycleOfThree(p: Protocol, h: nat, s: Sys)
    requires WellSized(Three(p, h), s) && !s.failed && Fine(Turns(p, Grant(s)))
    ensures var t := Ticked(Grant(s), Turns(p, Grant(s)));
            && TickProcs(t) == Moved(t)
            && (!TickMem(Three(p, h), Moved(t)).failed ==>
                  Cycle(Three(p, h), s) == Closed(TickMem(Three(p, h), Moved(t))))
  {
    hide TickCaches, TickProc, TockProc, Issue, Fine, Turns;
    ThreeTicks(p, Grant(s));
    var t := Ticked(Grant(s), Turns(p, Grant(s)));
    assert TickProcs(t).procs == [TickProc(t.procs[0]), TickProc(t.procs[1]), TickProc(t.procs[2])];
    assert TickProcs(t).caches
        == [Issue(t.procs[0], t.caches[0]), Issue(t.procs[1], t.caches[1]), Issue(t.procs[2], t.caches[2])];
    var m := TickMem(Three(p, h), TickProcs(t));
    if !m.failed {
      assert TockProcs(m).procs == [TockProc(m.procs[0]), TockProc(m.procs[1]), TockProc(m.procs[2])];
    }
  }

  // ---------------------------------------------------------------- the versions beside it

  /** A cache's whole tick alongside TickPort. */
  function ShadowTurn(p: Protocol, k: nat, x: Port, v: Values): (r: Values)
    requires k < |v.copies| == |v.ops|
    ensures |r.copies| == |r.ops| == |v.ops|
  {
    var served :=
      if x.cache.request.Some?
         && OnProcessor(p, StateOf(x.cache, x.cache.request.value.addr), x.cache.request.value.Store?).answer == Hit
      then Commit(v, k, x.cache.request.value) else v;
    var y := Serve(p, k, x);
    match y.bus.current
    case None => served
    case Some(q) =>
      if q.msg == DATA && q.dest != Some(k) then served
      else Carry(served, k, q, OnSnoop(p, StateOf(y.cache, q.addr), q.msg, q.src == k, y.bus.shared))
  }

  lemma TurnIs(p: Protocol, s: Sys, v: Values, k: nat)
    requires Fits(s, v) && k < |s.caches| && !s.failed && !Serve(p, k, PortOf(s, k)).failed
    ensures Fits(ServeCache(p, s, k), ShadowServe(p, s, v, k))
    ensures ShadowReact(p, ServeCache(p, s, k), ShadowServe(p, s, v, k), k) == ShadowTurn(p, k, PortOf(s, k), v)
  {
    hide OnProcessor, OnSnoop;
  }

  function ShadowTurns(p: Protocol, s: Sys, v: Values): (r: Values)
    requires |s.caches| == 3 && Fits(s, v)
    ensures |r.copies| == |r.ops| == 3
  {
    var t := Turns(p, s);
    var v1 := ShadowTurn(p, 0, OwnPort(s, 0, s.bus, s.stats), v);
    var v2 := ShadowTurn(p, 1, OwnPort(s, 1, t.x.bus, t.x.stats), v1);
    ShadowTurn(p, 2, OwnPort(s, 2, t.y.bus, t.y.stats), v2)
  }

  lemma ShadowThree(p: Protocol, s: Sys, v: Values)
    requires |s.caches| == 3 && !s.failed && Fits(s, v) && Fine(Turns(p, s))
    ensures ShadowCaches(p, s, v, 3) == ShadowTurns(p, s, v)
  {
    hide ShadowTurn, ShadowReact, ShadowServe, ServeCache, TickCache, Serve, React;
    ThreeTicks(p, s);
    var t := Turns(p, s);
    TurnIs(p, s, v, 0);
    var s1 := WithPort(s, 0, t.x);
    var v1 := ShadowTurn(p, 0, OwnPort(s, 0, s.bus, s.stats), v);
    assert ShadowCaches(p, s, v, 0) == v;
    assert ShadowCaches(p, s, v, 1) == v1;
    TurnIs(p, s1, v1, 1);
    var s2 := WithPort(s1, 1, t.y);
    var v2 := ShadowTurn(p, 1, OwnPort(s, 1, t.x.bus, t.x.stats), v1);
    assert ShadowCaches(p, s, v, 2) == v2;
    TurnIs(p, s2, v2, 2);
  }

  function Reads(r: Proc, o: Option<Op>): Option<Op> {
    if Ready(r) && r.trace != [] then Some(r.trace[0]) else o
  }

  /** The versions after the processors' ticks. */
  function ShadowMoved(t: Sys, v: Values): Values
    requires |t.procs| == |v.ops| == 3
  {
    v.(ops := [Reads(t.procs[0], v.ops[0]), Reads(t.procs[1], v.ops[1]), Reads(t.procs[2], v.ops[2])])
  }

  lemma ShadowCycleOfThree(p: Protocol, h: nat, s: Sys, v: Values)
    requires WellSized(Three(p, h), s) && !s.failed && Fits(s, v) && Fine(Turns(p, Grant(s)))
    ensures var t := Ticked(Grant(s), Turns(p, Grant(s)));
            ShadowCycle(Three(p, h), false, s, v)
            == ShadowMem(Three(p, h), false, Moved(t), ShadowMoved(t, ShadowTurns(p, Grant(s), v)))
  {
    hide Fine, Turns, ShadowTurns, ShadowMem, TickMem, TickProc, Issue, Ready, ShadowCaches, TickCaches, Cycle, BusTick;
    ThreeTicks(p, Grant(s));
    ShadowThree(p, Grant(s), v);
    CycleOfThree(p, h, s);
    var t := Ticked(Grant(s), Turns(p, Grant(s)));
    var v3 := ShadowCaches(p, Grant(s), v, 3);
    assert ShadowProcs(t, v3).ops == ShadowMoved(t, v3).ops;
  }

  /** Both at once. */
  lemma PointOfThree(p: Protocol, h: nat, s: Sys, v: Values)
    requires WellSized(Three(p, h), s) && !s.failed && Fits(s, v) && Fine(Turns(p, Grant(s)))
    ensures var t := Ticked(Grant(s), Turns(p, Grant(s)));
            !TickMem(Three(p, h), Moved(t)).failed ==>
              Next(Three(p, h), Point(s, v))
              == Point(Closed(TickMem(Three(p, h), Moved(t))),
                       ShadowMem(Three(p, h), false, Moved(t), ShadowMoved(t, ShadowTurns(p, Grant(s), v))))
  {
    hide Fine, Turns, ShadowTurns, ShadowMem, TickMem, Moved, Cycle, ShadowCycle;
    CycleOfThree(p, h, s);
    ShadowCycleOfThree(p, h, s, v);
  }

  // ---------------------------------------------------------------- waiting for memory

  /** Every processor waits or is finished, and memory is busy with the transaction. */
  predicate Idle(s: Sys) {
    && !s.failed && |s.caches| == |s.procs|
    && (forall i :: 0 <= i < |s.caches| ==> s.caches[i].request.None?)
    && (forall i :: 0 <= i < |s.procs| ==>
          s.procs[i].inbound.None? && s.procs[i].buffer.None? && (s.procs[i].outstanding || s.procs[i].ended))
    && s.bus.inProgress && s.bus.reply.None? && s.mem.busy && s.clock <= s.mem.time
  }

  /** d cycles later memory is still busy. */
  function Later(s: Sys, d: nat): Sys {
    if d == 0 then s else s.(bus := s.bus.(current := None), clock := s.clock + d)
  }

  function Answered(cfg: Config, s: Sys): Sys {
    s.(bus := s.bus.(current := None, reply := Some(Mreq(DATA, s.mem.addr, cfg.nodes, Some(s.mem.target)))),
       mem := s.mem.(busy := false), clock := s.mem.time + 1, stats := s.stats.(replies := s.stats.replies + 1))
  }

  lemma IdleTurn(p: Protocol, s: Sys, v: Values, k: nat)
    requires Idle(s) && Fits(s, v) && s.bus.current.None? && k < |s.caches|
    ensures TickCache(p, s, k) == ServeCache(p, s, k) == s
    ensures ShadowServe(p, s, v, k) == v && ShadowReact(p, s, v, k) == v
  {
    hide OnProcessor, OnSnoop;
    assert WithPort(s, k, PortOf(s, k)) == s;
  }

  lemma {:induction false} IdleCaches(p: Protocol, s: Sys, v: Values, k: nat)
    requires Idle(s) && Fits(s, v) && s.bus.current.None? && k <= |s.caches|
    ensures TickCaches(p, s, k) == s && ShadowCaches(p, s, v, k) == v
  {
    hide Idle, TickCache, ServeCache, ShadowServe, ShadowReact;
    if k > 0 {
      IdleCaches(p, s, v, k - 1);
      IdleTurn(p, s, v, k - 1);
    }
  }

  lemma IdleCycle(cfg: Config, s: Sys, v: Values)
    requires WellSized(cfg, s) && Idle(s) && Fits(s, v)
    ensures Next(cfg, Point(s, v)) ==
            if s.clock < s.mem.time then Point(Later(s, 1), v)
            else Point(Answered(cfg, s), v.(wire := ValueOf(v.memory, s.mem.addr)))
  {
    hide TickCaches, ShadowCaches;
    var g := Grant(s);
    IdleCaches(cfg.protocol, g, v, cfg.nodes);
    assert TickProcs(g).procs == g.procs && TickProcs(g).caches == g.caches;
    assert ShadowProcs(g, v).ops == v.ops;
    var m := TickMem(cfg, g);
    assert TockProcs(m).procs == m.procs;
  }

  lemma {:induction false} StillWaiting(cfg: Config, traces: seq<seq<Op>>, m: nat, s: Sys, v: Values, d: nat)
    requires |traces| == cfg.nodes && Run(cfg, traces, m) == Point(s, v) && Idle(s) && d <= s.mem.time - s.clock
    ensures Run(cfg, traces, m + d) == Point(Later(s, d), v)
  {
    hide Next, Run;
    if d > 0 {
      StillWaiting(cfg, traces, m, s, v, d - 1);
      RunNext(cfg, traces, m + d - 1);
      IdleCycle(cfg, Later(s, d - 1), v);
    }
  }

  /** In the cycle in which the delay is over memory sends the version it holds. */
  lemma MemoryAnswers(cfg: Config, traces: seq<seq<Op>>, m: nat, s: Sys, v: Values)
    requires |traces| == cfg.nodes && Run(cfg, traces, m) == Point(s, v) && Idle(s) && m == s.clock
    ensures Run(cfg, traces, s.mem.time + 1) == Point(Answered(cfg, s), v.(wire := ValueOf(v.memory, s.mem.addr)))
  {
    hide Next, Run;
    StillWaiting(cfg, traces, m, s, v, s.mem.time - s.clock);
    RunNext(cfg, traces, s.mem.time);
    IdleCycle(cfg, Later(s, s.mem.time - s.clock), v);
  }

  // ---------------------------------------------------------------- a store before two loads

  /** Processor 0 stores to the line and goes on with `rest`; processors 1 and 2 load it. */
  function Traces(rest: seq<Op>): seq<seq<Op>> { [[Store(0)] + rest, [Load(0)], [Load(0)]] }

  /** The state in which a line waits for the answer to its GETS. */
  function Wanting(p: Protocol): LineState { if p == MSI then IS else ISE }

  // The points between the cycles until the store is done, in order.

  function Begun(rest: seq<Op>): Sys {
    Sys(Bus(None, [], None, false, false), [Asks(Store(0)), Asks(Load(0)), Asks(Load(0))],
        [Waits(rest), Waits([]), Waits([])], Mem(false, 0, 0, 0), 1, Stats(0, 0, 0, 0, 0), false)
  }

  function Asked(p: Protocol, rest: seq<Op>): Sys {
    Sys(Bus(None, [Get(GETM, 0), Get(GETS, 1), Get(GETS, 2)], None, false, false),
        [Holds(IM), Holds(Wanting(p)), Holds(Wanting(p))],
        [Waits(rest), Waits([]), Waits([])], Mem(false, 0, 0, 0), 2, Stats(3, 3, 0, 0, 0), false)
  }

  function StoreGranted(p: Protocol, h: nat, rest: seq<Op>): Sys {
    Asked(p, rest).(bus := Bus(Some(Get(GETM, 0)), [Get(GETS, 1), Get(GETS, 2)], None, true, false),
                    mem := Mem(true, 2 + h, 0, 0), clock := 3)
  }

  function MemoryReplied(p: Protocol, h: nat, rest: seq<Op>): Sys {
    Asked(p, rest).(bus := Bus(None, [Get(GETS, 1), Get(GETS, 2)], Some(Data(3, 0)), true, false),
                    mem := Mem(false, 2 + h, 0, 0), clock := 3 + h, stats := Stats(3, 3, 0, 0, 1))
  }

  function StoreDone(p: Protocol, h: nat, rest: seq<Op>): Sys {
    Sys(Bus(Some(Data(3, 0)), [Get(GETS, 1), Get(GETS, 2)], None, false, false),
        [Holds(M), Holds(Wanting(p)), Holds(Wanting(p))],
        [Served(rest), Waits([]), Waits([])], Mem(false, 2 + h, 0, 0), 4 + h, Stats(3, 3, 0, 0, 1), false)
  }

  function BegunValues(): Values {
    Values([map[], map[], map[]], 0, map[], [Some(Store(0)), Some(Load(0)), Some(Load(0))], [])
  }

  function StoredValues(): Values {
    Values([map[0 := 1], map[], map[]], 0, map[], [None, Some(Load(0)), Some(Load(0))], [Stored(0, 0, 1)])
  }

  /** What a cache's tick leaves when the bus is as it will be at the end of the cycle. */
  function Left(x: Sys, st: LineState, buffer: Option<Addr>): Port {
    Port(x.bus, Holds(st), buffer, x.stats, false)
  }

  /** And while the caches put their requests into the queue. */
  function Asking(ps: seq<Mreq>, st: LineState): Port {
    Port(Bus(None, ps, None, false, false), Holds(st), None, Stats(|ps|, |ps|, 0, 0, 0), false)
  }

  predicate FillsFromGets(p: Protocol) { p == MSI || p == MESI || p == MOESI }

  lemma BeginCycle(p: Protocol, h: nat, rest: seq<Op>)
    requires FillsFromGets(p)
    ensures Next(Three(p, h), Point(Initial(Traces(rest)), ShadowInitial(3))) == Point(Begun(rest), BegunValues())
  {
    hide Cycle, ShadowCycle, Next;
    assert ([Store(0)] + rest)[1..] == rest;
    PointOfThree(p, h, Initial(Traces(rest)), ShadowInitial(3));
  }

  lemma AskTurns(p: Protocol, rest: seq<Op>)
    requires FillsFromGets(p)
    ensures Turns(p, Grant(Begun(rest)))
            == Ports(Asking([Get(GETM, 0)], IM), Asking([Get(GETM, 0), Get(GETS, 1)], Wanting(p)),
                     Asking([Get(GETM, 0), Get(GETS, 1), Get(GETS, 2)], Wanting(p)))
  {
    hide TickPort;
    Overwritten();
    var g := Grant(Begun(rest));
    var x, y := Asking([Get(GETM, 0)], IM), Asking([Get(GETM, 0), Get(GETS, 1)], Wanting(p));
    assert [] + [Get(GETM, 0)] == [Get(GETM, 0)];
    assert [Get(GETM, 0)] + [Get(GETS, 1)] == [Get(GETM, 0), Get(GETS, 1)];
    OnlyServes(p, 0, OwnPort(g, 0, g.bus, g.stats));
    OnlyServes(p, 1, OwnPort(g, 1, x.bus, x.stats));
    OnlyServes(p, 2, OwnPort(g, 2, y.bus, y.stats));
  }

  lemma AskCycle(p: Protocol, h: nat, rest: seq<Op>)
    requires FillsFromGets(p)
    ensures Next(Three(p, h), Point(Begun(rest), BegunValues())) == Point(Asked(p, rest), BegunValues())
  {
    hide Cycle, ShadowCycle, Next, Turns;
    AskTurns(p, rest);
    PointOfThree(p, h, Begun(rest), BegunValues());
  }

  lemma GrantTurns(p: Protocol, h: nat, rest: seq<Op>)
    requires FillsFromGets(p)
    ensures var x := StoreGranted(p, h, rest);
            Turns(p, Grant(Asked(p, rest)))
              == Ports(Left(x, IM, None), Left(x, Wanting(p), None), Left(x, Wanting(p), None))
  {
    hide TickPort;
    Overwritten();
    var x, g := StoreGranted(p, h, rest), Grant(Asked(p, rest));
    OnlySnoops(p, 0, OwnPort(g, 0, x.bus, x.stats));
    OnlySnoops(p, 1, OwnPort(g, 1, x.bus, x.stats));
    OnlySnoops(p, 2, OwnPort(g, 2, x.bus, x.stats));
  }

  lemma GrantCycle(p: Protocol, h: nat, rest: seq<Op>)
    requires FillsFromGets(p) && h >= 1
    ensures Next(Three(p, h), Point(Asked(p, rest), BegunValues())) == Point(StoreGranted(p, h, rest), BegunValues())
  {
    hide Cycle, ShadowCycle, Next, Turns;
    GrantTurns(p, h, rest);
    PointOfThree(p, h, Asked(p, rest), BegunValues());
  }

  lemma StoreTurns(p: Protocol, h: nat, rest: seq<Op>)
    requires FillsFromGets(p)
    ensures var x := StoreDone(p, h, rest);
            Turns(p, Grant(MemoryReplied(p, h, rest)))
            == Ports(Left(x, M, Some(0)), Left(x, Wanting(p), None), Left(x, Wanting(p), None))
  {
    Overwritten();
  }

  lemma StoreCycle(p: Protocol, h: nat, rest: seq<Op>)
    requires FillsFromGets(p)
    ensures Next(Three(p, h), Point(MemoryReplied(p, h, rest), BegunValues()))
            == Point(StoreDone(p, h, rest), StoredValues())
  {
    hide Cycle, ShadowCycle, Next, Turns;
    StoreTurns(p, h, rest);
    PointOfThree(p, h, MemoryReplied(p, h, rest), BegunValues());
    assert With(With(map[], 0, 0), 0, 1) == map[0 := 1];
  }

  lemma ReachesM(p: Protocol, h: nat, rest: seq<Op>)
    requires FillsFromGets(p) && h >= 1
    ensures Run(Three(p, h), Traces(rest), 4 + h) == Point(StoreDone(p, h, rest), StoredValues())
  {
    hide Next, Run;
    var cfg, traces := Three(p, h), Traces(rest);
    FirstPoint(cfg, traces);
    BeginCycle(p, h, rest);
    RunNext(cfg, traces, 0);
    AskCycle(p, h, rest);
    RunNext(cfg, traces, 1);
    GrantCycle(p, h, rest);
    RunNext(cfg, traces, 2);
    MemoryAnswers(cfg, traces, 3, StoreGranted(p, h, rest), BegunValues());
    StoreCycle(p, h, rest);
    RunNext(cfg, traces, 3 + h);
  }

  lemma FirstPoint(cfg: Config, traces: seq<seq<Op>>)
    requires |traces| == cfg.nodes
    ensures Run(cfg, traces, 0) == Point(Initial(traces), ShadowInitial(cfg.nodes))
  {
  }
}
