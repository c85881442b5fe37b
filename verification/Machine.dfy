/** The simulator as a function on values: the whole state of a run and what one clock
    cycle makes of it. The classes of module Hardware are proved to compute these. */
module Machine {
  import opened Messages
  import opened Reactions
  import opened Protocols

  /** `nodes` caches and processors, and the memory controller's delay. */
  datatype Config = Config(protocol: Protocol, nodes: nat, hitTime: nat)

  datatype Bus = Bus(current: Option<Mreq>, pending: seq<Mreq>, reply: Option<Mreq>,
                     inProgress: bool, shared: bool)

  datatype Cache = Cache(request: Option<Op>, lines: map<Addr, LineState>)

  /** `trace` is the part not yet read; `inbound` and `buffer` are the two halves of the
      processor's double-buffered answer. */
  datatype Proc = Proc(trace: seq<Op>, ended: bool, outstanding: bool,
                       inbound: Option<Addr>, buffer: Option<Addr>)

  datatype Mem = Mem(busy: bool, time: nat, addr: Addr, target: nat)

  /** The simulator's counters; `replies` counts the DATA sent by the memory controller. */
  datatype Stats = Stats(misses: nat, accesses: nat, upgrades: nat, transfers: nat, replies: nat)

  /** `failed` records a fatal error or a failed assertion, after which nothing moves. */
  datatype Sys = Sys(bus: Bus, caches: seq<Cache>, procs: seq<Proc>, mem: Mem,
                     clock: nat, stats: Stats, failed: bool)

  // ---------------------------------------------------------------- bus

  function BusTick(b: Bus): Bus {
    if b.inProgress then
      if b.reply.Some? then b.(current := b.reply, reply := None, inProgress := false)
      else b.(current := None)
    else if b.pending != [] then
      b.(shared := false, current := Some(b.pending[0]), pending := b.pending[1..], inProgress := true)
    else b.(current := None)
  }

  function Enqueue(b: Bus, msg: Msg, a: Addr, i: nat): Bus {
    b.(pending := b.pending + [Mreq(msg, a, i, None)])
  }

  // ---------------------------------------------------------------- caches

  /** A line the table has no entry for is in state I. */
  function StateOf(c: Cache, a: Addr): LineState {
    if a in c.lines then c.lines[a] else I
  }

  /** What cache i reads and writes during its tick. */
  datatype Port = Port(bus: Bus, cache: Cache, buffer: Option<Addr>, stats: Stats, failed: bool)

  /** What a line's handlers can reach besides its state. */
  datatype Wires = Wires(bus: Bus, buffer: Option<Addr>, stats: Stats, failed: bool)

  /** Cache i carries out reaction r to a request for line a. */
  function Order(i: nat, a: Addr, r: ProcOut, w: Wires): Wires {
    if r.answer == Abort || (r.answer == Hit && w.buffer.Some?) then w.(failed := true)
    else
      var bus := w.bus.(shared := w.bus.shared || r.raise);
      match r.answer
      case Hit =>
        w.(bus := bus, buffer := Some(a),
           stats := if r.upgrade then w.stats.(upgrades := w.stats.upgrades + 1) else w.stats)
      case AskShared => w.(bus := Enqueue(bus, GETS, a, i), stats := w.stats.(misses := w.stats.misses + 1))
      case AskModified => w.(bus := Enqueue(bus, GETM, a, i), stats := w.stats.(misses := w.stats.misses + 1))
      case Abort => assert false; w
  }

  /** Cache i carries out reaction r to snooped message q. */
  function Reply(i: nat, q: Mreq, r: SnoopOut, w: Wires): Wires {
    if r.abort || (r.supply && w.bus.reply.Some?) || (r.fill && w.buffer.Some?) then w.(failed := true)
    else
      Wires(w.bus.(shared := w.bus.shared || r.raise,
                   reply := if r.supply then Some(Mreq(DATA, q.addr, i, Some(q.src))) else w.bus.reply),
            if r.fill then Some(q.addr) else w.buffer,
            if r.supply then w.stats.(transfers := w.stats.transfers + 1) else w.stats,
            false)
  }

  /** The first half of a cache's tick: the processor's request. */
  function Serve(p: Protocol, i: nat, x: Port): Port {
    match x.cache.request
    case None => x
    case Some(op) =>
      var r := OnProcessor(p, StateOf(x.cache, op.addr), op.Store?);
      var w := Order(i, op.addr, r, Wires(x.bus, x.buffer, x.stats.(accesses := x.stats.accesses + 1), false));
      if w.failed then x.(failed := true)
      else Port(w.bus, Cache(None, x.cache.lines[op.addr := r.next]), w.buffer, w.stats, false)
  }

  /** The second half of a cache's tick: the message on the bus. */
  function React(p: Protocol, i: nat, x: Port): Port {
    match x.bus.current
    case None => x
    case Some(q) =>
      if q.msg == DATA && q.dest != Some(i) then x
      else
        var r := OnSnoop(p, StateOf(x.cache, q.addr), q.msg, q.src == i, x.bus.shared);
        var w := Reply(i, q, r, Wires(x.bus, x.buffer, x.stats, false));
        if w.failed then x.(failed := true)
        else Port(w.bus, x.cache.(lines := x.cache.lines[q.addr := r.next]), w.buffer, w.stats, false)
  }

  /** What a cache's tick makes of what it can reach. */
  function TickPort(p: Protocol, i: nat, x: Port): Port {
    var y := Serve(p, i, x);
    if y.failed then y else React(p, i, y)
  }

  function PortOf(s: Sys, i: nat): Port
    requires i < |s.caches| == |s.procs|
  {
    Port(s.bus, s.caches[i], s.procs[i].buffer, s.stats, s.failed)
  }

  function WithPort(s: Sys, i: nat, x: Port): (r: Sys)
    requires i < |s.caches| == |s.procs|
  {
    s.(bus := x.bus, caches := s.caches[i := x.cache],
       procs := s.procs[i := s.procs[i].(buffer := x.buffer)], stats := x.stats, failed := x.failed)
  }

  function ServeCache(p: Protocol, s: Sys, i: nat): Sys
    requires i < |s.caches| == |s.procs|
  {
    if s.failed then s else WithPort(s, i, Serve(p, i, PortOf(s, i)))
  }

  function ReactCache(p: Protocol, s: Sys, i: nat): Sys
    requires i < |s.caches| == |s.procs|
  {
    if s.failed then s else WithPort(s, i, React(p, i, PortOf(s, i)))
  }

  function TickCache(p: Protocol, s: Sys, i: nat): (r: Sys)
    requires i < |s.caches| == |s.procs|
    ensures |r.caches| == |r.procs| == |s.procs|
  {
    ReactCache(p, ServeCache(p, s, i), i)
  }

  /** The ticks of caches 0, ..., k-1 in this order. */
  function TickCaches(p: Protocol, s: Sys, k: nat): (r: Sys)
    requires k <= |s.caches| == |s.procs|
    ensures |r.caches| == |r.procs| == |s.procs|
  {
    if k == 0 then s else TickCache(p, TickCaches(p, s, k - 1), k - 1)
  }

  // ---------------------------------------------------------------- processors

  function Receive(r: Proc): Proc {
    if r.inbound.Some? then r.(outstanding := false, inbound := None) else r
  }

  /** The processor will read its trace in this tick. */
  predicate Ready(r: Proc) {
    !Receive(r).ended && !Receive(r).outstanding
  }

  function TickProc(r: Proc): Proc {
    var x := Receive(r);
    if !Ready(r) then x
    else if x.trace != [] then x.(trace := x.trace[1..], outstanding := true)
    else x.(ended := true)
  }

  function Issue(r: Proc, c: Cache): Cache {
    if Ready(r) && r.trace != [] then c.(request := Some(r.trace[0])) else c
  }

  function TickProcs(s: Sys): (r: Sys)
    requires |s.caches| == |s.procs|
    ensures |r.caches| == |r.procs| == |s.procs|
  {
    if s.failed then s
    else
      s.(procs := seq(|s.procs|, i requires 0 <= i < |s.procs| => TickProc(s.procs[i])),
         caches := seq(|s.procs|, i requires 0 <= i < |s.procs| => Issue(s.procs[i], s.caches[i])))
  }

  function TockProc(r: Proc): Proc {
    if r.buffer.Some? then r.(inbound := r.buffer, buffer := None) else r
  }

  function TockProcs(s: Sys): (r: Sys)
    requires |s.caches| == |s.procs|
    ensures |r.caches| == |r.procs| == |s.procs|
  {
    if s.failed then s
    else s.(procs := seq(|s.procs|, i requires 0 <= i < |s.procs| => TockProc(s.procs[i])))
  }

  // ---------------------------------------------------------------- memory controller

  function Latch(cfg: Config, m: Mem, current: Option<Mreq>, clock: nat): Mem {
    match current
    case None => m
    case Some(q) =>
      if q.msg == DATA then m.(busy := false) else Mem(true, clock + cfg.hitTime, q.addr, q.src)
  }

  function TickMem(cfg: Config, s: Sys): (r: Sys)
    ensures r.caches == s.caches && r.procs == s.procs
  {
    if s.failed then s
    else if s.bus.current.Some? && s.bus.current.value.msg != DATA && s.mem.busy then s.(failed := true)
    else
      var m := Latch(cfg, s.mem, s.bus.current, s.clock);
      if m.busy && s.clock >= m.time then
        if s.bus.reply.Some? then s.(failed := true)
        else
          s.(mem := m.(busy := false),
             bus := s.bus.(reply := Some(Mreq(DATA, m.addr, cfg.nodes, Some(m.target)))),
             stats := s.stats.(replies := s.stats.replies + 1))
      else s.(mem := m)
  }

  // ---------------------------------------------------------------- the main loop

  predicate WellSized(cfg: Config, s: Sys) {
    |s.caches| == |s.procs| == cfg.nodes
  }

  function Grant(s: Sys): Sys {
    if s.failed then s else s.(bus := BusTick(s.bus))
  }

  function Cycle(cfg: Config, s: Sys): (r: Sys)
    requires WellSized(cfg, s)
    ensures WellSized(cfg, r)
  {
    var x := TockProcs(TickMem(cfg, TickProcs(TickCaches(cfg.protocol, Grant(s), cfg.nodes))));
    if x.failed then x else x.(clock := x.clock + 1)
  }

  predicate Done(s: Sys) {
    forall i :: 0 <= i < |s.procs| ==> s.procs[i].ended && !s.procs[i].outstanding
  }

  function Initial(traces: seq<seq<Op>>): (s: Sys)
    ensures |s.caches| == |s.procs| == |traces|
  {
    Sys(Bus(None, [], None, false, false),
        seq(|traces|, i => Cache(None, map[])),
        seq(|traces|, i requires 0 <= i < |traces| => Proc(traces[i], false, false, None, None)),
        Mem(false, 0, 0, 0), 0, Stats(0, 0, 0, 0, 0), false)
  }

  /** The state after m cycles. */
  function After(cfg: Config, s: Sys, m: nat): (r: Sys)
    requires WellSized(cfg, s)
    ensures WellSized(cfg, r)
  {
    if m == 0 then s else Cycle(cfg, After(cfg, s, m - 1))
  }
}
