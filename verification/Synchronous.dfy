/** One cycle seen from outside: all nodes at once, from one state between cycles to the next.
    The simulator, whose caches tick one after another over a bus they change, is proved to
    do exactly this, and to fail exactly when this says so. */
module Synchronous {
  import opened Messages
  import opened Protocols
  import opened Machine
  import opened Invariant
  import opened Liveness
  import opened Rules
  import Progress
  import Cycles
  import Steps

  // ---------------------------------------------------------------- what is on the bus

  predicate Grants(s: Sys) { !s.bus.inProgress && s.bus.pending != [] }

  /** The message that all caches and memory see in the coming cycle. */
  function Message(s: Sys): Option<Mreq> {
    if s.bus.inProgress then s.bus.reply else if s.bus.pending != [] then Some(s.bus.pending[0]) else None
  }

  /** It concerns line a of cache i. */
  predicate Concerns(s: Sys, i: nat, a: Addr) {
    && Message(s).Some? && Message(s).value.addr == a
    && (Message(s).value.msg == DATA ==> Message(s).value.dest == Some(i))
  }

  // ---------------------------------------------------------------- what each cache does

  function RequestOf(s: Sys, i: nat): Option<Op> {
    if i < |s.caches| then s.caches[i].request else None
  }

  function StateAt(s: Sys, i: nat, a: Addr): LineState {
    if i < |s.caches| then StateOf(s.caches[i], a) else I
  }

  predicate HitsAt(s: Sys, i: nat) {
    RequestOf(s, i).Some? && Hits(StateAt(s, i, RequestOf(s, i).value.addr), RequestOf(s, i).value)
  }

  predicate MissesAt(s: Sys, i: nat) {
    RequestOf(s, i).Some? && !Hits(StateAt(s, i, RequestOf(s, i).value.addr), RequestOf(s, i).value)
  }

  predicate UpgradesAt(s: Sys, i: nat) {
    && RequestOf(s, i).Some? && RequestOf(s, i).value.Store?
    && StateAt(s, i, RequestOf(s, i).value.addr) == E
  }

  predicate LoadSignalsAt(p: Protocol, s: Sys, i: nat) {
    RequestOf(s, i).Some? && LoadSignals(p, StateAt(s, i, RequestOf(s, i).value.addr), RequestOf(s, i).value)
  }

  /** The line once the cache's own request has been served. */
  function ServedLine(p: Protocol, s: Sys, i: nat, a: Addr): LineState {
    var st := StateAt(s, i, a);
    if RequestOf(s, i).Some? && RequestOf(s, i).value.addr == a then Served(p, st, RequestOf(s, i).value) else st
  }

  /** What the cache makes of the message. */
  predicate SuppliesAt(p: Protocol, s: Sys, i: nat) {
    && Message(s).Some? && i < |s.caches|
    && Supplies(p, ServedLine(p, s, i, Message(s).value.addr), Message(s).value.msg)
  }

  predicate SignalsAt(p: Protocol, s: Sys, i: nat) {
    && Message(s).Some? && i < |s.caches|
    && Signals(p, ServedLine(p, s, i, Message(s).value.addr), Message(s).value.msg)
  }

  predicate CompletesAt(p: Protocol, s: Sys, i: nat) {
    && Message(s).Some? && i < |s.caches| && Concerns(s, i, Message(s).value.addr)
    && Completes(p, ServedLine(p, s, i, Message(s).value.addr), Message(s).value.msg)
  }

  /** DATA for a line that holds a copy and waits for none. */
  predicate UnwantedAt(p: Protocol, s: Sys, i: nat) {
    && Message(s).Some? && Message(s).value.msg == DATA && i < |s.caches|
    && Concerns(s, i, Message(s).value.addr) && Readable(ServedLine(p, s, i, Message(s).value.addr))
  }

  // ---------------------------------------------------------------- what the first k caches do

  predicate SomeLoadSignals(p: Protocol, s: Sys, k: nat) {
    exists i {:trigger LoadSignalsAt(p, s, i)} :: 0 <= i < k && LoadSignalsAt(p, s, i)
  }

  predicate SomeSignals(p: Protocol, s: Sys, k: nat) {
    exists i {:trigger SignalsAt(p, s, i)} :: 0 <= i < k && SignalsAt(p, s, i)
  }

  /** The shared line when the first j caches have served and the first k have snooped. */
  predicate SharedAfter(p: Protocol, s: Sys, j: nat, k: nat) {
    (s.bus.shared && !Grants(s)) || SomeLoadSignals(p, s, j) || SomeSignals(p, s, k)
  }

  /** The line at the end of the cycle. */
  function NextLine(p: Protocol, s: Sys, i: nat, a: Addr): LineState {
    var st := ServedLine(p, s, i, a);
    if Concerns(s, i, a)
    then Heard(p, st, Message(s).value.msg, Message(s).value.src == i, SharedAfter(p, s, i + 1, i))
    else st
  }

  /** The GETs the first k caches queue, in the caches' order. */
  function NewGets(p: Protocol, s: Sys, k: nat): seq<Mreq> {
    if k == 0 then []
    else if MissesAt(s, k - 1) then
      var op := RequestOf(s, k - 1).value;
      NewGets(p, s, k - 1) + [Mreq(if Reads(p, op) then GETS else GETM, op.addr, k - 1, None)]
    else NewGets(p, s, k - 1)
  }

  function Requests(s: Sys, k: nat): nat {
    if k == 0 then 0 else Requests(s, k - 1) + One(RequestOf(s, k - 1).Some?)
  }

  function Upgrades(s: Sys, k: nat): nat {
    if k == 0 then 0 else Upgrades(s, k - 1) + One(UpgradesAt(s, k - 1))
  }

  /** The cache among the first k that answers the GET. */
  function Supplier(p: Protocol, s: Sys, k: nat): Option<nat> {
    if k == 0 then None else if SuppliesAt(p, s, k - 1) then Some(k - 1) else Supplier(p, s, k - 1)
  }

  function SupplierData(p: Protocol, s: Sys, k: nat): Option<Mreq> {
    if Supplier(p, s, k).Some? && Message(s).Some?
    then Some(Mreq(DATA, Message(s).value.addr, Supplier(p, s, k).value, Some(Message(s).value.src))) else None
  }

  /** Two of the first k caches answer, or DATA finds a line that does not want it. */
  ghost predicate Fatal(p: Protocol, s: Sys, k: nat) {
    || (exists i {:trigger UnwantedAt(p, s, i)} :: 0 <= i < k && UnwantedAt(p, s, i))
    || (exists i, j {:trigger SuppliesAt(p, s, i), SuppliesAt(p, s, j)} ::
          0 <= i < j < k && SuppliesAt(p, s, i) && SuppliesAt(p, s, j))
  }

  /** The answer a processor finds in the next cycle. */
  function AnswerTo(p: Protocol, s: Sys, i: nat): Option<Addr> {
    if HitsAt(s, i) then Some(RequestOf(s, i).value.addr)
    else if CompletesAt(p, s, i) then Some(Message(s).value.addr)
    else None
  }

  // ---------------------------------------------------------------- processors and memory

  /** An answer frees its processor, and a free processor reads its trace. */
  predicate Free(r: Proc) { !r.ended && (r.inbound.Some? || !r.outstanding) }

  predicate Issues(r: Proc) { Free(r) && r.trace != [] }

  function NextProc(p: Protocol, s: Sys, i: nat): Proc
    requires i < |s.procs|
  {
    var r := s.procs[i];
    Proc(if Issues(r) then r.trace[1..] else r.trace,
         r.ended || (Free(r) && r.trace == []),
         Issues(r) || (r.outstanding && r.inbound.None?),
         AnswerTo(p, s, i), None)
  }

  /** The access memory is at work on, once it has seen the message. */
  function Access(cfg: Config, s: Sys): Mem {
    match Message(s)
    case None => s.mem
    case Some(q) => if q.msg == DATA then s.mem.(busy := false) else Mem(true, s.clock + cfg.hitTime, q.addr, q.src)
  }

  predicate MemoryAnswers(cfg: Config, s: Sys) { Access(cfg, s).busy && s.clock >= Access(cfg, s).time }

  function MemoryData(cfg: Config, s: Sys): Mreq {
    Mreq(DATA, Access(cfg, s).addr, cfg.nodes, Some(Access(cfg, s).target))
  }

  ghost predicate FollowNodes(p: Protocol, s: Sys, x: Sys) {
    && |s.caches| == |s.procs| == |x.caches| == |x.procs|
    && (forall i, a :: 0 <= i < |s.caches| ==> StateOf(x.caches[i], a) == NextLine(p, s, i, a))
    && (forall i :: 0 <= i < |s.caches| ==>
          && x.procs[i] == NextProc(p, s, i)
          && x.caches[i].request == if Issues(s.procs[i]) then Some(s.procs[i].trace[0]) else None)
  }

  ghost predicate FollowBus(cfg: Config, s: Sys, x: Sys) {
    var p, n := cfg.protocol, cfg.nodes;
    && x.bus.current == Message(s)
    && x.bus.inProgress == (if s.bus.inProgress then s.bus.reply.None? else s.bus.pending != [])
    && x.bus.pending == (if Grants(s) then s.bus.pending[1..] else s.bus.pending) + NewGets(p, s, n)
    && x.bus.shared == SharedAfter(p, s, n, n)
    && x.bus.reply == (if MemoryAnswers(cfg, s) then Some(MemoryData(cfg, s)) else SupplierData(p, s, n))
    && x.mem == Access(cfg, s).(busy := Access(cfg, s).busy && !MemoryAnswers(cfg, s))
    && x.stats == Stats(s.stats.misses + |NewGets(p, s, n)|, s.stats.accesses + Requests(s, n),
                        s.stats.upgrades + Upgrades(s, n), s.stats.transfers + One(Supplier(p, s, n).Some?),
                        s.stats.replies + One(MemoryAnswers(cfg, s)))
  }

  /** x is the state one cycle after s. */
  ghost predicate Follows(cfg: Config, s: Sys, x: Sys) {
    && |s.caches| == cfg.nodes && FollowNodes(cfg.protocol, s, x) && FollowBus(cfg, s, x)
    && x.clock == s.clock + 1 && !x.failed
  }

  // ---------------------------------------------------------------- the caches, one after another

  ghost predicate HalfwayNodes(p: Protocol, s: Sys, y: Sys, j: nat, k: nat) {
    && |s.caches| == |s.procs| == |y.caches| == |y.procs|
    && (forall i :: 0 <= i < |s.caches| ==>
          && y.caches[i].request == (if i < j then None else s.caches[i].request)
          && y.procs[i] == s.procs[i].(buffer := if i < k then AnswerTo(p, s, i)
                                                 else if i < j && HitsAt(s, i) then Some(RequestOf(s, i).value.addr)
                                                 else None))
  }

  ghost predicate HalfwayLines(p: Protocol, s: Sys, y: Sys, j: nat, k: nat) {
    && |s.caches| == |y.caches|
    && (forall i, a :: 0 <= i < |s.caches| ==>
          StateOf(y.caches[i], a) == if i < k then NextLine(p, s, i, a)
                                     else if i < j then ServedLine(p, s, i, a) else StateAt(s, i, a))
  }

  ghost predicate HalfwayBus(p: Protocol, s: Sys, y: Sys, j: nat, k: nat) {
    && y.bus == Bus(Message(s), (if Grants(s) then s.bus.pending[1..] else s.bus.pending) + NewGets(p, s, j),
                    SupplierData(p, s, k),
                    if s.bus.inProgress then s.bus.reply.None? else s.bus.pending != [],
                    SharedAfter(p, s, j, k))
    && y.stats == s.stats.(misses := s.stats.misses + |NewGets(p, s, j)|, accesses := s.stats.accesses + Requests(s, j),
                           upgrades := s.stats.upgrades + Upgrades(s, j),
                           transfers := s.stats.transfers + One(Supplier(p, s, k).Some?))
    && y.mem == s.mem && y.clock == s.clock && !y.failed
  }

  /** Of the caches, the first j have served and the first k have snooped. */
  ghost predicate Halfway(p: Protocol, s: Sys, y: Sys, j: nat, k: nat) {
    HalfwayNodes(p, s, y, j, k) && HalfwayLines(p, s, y, j, k) && HalfwayBus(p, s, y, j, k)
  }

  lemma Starts(cfg: Config, s: Sys)
    requires EndSteady(cfg, s)
    ensures Halfway(cfg.protocol, s, Grant(s), 0, 0)
  {
    hide Stable, Legal, TransientOk, GetsQueued;
    assert forall i :: 0 <= i < |s.procs| ==> s.procs[i] == s.procs[i].(buffer := None);
  }

  /** A cache serves its request by the rules. */
  lemma ServePort(p: Protocol, i: nat, y: Port, op: Op)
    requires y.cache.request == Some(op) && y.buffer.None? && !y.failed
    requires Legal(p, StateOf(y.cache, op.addr)) && !Transient(StateOf(y.cache, op.addr))
    ensures var st := StateOf(y.cache, op.addr);
            Serve(p, i, y)
            == Port(y.bus.(shared := y.bus.shared || LoadSignals(p, st, op),
                           pending := if Hits(st, op) then y.bus.pending
                                      else y.bus.pending + [Mreq(if Reads(p, op) then GETS
                                                                 else GETM, op.addr, i, None)]),
                    Cache(None, y.cache.lines[op.addr := Served(p, st, op)]),
                    if Hits(st, op) then Some(op.addr) else None,
                    y.stats.(accesses := y.stats.accesses + 1, misses := y.stats.misses + One(!Hits(st, op)),
                             upgrades := y.stats.upgrades + One(op.Store? && st == E)),
                    false)
  {
    hide OnProcessor, Served, Hits, LoadSignals, Legal;
    RequestRules(p, StateOf(y.cache, op.addr), op);
    UpgradeHits(StateOf(y.cache, op.addr), op);
  }

  lemma UpgradeHits(st: LineState, op: Op)
    ensures op.Store? && st == E ==> Hits(st, op)
  {
  }

  /** And reacts to a message that concerns it. */
  lemma ReactPort(p: Protocol, i: nat, y: Port, q: Mreq)
    requires y.bus.current == Some(q) && (q.msg == DATA ==> q.dest == Some(i)) && !y.failed
    requires Legal(p, StateOf(y.cache, q.addr)) && (Transient(StateOf(y.cache, q.addr)) ==> y.buffer.None?)
    ensures var st := StateOf(y.cache, q.addr);
            && React(p, i, y).failed == ((q.msg == DATA && Readable(st))
                                         || (Supplies(p, st, q.msg) && y.bus.reply.Some?))
            && (!React(p, i, y).failed ==>
                  React(p, i, y)
                  == Port(y.bus.(shared := y.bus.shared || Signals(p, st, q.msg),
                                 reply := if Supplies(p, st, q.msg) then Some(Mreq(DATA, q.addr, i, Some(q.src)))
                                          else y.bus.reply),
                          y.cache.(lines := y.cache.lines[q.addr := Heard(p, st, q.msg, q.src == i, y.bus.shared)]),
                          if Completes(p, st, q.msg) then Some(q.addr) else y.buffer,
                          y.stats.(transfers := y.stats.transfers + One(Supplies(p, st, q.msg))), false))
  {
    hide OnSnoop, Heard, Legal;
    var st := StateOf(y.cache, q.addr);
    if q.msg == DATA {
      DataRules(p, st, q.src == i, y.bus.shared);
    } else {
      GetRules(p, st, q.msg, q.src == i, y.bus.shared);
    }
  }

  // ---------------------------------------------------------------- one cache serves its request

  lemma ServesNothing(p: Protocol, s: Sys, y: Sys, k: nat)
    requires Halfway(p, s, y, k, k) && k < |s.caches| && s.caches[k].request.None?
    ensures Halfway(p, s, y, k + 1, k)
  {
    hide NextLine, Served, Hits, SharedAfter, Supplier, SupplierData, AnswerTo, LoadSignals;
    ServedShared(p, s, k);
    assert !LoadSignalsAt(p, s, k);
  }

  lemma ServedNodes(p: Protocol, s: Sys, y: Sys, k: nat, z: Port)
    requires HalfwayNodes(p, s, y, k, k) && k < |s.caches| && s.caches[k].request.Some?
    requires z.cache.request.None?
    requires z.buffer == if HitsAt(s, k) then Some(RequestOf(s, k).value.addr) else None
    ensures HalfwayNodes(p, s, WithPort(y, k, z), k + 1, k)
  {
    hide AnswerTo, HitsAt;
  }

  lemma ServedLines(p: Protocol, s: Sys, y: Sys, k: nat, z: Port)
    requires |y.caches| == |y.procs| && HalfwayLines(p, s, y, k, k) && k < |s.caches| && s.caches[k].request.Some?
    requires var op := s.caches[k].request.value;
             z.cache.lines == y.caches[k].lines[op.addr := Served(p, StateAt(s, k, op.addr), op)]
    ensures HalfwayLines(p, s, WithPort(y, k, z), k + 1, k)
  {
    hide NextLine, Served;
    var x := WithPort(y, k, z);
    forall i, a | 0 <= i < |s.caches|
      ensures StateOf(x.caches[i], a) == if i < k then NextLine(p, s, i, a)
                                         else if i < k + 1 then ServedLine(p, s, i, a) else StateAt(s, i, a)
    {
      assert StateOf(y.caches[i], a) == if i < k then NextLine(p, s, i, a) else StateAt(s, i, a);
    }
  }

  lemma ServedShared(p: Protocol, s: Sys, k: nat)
    ensures SharedAfter(p, s, k + 1, k) == (SharedAfter(p, s, k, k) || LoadSignalsAt(p, s, k))
  {
    hide LoadSignalsAt, SignalsAt;
  }

  lemma ServedBus(p: Protocol, s: Sys, y: Sys, k: nat, z: Port)
    requires |y.caches| == |y.procs| && HalfwayBus(p, s, y, k, k) && k < |s.caches| == |y.caches|
    requires s.caches[k].request.Some? && !z.failed
    requires var op := s.caches[k].request.value;
             z.bus == y.bus.(shared := y.bus.shared || LoadSignalsAt(p, s, k),
                             pending := if HitsAt(s, k) then y.bus.pending
                                        else y.bus.pending + [Mreq(if Reads(p, op) then GETS
                                                                   else GETM, op.addr, k, None)])
    requires z.stats == y.stats.(accesses := y.stats.accesses + 1, misses := y.stats.misses + One(!HitsAt(s, k)),
                                 upgrades := y.stats.upgrades + One(UpgradesAt(s, k)))
    ensures HalfwayBus(p, s, WithPort(y, k, z), k + 1, k)
  {
    hide SharedAfter, LoadSignalsAt, UpgradesAt, Hits, Supplier, SupplierData;
    ServedShared(p, s, k);
    assert MissesAt(s, k) == !HitsAt(s, k);
  }

  lemma ServesToo(p: Protocol, s: Sys, y: Sys, k: nat)
    requires Halfway(p, s, y, k, k) && k < |s.caches| && NodeOk(p, s.caches[k], s.procs[k]) && s.procs[k].buffer.None?
    ensures Halfway(p, s, ServeCache(p, y, k), k + 1, k)
  {
    hide Serve, Legal, Transient, NextLine, Served, Hits, LoadSignals, SharedAfter, NewGets, Requests, Upgrades;
    if s.caches[k].request.Some? {
      var op := s.caches[k].request.value;
      assert StateOf(y.caches[k], op.addr) == StateAt(s, k, op.addr);
      assert y.procs[k].buffer.None?;
      assert y.caches[k].request == Some(op);
      ServePort(p, k, PortOf(y, k), op);
      var z := Serve(p, k, PortOf(y, k));
      ServedNodes(p, s, y, k, z);
      ServedLines(p, s, y, k, z);
      ServedBus(p, s, y, k, z);
    } else {
      Steps.IdleServe(p, y, k);
      ServesNothing(p, s, y, k);
    }
  }

  // ---------------------------------------------------------------- one cache snoops the message

  lemma ServedLegal(p: Protocol, s: Sys, k: nat, a: Addr)
    requires |s.caches| == |s.procs| && k < |s.caches| && NodeOk(p, s.caches[k], s.procs[k])
    ensures Legal(p, ServedLine(p, s, k, a)) && (Transient(ServedLine(p, s, k, a)) ==> !HitsAt(s, k))
  {
    hide Legal, OnProcessor, Hits, Served;
    if s.caches[k].request.Some? {
      var op := s.caches[k].request.value;
      RequestRules(p, StateOf(s.caches[k], op.addr), op);
      LegalServed(p, StateOf(s.caches[k], op.addr), op.Store?);
    }
  }

  lemma SnoopedNodes(p: Protocol, s: Sys, y: Sys, k: nat, z: Port)
    requires HalfwayNodes(p, s, y, k + 1, k) && k < |s.caches|
    requires z.cache.request == y.caches[k].request && z.buffer == AnswerTo(p, s, k)
    ensures HalfwayNodes(p, s, WithPort(y, k, z), k + 1, k + 1)
  {
    hide AnswerTo, HitsAt;
  }

  lemma SnoopedLines(p: Protocol, s: Sys, y: Sys, k: nat, z: Port)
    requires |y.caches| == |y.procs| && HalfwayLines(p, s, y, k + 1, k) && k < |s.caches|
    requires forall a :: StateOf(z.cache, a) == NextLine(p, s, k, a)
    ensures HalfwayLines(p, s, WithPort(y, k, z), k + 1, k + 1)
  {
    hide NextLine, ServedLine;
    var x := WithPort(y, k, z);
    forall i, a | 0 <= i < |s.caches|
      ensures StateOf(x.caches[i], a) == if i < k + 1 then NextLine(p, s, i, a) else StateAt(s, i, a)
    {
      assert i != k ==> StateOf(y.caches[i], a) == if i < k then NextLine(p, s, i, a) else StateAt(s, i, a);
    }
  }

  lemma SnoopedShared(p: Protocol, s: Sys, k: nat)
    ensures SharedAfter(p, s, k + 1, k + 1) == (SharedAfter(p, s, k + 1, k) || SignalsAt(p, s, k))
  {
    hide LoadSignalsAt, SignalsAt;
  }

  lemma SnoopedBus(p: Protocol, s: Sys, y: Sys, k: nat, z: Port)
    requires |y.caches| == |y.procs| && HalfwayBus(p, s, y, k + 1, k) && k < |s.caches| == |y.caches| && !z.failed
    requires SuppliesAt(p, s, k) ==> Supplier(p, s, k).None?
    requires z.bus == y.bus.(shared := y.bus.shared || SignalsAt(p, s, k),
                             reply := if SuppliesAt(p, s, k)
                                      then Some(Mreq(DATA, Message(s).value.addr, k, Some(Message(s).value.src)))
                                      else y.bus.reply)
    requires z.stats == y.stats.(transfers := y.stats.transfers + One(SuppliesAt(p, s, k)))
    ensures HalfwayBus(p, s, WithPort(y, k, z), k + 1, k + 1)
  {
    hide SharedAfter, SignalsAt, NewGets, Requests, Upgrades;
    SnoopedShared(p, s, k);
  }

  predicate FatalAt(p: Protocol, s: Sys, k: nat) {
    UnwantedAt(p, s, k) || (SuppliesAt(p, s, k) && Supplier(p, s, k).Some?)
  }

  lemma SnoopsNothing(p: Protocol, s: Sys, y: Sys, k: nat)
    requires Halfway(p, s, y, k + 1, k) && k < |s.caches|
    requires Message(s).Some? ==> !Concerns(s, k, Message(s).value.addr)
    ensures ReactCache(p, y, k) == y && Halfway(p, s, y, k + 1, k + 1) && !FatalAt(p, s, k)
  {
    hide NextLine, ServedLine, Supplies, Signals, Completes, NewGets, Requests, Upgrades, SharedAfter;
    assert y.caches[k := y.caches[k]] == y.caches;
    assert y.procs[k := y.procs[k].(buffer := y.procs[k].buffer)] == y.procs;
    SnoopsNoGet(p, s, k);
    SnoopedShared(p, s, k);
    forall i, a | 0 <= i < |s.caches|
      ensures StateOf(y.caches[i], a) == if i < k + 1 then NextLine(p, s, i, a) else StateAt(s, i, a)
    {
      assert StateOf(y.caches[i], a) == if i < k then NextLine(p, s, i, a)
                                        else if i < k + 1 then ServedLine(p, s, i, a) else StateAt(s, i, a);
      LineUnconcerned(p, s, k, a);
    }
  }

  lemma LineUnconcerned(p: Protocol, s: Sys, k: nat, a: Addr)
    requires !Concerns(s, k, a)
    ensures NextLine(p, s, k, a) == ServedLine(p, s, k, a)
  {
  }

  lemma SnoopsNoGet(p: Protocol, s: Sys, k: nat)
    requires Message(s).Some? ==> !Concerns(s, k, Message(s).value.addr)
    ensures !SuppliesAt(p, s, k) && !SignalsAt(p, s, k) && !CompletesAt(p, s, k) && !UnwantedAt(p, s, k)
    ensures forall a :: !Concerns(s, k, a)
  {
  }

  lemma AnswerSnooped(p: Protocol, s: Sys, k: nat)
    requires k < |s.caches| && Message(s).Some? && Concerns(s, k, Message(s).value.addr)
    requires Transient(ServedLine(p, s, k, Message(s).value.addr)) ==> !HitsAt(s, k)
    ensures var q := Message(s).value;
            var done := Completes(p, ServedLine(p, s, k, q.addr), q.msg);
            && (done ==> !HitsAt(s, k))
            && AnswerTo(p, s, k) == (if done then Some(q.addr)
                                     else if HitsAt(s, k) then Some(RequestOf(s, k).value.addr) else None)
  {
    hide ServedLine, HitsAt;
    CompletesWaiting(p, ServedLine(p, s, k, Message(s).value.addr), Message(s).value.msg);
  }

  lemma LineSnooped(p: Protocol, s: Sys, y: Sys, k: nat, z: Port, a: Addr)
    requires HalfwayLines(p, s, y, k + 1, k) && k < |s.caches|
    requires Message(s).Some? && Concerns(s, k, Message(s).value.addr)
    requires var q := Message(s).value;
             z.cache.lines == y.caches[k].lines[q.addr := Heard(p, ServedLine(p, s, k, q.addr), q.msg, q.src == k,
                                                                SharedAfter(p, s, k + 1, k))]
    ensures StateOf(z.cache, a) == NextLine(p, s, k, a)
  {
    hide Heard, ServedLine, SharedAfter;
    assert StateOf(y.caches[k], a) == ServedLine(p, s, k, a);
  }

  /** What cache k finds when it snoops. */
  lemma PortSnooped(p: Protocol, s: Sys, y: Sys, k: nat)
    requires Halfway(p, s, y, k + 1, k) && k < |s.caches| && Message(s).Some?
    ensures |y.caches| == |y.procs| == |s.caches| == |s.procs|
    ensures var o := PortOf(y, k);
            && !o.failed && o.bus.current == Message(s) && o.bus.shared == SharedAfter(p, s, k + 1, k)
            && o.bus.reply.Some? == Supplier(p, s, k).Some?
            && o.buffer == (if HitsAt(s, k) then Some(RequestOf(s, k).value.addr) else None)
            && StateOf(o.cache, Message(s).value.addr) == ServedLine(p, s, k, Message(s).value.addr)
  {
    hide HitsAt, SharedAfter, ServedLine, NewGets, Requests, Upgrades, NextLine, AnswerTo;
  }

  lemma SnoopsToo(p: Protocol, s: Sys, y: Sys, k: nat)
    requires Halfway(p, s, y, k + 1, k) && k < |s.caches| && NodeOk(p, s.caches[k], s.procs[k])
    requires Message(s).Some? && Concerns(s, k, Message(s).value.addr)
    ensures |y.caches| == |y.procs| == |s.caches| == |s.procs|
    ensures var x := ReactCache(p, y, k);
            x.failed == FatalAt(p, s, k) && (!x.failed ==> Halfway(p, s, x, k + 1, k + 1))
  {
    hide React, Legal, NextLine, ServedLine, Supplies, Signals, Completes, Heard, Readable, SharedAfter, HitsAt, NodeOk,
         Transient, AnswerTo, HalfwayNodes, HalfwayLines, HalfwayBus;
    var q := Message(s).value;
    PortSnooped(p, s, y, k);
    ServedLegal(p, s, k, q.addr);
    AnswerSnooped(p, s, k);
    var o := PortOf(y, k);
    ReactPort(p, k, o, q);
    var z := React(p, k, o);
    if !z.failed {
      SnoopedNodes(p, s, y, k, z);
      forall a ensures StateOf(z.cache, a) == NextLine(p, s, k, a) {
        LineSnooped(p, s, y, k, z, a);
      }
      SnoopedLines(p, s, y, k, z);
      SnoopedBus(p, s, y, k, z);
    }
  }

  lemma CompletesWaiting(p: Protocol, st: LineState, msg: Msg)
    ensures Completes(p, st, msg) ==> Transient(st)
  {
  }

  // ---------------------------------------------------------------- all caches

  lemma TicksToo(p: Protocol, s: Sys, y: Sys, k: nat)
    requires Halfway(p, s, y, k, k) && k < |s.caches| && NodeOk(p, s.caches[k], s.procs[k]) && s.procs[k].buffer.None?
    ensures |y.caches| == |y.procs| == |s.caches| == |s.procs|
    ensures var x := TickCache(p, y, k);
            x.failed == FatalAt(p, s, k) && (!x.failed ==> Halfway(p, s, x, k + 1, k + 1))
  {
    hide Halfway, ServeCache, ReactCache, FatalAt, NodeOk, Concerns;
    HalfwaySizes(p, s, y, k, k);
    ServesToo(p, s, y, k);
    HalfwaySizes(p, s, ServeCache(p, y, k), k + 1, k);
    if Message(s).Some? && Concerns(s, k, Message(s).value.addr) {
      SnoopsToo(p, s, ServeCache(p, y, k), k);
    } else {
      SnoopsNothing(p, s, ServeCache(p, y, k), k);
    }
  }

  lemma HalfwaySizes(p: Protocol, s: Sys, y: Sys, j: nat, k: nat)
    requires Halfway(p, s, y, j, k)
    ensures |s.caches| == |s.procs| == |y.caches| == |y.procs| && !y.failed
  {
  }

  lemma {:induction false} AllTick(p: Protocol, s: Sys, g: Sys, k: nat)
    requires Halfway(p, s, g, 0, 0) && k <= |s.caches| && NodesOk(p, s) && BuffersEmpty(s)
    ensures |g.caches| == |g.procs| == |s.caches|
    ensures var x := TickCaches(p, g, k);
            x.failed == Fatal(p, s, k) && (!x.failed ==> Halfway(p, s, x, k, k))
  {
    hide Halfway, TickCache, NodeOk, FatalAt, Fatal;
    HalfwaySizes(p, s, g, 0, 0);
    if k > 0 {
      AllTick(p, s, g, k - 1);
      FatalNext(p, s, k - 1);
      var y := TickCaches(p, g, k - 1);
      if y.failed {
        Progress.FailedCache(p, y, k - 1);
      } else {
        TicksToo(p, s, y, k - 1);
      }
    } else {
      NothingFatal(p, s);
    }
  }

  lemma NothingFatal(p: Protocol, s: Sys)
    ensures !Fatal(p, s, 0)
  {
  }

  lemma FatalNext(p: Protocol, s: Sys, k: nat)
    ensures Fatal(p, s, k + 1) == (Fatal(p, s, k) || FatalAt(p, s, k))
  {
    hide UnwantedAt, SuppliesAt;
    SupplierExists(p, s, k);
  }

  lemma {:induction false} SupplierExists(p: Protocol, s: Sys, k: nat)
    ensures Supplier(p, s, k).Some? <==> exists i {:trigger SuppliesAt(p, s, i)} :: 0 <= i < k && SuppliesAt(p, s, i)
    ensures Supplier(p, s, k).Some? ==> Supplier(p, s, k).value < k && SuppliesAt(p, s, Supplier(p, s, k).value)
  {
    hide SuppliesAt;
    if k > 0 {
      SupplierExists(p, s, k - 1);
    }
  }

  // ---------------------------------------------------------------- the rest of the cycle

  lemma ProcsFollow(p: Protocol, s: Sys, y: Sys)
    requires HalfwayNodes(p, s, y, |s.caches|, |s.caches|) && NodesOk(p, s) && BuffersEmpty(s) && !y.failed
    ensures forall i :: 0 <= i < |s.caches| ==>
              && TickProcs(y).procs[i].buffer == AnswerTo(p, s, i)
              && TickProcs(y).procs[i].(inbound := AnswerTo(p, s, i), buffer := None) == NextProc(p, s, i)
              && TickProcs(y).procs[i].inbound.None?
              && TickProcs(y).caches[i].request == (if Issues(s.procs[i]) then Some(s.procs[i].trace[0]) else None)
              && TickProcs(y).caches[i].lines == y.caches[i].lines
  {
    hide AnswerTo, Legal, Stable;
    forall i | 0 <= i < |s.caches|
      ensures TickProcs(y).procs[i].(inbound := AnswerTo(p, s, i), buffer := None) == NextProc(p, s, i)
      ensures TickProcs(y).procs[i].buffer == AnswerTo(p, s, i) && TickProcs(y).procs[i].inbound.None?
      ensures TickProcs(y).caches[i].request == (if Issues(s.procs[i]) then Some(s.procs[i].trace[0]) else None)
    {
      assert NodeOk(p, s.caches[i], s.procs[i]);
    }
  }

  /** Any cycle of any run, hazards included: it fails exactly when two caches answer a GET or
      DATA reaches a line that holds a copy and waits for none, and otherwise makes of every
      line, processor, queue, slot and counter exactly what the rules say. */
  lemma EveryCycle(cfg: Config, s: Sys)
    requires cfg.hitTime >= 1 && EndSteady(cfg, s)
    ensures WellSized(cfg, s)
    ensures Cycle(cfg, s).failed == Fatal(cfg.protocol, s, cfg.nodes)
    ensures !Cycle(cfg, s).failed ==> Follows(cfg, s, Cycle(cfg, s))
  {
    hide Fatal, Halfway, TickCaches, TickProcs, Steady, NodesOk, BusShape;
    var p, n := cfg.protocol, cfg.nodes;
    SteadyNodes(cfg, s);
    Starts(cfg, s);
    AllTick(p, s, Grant(s), n);
    var y := TickCaches(p, Grant(s), n);
    if y.failed {
      Progress.StaysFailed(cfg, y);
    } else {
      CycleEnds(cfg, s, y);
    }
  }

  lemma SteadyNodes(cfg: Config, s: Sys)
    requires EndSteady(cfg, s)
    ensures WellSized(cfg, s) && !s.failed && NodesOk(cfg.protocol, s) && BuffersEmpty(s) && BusEnd(cfg, s)
  {
  }

  /** Memory is never asked while it is busy, and never answers when a cache does. */
  lemma MemFollows(cfg: Config, s: Sys, y: Sys)
    requires cfg.hitTime >= 1 && BusEnd(cfg, s) && |s.caches| == cfg.nodes
    requires forall q :: q in s.bus.pending ==> q.msg != DATA
    requires HalfwayBus(cfg.protocol, s, y, cfg.nodes, cfg.nodes)
    ensures !TickMem(cfg, y).failed && FollowBus(cfg, s, TickMem(cfg, y)) && TickMem(cfg, y).clock == s.clock
  {
    hide NewGets, Requests, Upgrades, Supplier, SharedAfter;
    if s.bus.pending != [] {
      assert s.bus.pending[0] in s.bus.pending;
    }
  }

  lemma MemIgnoresProcs(cfg: Config, y: Sys)
    requires |y.caches| == |y.procs| && !y.failed
    ensures var x, z := TickMem(cfg, TickProcs(y)), TickMem(cfg, y);
            x.bus == z.bus && x.mem == z.mem && x.stats == z.stats && x.clock == z.clock && x.failed == z.failed
  {
    hide Latch;
  }

  lemma TockFollows(p: Protocol, s: Sys, y: Sys, z: Sys)
    requires HalfwayNodes(p, s, y, |s.caches|, |s.caches|) && HalfwayLines(p, s, y, |s.caches|, |s.caches|)
    requires NodesOk(p, s) && BuffersEmpty(s) && !y.failed && !z.failed
    requires z.caches == TickProcs(y).caches && z.procs == TickProcs(y).procs
    ensures FollowNodes(p, s, TockProcs(z))
  {
    hide NodesOk, NextProc, AnswerTo, Issues, NextLine;
    ProcsFollow(p, s, y);
    var x := TockProcs(z);
    forall i | 0 <= i < |s.caches| ensures x.procs[i] == NextProc(p, s, i) {
      assert x.procs[i] == TickProcs(y).procs[i].(inbound := AnswerTo(p, s, i), buffer := None);
    }
    forall i, a | 0 <= i < |s.caches| ensures StateOf(x.caches[i], a) == NextLine(p, s, i, a) {
      assert StateOf(y.caches[i], a) == NextLine(p, s, i, a);
    }
  }

  lemma CycleEnds(cfg: Config, s: Sys, y: Sys)
    requires cfg.hitTime >= 1 && EndSteady(cfg, s) && WellSized(cfg, s)
    requires Halfway(cfg.protocol, s, y, cfg.nodes, cfg.nodes) && y == TickCaches(cfg.protocol, Grant(s), cfg.nodes)
    ensures !Cycle(cfg, s).failed && Follows(cfg, s, Cycle(cfg, s))
  {
    hide HalfwayNodes, HalfwayLines, FollowNodes, NodesOk, TransientOk, TickCaches, TickProcs, TickMem, TockProcs,
         BuffersEmpty, NewGets, Requests, Upgrades, Supplier, SharedAfter, SupplierData, MemoryAnswers,
           Access, MemoryData;
    HalfwaySizes(cfg.protocol, s, y, cfg.nodes, cfg.nodes);
    MemFollows(cfg, s, y);
    MemIgnoresProcs(cfg, y);
    var z := TickMem(cfg, TickProcs(y));
    TockFollows(cfg.protocol, s, y, z);
    TockKeeps(z);
    ClockAside(cfg.protocol, s, TockProcs(z));
  }

  lemma ClockAside(p: Protocol, s: Sys, x: Sys)
    requires FollowNodes(p, s, x)
    ensures FollowNodes(p, s, x.(clock := x.clock + 1))
  {
    hide NextLine, NextProc;
  }

  lemma TockKeeps(z: Sys)
    requires |z.caches| == |z.procs| && !z.failed
    ensures var x := TockProcs(z);
            x.bus == z.bus && x.mem == z.mem && x.stats == z.stats && x.clock == z.clock && !x.failed
              && x.caches == z.caches
  {
  }

  // ---------------------------------------------------------------- runs

  /** So every run goes on by the rules until it fails, and fails by them. */
  lemma EveryRun(cfg: Config, traces: seq<seq<Op>>, m: nat)
    requires cfg.hitTime >= 1 && |traces| == cfg.nodes
    ensures var s, x := After(cfg, Initial(traces), m), After(cfg, Initial(traces), m + 1);
            && (s.failed ==> x.failed)
            && (!s.failed ==> x.failed == Fatal(cfg.protocol, s, cfg.nodes) && (!x.failed ==> Follows(cfg, s, x)))
  {
    hide EndSteady, Cycle, Fatal, Follows, After;
    var s := After(cfg, Initial(traces), m);
    Cycles.AfterNext(cfg, Initial(traces), m);
    if s.failed {
      Progress.FailedForGood(cfg, s);
    } else {
      Progress.RunsStaySteady(cfg, traces, m);
      EveryCycle(cfg, s);
    }
  }
}
