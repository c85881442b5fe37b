/** The invariant of the whole machine. The parameter k counts the caches that have ticked
    in the current cycle; between cycles k is the number of caches. */
module Invariant {
  import opened Messages
  import opened Reactions
  import opened Protocols
  import opened Machine
  import L = LineMachine

  // ---------------------------------------------------------------- transactions

  /** The line and the requester of the transaction on the bus. */
  datatype Want = Want(addr: Addr, req: nat)

  /** A transaction lasts from the grant of its GET to the requester's tick in the cycle of
      its DATA. After the cycle of the GET the memory controller remembers what it is about. */
  function Holder(s: Sys, k: nat): Option<Want> {
    match s.bus.current
    case Some(q) =>
      if q.msg != DATA then Some(Want(q.addr, q.src))
      else if q.dest.Some? && k <= q.dest.value then Some(Want(q.addr, q.dest.value))
      else None
    case None => if s.bus.inProgress then Some(Want(s.mem.addr, s.mem.target)) else None
  }

  function Author(n: nat, d: Option<Mreq>): L.Reply {
    if d.None? then L.NoReply else if d.value.src < n then L.FromCache else L.FromMemory
  }

  /** The transaction as line a sees it. */
  function TxnAt(s: Sys, k: nat, a: Addr): L.Txn {
    var h := Holder(s, k);
    if h.None? || h.value.addr != a then L.Quiet
    else if s.bus.current.None? then L.Busy(h.value.req, |s.caches|, Author(|s.caches|, s.bus.reply), s.bus.shared)
    else if s.bus.current.value.msg == DATA then
      L.Busy(h.value.req, |s.caches|, Author(|s.caches|, s.bus.current), s.bus.shared)
    else L.Busy(h.value.req, k, Author(|s.caches|, s.bus.reply), s.bus.shared)
  }

  function Column(s: Sys, a: Addr): seq<LineState> {
    seq(|s.caches|, i requires 0 <= i < |s.caches| => StateOf(s.caches[i], a))
  }

  ghost predicate LinesOk(p: Protocol, s: Sys, k: nat) {
    forall a :: L.LineInv(p, Column(s, a), TxnAt(s, k, a))
  }

  // ---------------------------------------------------------------- tokens

  /** The number of queued requests of cache i. */
  function Queued(ps: seq<Mreq>, i: nat): nat {
    if ps == [] then 0 else (if ps[0].src == i then 1 else 0) + Queued(ps[1..], i)
  }

  function One(b: bool): nat { if b then 1 else 0 }

  /** In how many places processor i's outstanding request sits. */
  function Places(s: Sys, k: nat, i: nat): nat
    requires i < |s.caches| == |s.procs|
  {
    One(s.caches[i].request.Some?) + Queued(s.bus.pending, i)
    + One(Holder(s, k).Some? && Holder(s, k).value.req == i)
    + One(s.procs[i].inbound.Some?) + One(s.procs[i].buffer.Some?)
  }

  /** Conservation of requests: an outstanding request sits in exactly one place. */
  ghost predicate TokensOk(s: Sys, k: nat)
    requires |s.caches| == |s.procs|
  {
    forall i :: 0 <= i < |s.procs| ==> Places(s, k, i) == One(s.procs[i].outstanding)
  }

  predicate Matches(msg: Msg, st: LineState) {
    (msg == GETM && WantsM(st)) || (msg == GETS && WantsS(st))
  }

  /** Queued messages are GETs that a line is waiting for. */
  ghost predicate QueueOk(s: Sys) {
    forall q :: q in s.bus.pending ==>
      q.src < |s.caches| && q.dest.None? && Matches(q.msg, StateOf(s.caches[q.src], q.addr))
  }

  /** Cache i has asked for line a and has not been answered. */
  ghost predicate HasGet(s: Sys, k: nat, i: nat, a: Addr) {
    Holder(s, k) == Some(Want(a, i)) || exists q :: q in s.bus.pending && q.src == i && q.addr == a
  }

  ghost predicate TransientOk(s: Sys, k: nat) {
    forall i, a :: 0 <= i < |s.caches| && Transient(StateOf(s.caches[i], a)) ==> HasGet(s, k, i, a)
  }

  // ---------------------------------------------------------------- bus and memory

  /** Between the bus's tick and the memory controller's. */
  ghost predicate BusShape(cfg: Config, s: Sys) {
    match s.bus.current
    case None =>
      && s.bus.reply.None?
      && (if s.bus.inProgress then s.mem.busy && s.mem.target < cfg.nodes
          && s.clock <= s.mem.time < s.clock + cfg.hitTime
          else !s.mem.busy)
    case Some(q) =>
      if q.msg == DATA then
        !s.bus.inProgress && s.bus.reply.None? && q.dest.Some? && q.dest.value < cfg.nodes && q.src <= cfg.nodes
      else
        && s.bus.inProgress && !s.mem.busy && q.src < cfg.nodes && q.src < |s.caches|
        && (s.bus.reply.Some? ==>
              exists j :: 0 <= j < cfg.nodes && s.bus.reply == Some(Mreq(DATA, q.addr, j, Some(q.src))))
  }

  /** And the requester's line waits for the answer to the GET on the bus. */
  ghost predicate BusMid(cfg: Config, s: Sys) {
    && BusShape(cfg, s)
    && (s.bus.current.Some? && s.bus.current.value.msg != DATA ==>
          Matches(s.bus.current.value.msg, StateOf(s.caches[s.bus.current.value.src], s.bus.current.value.addr)))
  }

  /** Between cycles. */
  ghost predicate BusEnd(cfg: Config, s: Sys) {
    if s.bus.inProgress then
      && s.mem.target < cfg.nodes
      && (s.bus.current.Some? ==>
            s.bus.current.value.msg != DATA && s.bus.current.value.addr == s.mem.addr
              && s.bus.current.value.src == s.mem.target)
      && (s.bus.reply.None? ==> s.mem.busy && s.clock <= s.mem.time < s.clock + cfg.hitTime)
      && (s.bus.reply.Some? ==>
            exists j :: 0 <= j <= cfg.nodes && (j == cfg.nodes ==> !s.mem.busy)
                     && s.bus.reply == Some(Mreq(DATA, s.mem.addr, j, Some(s.mem.target))))
    else
      && s.bus.reply.None? && !s.mem.busy
      && (s.bus.current.Some? ==>
            s.bus.current.value.msg == DATA && s.bus.current.value.dest.Some?
            && s.bus.current.value.dest.value < cfg.nodes)
  }

  /** Every miss is a queued GET, the unanswered GET on the bus, or has been answered once. */
  ghost predicate MissesOk(s: Sys) {
    s.stats.misses == s.stats.transfers + s.stats.replies + |s.bus.pending| + One(s.bus.inProgress && s.bus.reply.None?)
  }

  ghost predicate Core(cfg: Config, s: Sys, k: nat) {
    && WellSized(cfg, s) && !s.failed
    && LinesOk(cfg.protocol, s, k)
    && TokensOk(s, k) && QueueOk(s) && TransientOk(s, k)
    && MissesOk(s)
  }

  /** An OM line of MOESI is about to snoop another cache's GETS. */
  ghost predicate OmDanger(p: Protocol, s: Sys, k: nat) {
    && p == MOESI && s.bus.current.Some? && s.bus.current.value.msg == GETS
    && exists i :: k <= i < |s.caches| && WillBeOm(s.caches[i], s.bus.current.value.addr)
  }

  /** The line is OM, or is O with a store to it waiting to be handled. */
  predicate WillBeOm(c: Cache, a: Addr) {
    StateOf(c, a) == OM || (StateOf(c, a) == O && c.request == Some(Store(a)))
  }

  ghost predicate MidInv(cfg: Config, s: Sys, k: nat) {
    Core(cfg, s, k) && BusMid(cfg, s) && !OmDanger(cfg.protocol, s, k)
  }

  /** No answer is left in the back buffer between cycles. */
  ghost predicate BuffersEmpty(s: Sys) {
    forall i :: 0 <= i < |s.procs| ==> s.procs[i].buffer.None?
  }

  ghost predicate EndInv(cfg: Config, s: Sys) {
    Core(cfg, s, cfg.nodes) && BusEnd(cfg, s) && BuffersEmpty(s)
  }

  // ---------------------------------------------------------------- counting lemmas

  lemma {:induction false} QueuedAppend(ps: seq<Mreq>, q: Mreq, i: nat)
    ensures Queued(ps + [q], i) == Queued(ps, i) + One(q.src == i)
  {
    if ps == [] {
      assert ps + [q] == [q];
    } else {
      assert (ps + [q])[1..] == ps[1..] + [q];
      QueuedAppend(ps[1..], q, i);
    }
  }

  lemma {:induction false} QueuedNone(ps: seq<Mreq>, i: nat)
    ensures Queued(ps, i) == 0 <==> forall q :: q in ps ==> q.src != i
  {
    if ps != [] {
      QueuedNone(ps[1..], i);
      assert ps == [ps[0]] + ps[1..];
    }
  }

  /** A cache whose request is nowhere on the bus has no transient line. */
  lemma NoGetNoTransient(s: Sys, k: nat, i: nat, a: Addr)
    requires |s.caches| == |s.procs| && i < |s.procs|
    requires TransientOk(s, k)
    requires Queued(s.bus.pending, i) == 0 && !(Holder(s, k).Some? && Holder(s, k).value.req == i)
    ensures !Transient(StateOf(s.caches[i], a))
  {
    QueuedNone(s.bus.pending, i);
    assert !HasGet(s, k, i, a);
  }
}
