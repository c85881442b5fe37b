/** The data the simulator does not carry: a shadow of the run in which every line, every DATA
    message and main memory hold a version, and every answered request is logged. The
    shadow looks at the machine and never influences it. */
module Shadow {
  import opened Messages
  import opened Reactions
  import opened Protocols
  import opened Machine

  /** A processor request at the moment its processor is answered. */
  datatype Event = Loaded(proc: nat, addr: Addr, value: nat) | Stored(proc: nat, addr: Addr, value: nat)

  /** `ops[i]` is the request processor i is waiting for. */
  datatype Values = Values(copies: seq<map<Addr, nat>>, wire: nat, memory: map<Addr, nat>,
                           ops: seq<Option<Op>>, log: seq<Event>)

  /** Version 0 is what memory holds before any store. */
  function ValueOf(m: map<Addr, nat>, a: Addr): nat {
    if a in m then m[a] else 0
  }

  function With(m: map<Addr, nat>, a: Addr, value: nat): map<Addr, nat> {
    m[a := value]
  }

  /** The version written by the last store to line a. */
  function LastStored(log: seq<Event>, a: Addr): nat {
    if log == [] then 0
    else
      var e := log[|log| - 1];
      if e.Stored? && e.addr == a then e.value else LastStored(log[..|log| - 1], a)
  }

  /** The requests of processor i that have been answered, in order. */
  function Completed(log: seq<Event>, i: nat): seq<Op> {
    if log == [] then []
    else
      var e := log[|log| - 1];
      var before := Completed(log[..|log| - 1], i);
      if e.proc != i then before
      else before + [if e.Stored? then Store(e.addr) else Load(e.addr)]
  }

  predicate Fits(s: Sys, v: Values) {
    |v.copies| == |v.ops| == |s.caches| == |s.procs|
  }

  /** Processor k is answered: a load reads the cache's version, a store writes a new one. */
  function Commit(v: Values, k: nat, op: Op): Values
    requires k < |v.copies| == |v.ops|
  {
    match op
    case Load(a) =>
      v.(ops := v.ops[k := None], log := v.log + [Loaded(k, a, ValueOf(v.copies[k], a))])
    case Store(a) =>
      v.(ops := v.ops[k := None], copies := v.copies[k := With(v.copies[k], a, |v.log| + 1)],
         log := v.log + [Stored(k, a, |v.log| + 1)])
  }

  /** Alongside ServeCache. */
  function ShadowServe(p: Protocol, s: Sys, v: Values, k: nat): (r: Values)
    requires Fits(s, v) && k < |s.caches|
    ensures |r.copies| == |r.ops| == |v.ops|
  {
    match s.caches[k].request
    case None => v
    case Some(op) =>
      if OnProcessor(p, StateOf(s.caches[k], op.addr), op.Store?).answer == Hit then Commit(v, k, op) else v
  }

  /** Cache k reacts to message q: it puts its version on the wire if it supplies the line, keeps
      the version of DATA that fills it, and its processor is answered by every fill. */
  function Carry(v: Values, k: nat, q: Mreq, r: SnoopOut): (x: Values)
    requires k < |v.copies| == |v.ops|
    ensures |x.copies| == |x.ops| == |v.ops|
  {
    var w :=
      if r.supply then v.(wire := ValueOf(v.copies[k], q.addr))
      else if r.fill && q.msg == DATA then v.(copies := v.copies[k := With(v.copies[k], q.addr, v.wire)])
      else v;
    if r.fill && v.ops[k].Some? then Commit(w, k, v.ops[k].value) else w
  }

  /** Alongside ReactCache. */
  function ShadowReact(p: Protocol, s: Sys, v: Values, k: nat): (r: Values)
    requires Fits(s, v) && k < |s.caches|
    ensures |r.copies| == |r.ops| == |v.ops|
  {
    match s.bus.current
    case None => v
    case Some(q) =>
      if q.msg == DATA && q.dest != Some(k) then v
      else Carry(v, k, q, OnSnoop(p, StateOf(s.caches[k], q.addr), q.msg, q.src == k, s.bus.shared))
  }

  function ShadowCaches(p: Protocol, s: Sys, v: Values, k: nat): (r: Values)
    requires Fits(s, v) && k <= |s.caches|
    ensures |r.copies| == |r.ops| == |v.ops|
  {
    if k == 0 then v
    else
      var s0 := TickCaches(p, s, k - 1);
      var v0 := ShadowCaches(p, s, v, k - 1);
      CachesKeepSize(p, s, k - 1);
      ShadowReact(p, ServeCache(p, s0, k - 1), ShadowServe(p, s0, v0, k - 1), k - 1)
  }

  lemma CachesKeepSize(p: Protocol, s: Sys, k: nat)
    requires k <= |s.caches| == |s.procs|
    ensures |TickCaches(p, s, k).caches| == |s.caches|
  {
  }

  /** Alongside TickProcs: processors that read their trace start waiting. */
  function ShadowProcs(s: Sys, v: Values): (r: Values)
    requires Fits(s, v)
    ensures |r.copies| == |r.ops| == |v.ops|
  {
    v.(ops := seq(|v.ops|, i requires 0 <= i < |v.ops| =>
                    if Ready(s.procs[i]) && s.procs[i].trace != [] then Some(s.procs[i].trace[0]) else v.ops[i]))
  }

  /** Alongside TickMem. `copies` says whether memory stores the DATA it sees on the bus. */
  function ShadowMem(cfg: Config, copies: bool, s: Sys, v: Values): (r: Values)
    ensures |r.copies| == |v.copies| && |r.ops| == |v.ops|
  {
    var m := Latch(cfg, s.mem, s.bus.current, s.clock);
    if m.busy && s.clock >= m.time then v.(wire := ValueOf(v.memory, m.addr))
    else if copies && s.bus.current.Some? && s.bus.current.value.msg == DATA then
      v.(memory := With(v.memory, s.bus.current.value.addr, v.wire))
    else v
  }

  /** Alongside Cycle. */
  function ShadowCycle(cfg: Config, copies: bool, s: Sys, v: Values): (r: Values)
    requires WellSized(cfg, s) && Fits(s, v)
    ensures |r.copies| == |r.ops| == |v.ops|
  {
    var s0 := Grant(s);
    var s1 := TickCaches(cfg.protocol, s0, cfg.nodes);
    var v1 := ShadowCaches(cfg.protocol, s0, v, cfg.nodes);
    ShadowMem(cfg, copies, TickProcs(s1), ShadowProcs(s1, v1))
  }

  function ShadowInitial(n: nat): (v: Values)
    ensures |v.copies| == |v.ops| == n
  {
    Values(seq(n, i => map[]), 0, map[], seq(n, i => None), [])
  }

  function ShadowAfter(cfg: Config, copies: bool, s: Sys, v: Values, m: nat): (r: Values)
    requires WellSized(cfg, s) && Fits(s, v)
    ensures |r.copies| == |r.ops| == |v.ops|
  {
    if m == 0 then v
    else ShadowCycle(cfg, copies, After(cfg, s, m - 1), ShadowAfter(cfg, copies, s, v, m - 1))
  }

  /** Every load returned the version of the last store to its line before it. */
  ghost predicate ReadsLastWrite(log: seq<Event>) {
    forall x :: 0 <= x < |log| && log[x].Loaded? ==> log[x].value == LastStored(log[..x], log[x].addr)
  }

  /** No two stores write the same version, and none writes version 0. */
  ghost predicate FreshVersions(log: seq<Event>) {
    forall x :: 0 <= x < |log| && log[x].Stored? ==> log[x].value == x + 1
  }
}
