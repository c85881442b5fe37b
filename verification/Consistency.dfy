/** Sequential consistency: the log of answered requests interleaves the processors' traces
    in program order, and every load returns the version of the last store before it. */
module Consistency {
  import opened Messages
  import opened Reactions
  import opened Protocols
  import opened Machine
  import opened Invariant
  import opened Shadow
  import Steps
  import L = LineMachine
  import V = LineValues

  function Versions(v: Values, a: Addr): seq<nat> {
    seq(|v.copies|, i requires 0 <= i < |v.copies| => ValueOf(v.copies[i], a))
  }

  /** Memory's version of line a once it has seen the message on the bus. */
  function MemorySees(copies: bool, s: Sys, v: Values, a: Addr): nat {
    if copies && s.bus.current.Some? && s.bus.current.value.msg == DATA && s.bus.current.value.addr == a
    then v.wire else ValueOf(v.memory, a)
  }

  ghost predicate LineOk(p: Protocol, copies: bool, s: Sys, v: Values, k: nat, a: Addr) {
    V.ValuesOk(p, copies, Column(s, a), TxnAt(s, k, a), Versions(v, a), v.wire, MemorySees(copies, s, v, a),
               LastStored(v.log, a))
  }

  ghost predicate ValuesInv(p: Protocol, copies: bool, s: Sys, v: Values, k: nat) {
    forall a :: LineOk(p, copies, s, v, k, a)
  }

  /** A line in this state waits for this request; MI asks for M on loads as well. */
  predicate AsksWith(p: Protocol, st: LineState, op: Op) {
    (WantsS(st) ==> op.Load?) && (p != MI && WantsM(st) ==> op.Store?)
  }

  /** `ops` names exactly the requests that are waiting, and transient lines wait for them. */
  ghost predicate OpsInv(p: Protocol, s: Sys, v: Values, k: nat)
    requires Fits(s, v)
  {
    && (forall i :: 0 <= i < |s.caches| ==>
          One(v.ops[i].Some?) == One(s.caches[i].request.Some?) + Queued(s.bus.pending, i)
                                 + One(Holder(s, k).Some? && Holder(s, k).value.req == i))
    && (forall i :: 0 <= i < |s.caches| && s.caches[i].request.Some? ==> v.ops[i] == s.caches[i].request)
    && (forall i, a :: 0 <= i < |s.caches| && Transient(StateOf(s.caches[i], a)) ==>
          v.ops[i].Some? && v.ops[i].value.addr == a && AsksWith(p, StateOf(s.caches[i], a), v.ops[i].value))
  }

  ghost predicate LogInv(log: seq<Event>) {
    ReadsLastWrite(log) && FreshVersions(log)
  }

  function Waiting(o: Option<Op>): seq<Op> {
    if o.Some? then [o.value] else []
  }

  /** Answered, waiting and unread requests make up the trace, in this order. */
  ghost predicate TraceInv(s: Sys, v: Values, traces: seq<seq<Op>>)
    requires Fits(s, v)
  {
    && |traces| == |s.procs|
    && (forall i :: 0 <= i < |s.procs| ==> Completed(v.log, i) + Waiting(v.ops[i]) + s.procs[i].trace == traces[i])
    && (forall i :: 0 <= i < |s.procs| && s.procs[i].ended ==> s.procs[i].trace == [])
  }

  ghost predicate ShadowInv(cfg: Config, copies: bool, s: Sys, v: Values, k: nat, traces: seq<seq<Op>>) {
    && Fits(s, v)
    && ValuesInv(cfg.protocol, copies, s, v, k)
    && OpsInv(cfg.protocol, s, v, k)
    && LogInv(v.log)
    && TraceInv(s, v, traces)
  }

  // ---------------------------------------------------------------- the log

  lemma LastStoredAppend(log: seq<Event>, e: Event, a: Addr)
    ensures LastStored(log + [e], a) == if e.Stored? && e.addr == a then e.value else LastStored(log, a)
  {
    assert (log + [e])[..|log|] == log;
  }

  lemma CompletedAppend(log: seq<Event>, e: Event, i: nat)
    ensures Completed(log + [e], i) ==
            if e.proc != i then Completed(log, i)
            else Completed(log, i) + [if e.Stored? then Store(e.addr) else Load(e.addr)]
  {
    assert (log + [e])[..|log|] == log;
  }

  lemma LogAppend(log: seq<Event>, e: Event)
    requires LogInv(log)
    requires e.Loaded? ==> e.value == LastStored(log, e.addr)
    requires e.Stored? ==> e.value == |log| + 1
    ensures LogInv(log + [e])
  {
    var l := log + [e];
    assert l[..|log|] == log;
    assert forall x :: 0 <= x < |log| ==> l[..x] == log[..x] && l[x] == log[x];
  }

  /** Answering a request moves it from waiting to answered. */
  lemma CommitCompletes(v: Values, k: nat, op: Op, i: nat)
    requires k < |v.copies| == |v.ops| && i < |v.ops| && v.ops[k] == Some(op)
    ensures var v' := Commit(v, k, op);
            Completed(v'.log, i) + Waiting(v'.ops[i]) == Completed(v.log, i) + Waiting(v.ops[i])
  {
    hide Completed;
    var v' := Commit(v, k, op);
    var e := v'.log[|v.log|];
    assert v'.log == v.log + [e];
    CompletedAppend(v.log, e, i);
    if i == k {
      var done := Completed(v.log, i);
      assert (done + [op]) + [] == done + [op];
    }
  }

  lemma CommitKeepsTrace(s: Sys, v: Values, s': Sys, k: nat, op: Op, traces: seq<seq<Op>>)
    requires Fits(s, v) && k < |s.caches| && v.ops[k] == Some(op)
    requires TraceInv(s, v, traces)
    requires |s'.caches| == |s'.procs| == |s.procs|
    requires forall i :: 0 <= i < |s.procs| ==>
               s'.procs[i].trace == s.procs[i].trace && s'.procs[i].ended == s.procs[i].ended
    ensures TraceInv(s', Commit(v, k, op), traces)
  {
    hide Completed, Waiting;
    var v' := Commit(v, k, op);
    forall i | 0 <= i < |s'.procs|
      ensures Completed(v'.log, i) + Waiting(v'.ops[i]) + s'.procs[i].trace == traces[i]
    {
      CommitCompletes(v, k, op, i);
    }
  }

  // ---------------------------------------------------------------- serving the processor

  lemma OnlyLoadsAskShared(p: Protocol, st: LineState, store: bool)
    requires Legal(p, st) && !Transient(st)
    ensures WantsS(OnProcessor(p, st, store).next) ==> !store
    ensures p != MI && WantsM(OnProcessor(p, st, store).next) ==> store
  {
  }

  /** What serving a request does to line a of the machine. */
  lemma ServedLine(cfg: Config, s: Sys, k: nat, a: Addr)
    requires MidInv(cfg, s, k) && k < cfg.nodes && s.caches[k].request.Some?
    ensures var p, s', op := cfg.protocol, ServeCache(cfg.protocol, s, k), s.caches[k].request.value;
            var r := OnProcessor(p, StateOf(s.caches[k], op.addr), op.Store?);
            var t := TxnAt(s, k, a);
            && k < |s.caches| == |Column(s, a)| && s'.bus.current == s.bus.current
            && Column(s', a) == (if a == op.addr then Column(s, a)[k := r.next] else Column(s, a))
            && TxnAt(s', k, a) == (if t.Busy? then t.(shared := t.shared || r.raise) else t)
            && (t.Busy? ==> t.seen <= k || t.seen == |Column(s, a)|)
    ensures L.LineInv(cfg.protocol, Column(s, a), TxnAt(s, k, a))
    ensures Column(s, a)[k] == StateOf(s.caches[k], a) && !Transient(Column(s, a)[k])
            && Legal(cfg.protocol, Column(s, a)[k])
  {
    hide TokensOk, QueueOk, TransientOk, MissesOk, BusMid, OmDanger, OnProcessor, L.LineInv;
    Steps.ServeFacts(cfg, s, k);
    Steps.ColumnUpdate(s, ServeCache(cfg.protocol, s, k), k, a);
    assert L.LineInv(cfg.protocol, Column(s, a), TxnAt(s, k, a));
  }

  /** And to its versions. */
  lemma ServedValues(p: Protocol, s: Sys, v: Values, k: nat, a: Addr)
    requires Fits(s, v) && k < |s.caches| && s.caches[k].request.Some?
    ensures var v', op := ShadowServe(p, s, v, k), s.caches[k].request.value;
            var r := OnProcessor(p, StateOf(s.caches[k], op.addr), op.Store?);
            var stores := r.answer == Hit && op == Store(a);
            && v'.wire == v.wire && v'.memory == v.memory
            && Versions(v', a) == (if stores then Versions(v, a)[k := |v.log| + 1] else Versions(v, a))
            && LastStored(v'.log, a) == if stores then |v.log| + 1 else LastStored(v.log, a)
  {
    hide OnProcessor;
    var v', op := ShadowServe(p, s, v, k), s.caches[k].request.value;
    if OnProcessor(p, StateOf(s.caches[k], op.addr), op.Store?).answer == Hit {
      LastStoredAppend(v.log, v'.log[|v.log|], a);
      assert v'.log == v.log + [v'.log[|v.log|]];
    }
  }

  lemma ServeOther(cfg: Config, copies: bool, s: Sys, v: Values, k: nat, a: Addr)
    requires MidInv(cfg, s, k) && k < cfg.nodes && s.caches[k].request.Some?
    requires a != s.caches[k].request.value.addr
    requires Fits(s, v) && LineOk(cfg.protocol, copies, s, v, k, a)
    ensures LineOk(cfg.protocol, copies, ServeCache(cfg.protocol, s, k), ShadowServe(cfg.protocol, s, v, k), k, a)
  {
    hide MidInv, ServeCache, ShadowServe, OnProcessor, V.ValuesOk, L.LineInv, TxnAt, Column, Versions, LastStored;
    ServedLine(cfg, s, k, a);
    ServedValues(cfg.protocol, s, v, k, a);
    var op := s.caches[k].request.value;
    var r := OnProcessor(cfg.protocol, StateOf(s.caches[k], op.addr), op.Store?);
    V.RaiseKeepsValues(cfg.protocol, copies, Column(s, a), TxnAt(s, k, a), Versions(v, a), v.wire,
                       MemorySees(copies, s, v, a),
                       LastStored(v.log, a), r.raise);
  }

  lemma ServeValue(cfg: Config, copies: bool, s: Sys, v: Values, k: nat)
    requires MidInv(cfg, s, k) && k < cfg.nodes && s.caches[k].request.Some?
    requires Fits(s, v) && LineOk(cfg.protocol, copies, s, v, k, s.caches[k].request.value.addr)
    ensures LineOk(cfg.protocol, copies, ServeCache(cfg.protocol, s, k), ShadowServe(cfg.protocol, s, v, k), k,
                   s.caches[k].request.value.addr)
  {
    hide MidInv, ServeCache, ShadowServe, OnProcessor, V.ValuesOk, L.LineInv, TxnAt, Column, Versions, LastStored;
    Steps.MidFacts(cfg, s, k);
    var op := s.caches[k].request.value;
    var a := op.addr;
    ServedLine(cfg, s, k, a);
    ServedValues(cfg.protocol, s, v, k, a);
    var r := OnProcessor(cfg.protocol, StateOf(s.caches[k], a), op.Store?);
    V.MissKeepsOwner(cfg.protocol, StateOf(s.caches[k], a), op.Store?);
    if r.answer == Hit && op.Store? {
      V.StoreHitKeepsValues(cfg.protocol, copies, Column(s, a), TxnAt(s, k, a), Versions(v, a), v.wire,
                            MemorySees(copies, s, v, a),
                            LastStored(v.log, a), k, |v.log| + 1);
    } else {
      V.MissKeepsValues(cfg.protocol, copies, Column(s, a), TxnAt(s, k, a), Versions(v, a), v.wire,
                        MemorySees(copies, s, v, a),
                        LastStored(v.log, a), k, op.Store?);
    }
  }

  lemma ServeLog(cfg: Config, copies: bool, s: Sys, v: Values, k: nat)
    requires MidInv(cfg, s, k) && k < cfg.nodes && s.caches[k].request.Some?
    requires Fits(s, v) && ValuesInv(cfg.protocol, copies, s, v, k) && LogInv(v.log)
    ensures LogInv(ShadowServe(cfg.protocol, s, v, k).log)
  {
    hide TokensOk, QueueOk, TransientOk, MissesOk, BusMid, OmDanger, LogInv;
    Steps.ServeFacts(cfg, s, k);
    var p := cfg.protocol;
    var v' := ShadowServe(p, s, v, k);
    var op := s.caches[k].request.value;
    var st := StateOf(s.caches[k], op.addr);
    if OnProcessor(p, st, op.Store?).answer == Hit {
      V.MissKeepsOwner(p, st, op.Store?);
      assert LineOk(p, copies, s, v, k, op.addr);
      assert Column(s, op.addr)[k] == st;
      assert Versions(v, op.addr)[k] == LastStored(v.log, op.addr);
      LogAppend(v.log, v'.log[|v.log|]);
    }
  }

  lemma ServeQueues(p: Protocol, s: Sys, k: nat, i: nat)
    requires k < |s.caches| == |s.procs| && i < |s.caches| && s.caches[k].request.Some? && !s.failed
    requires Queued(s.bus.pending, k) == 0 && s.procs[k].buffer.None?
    requires var op := s.caches[k].request.value;
             OnProcessor(p, StateOf(s.caches[k], op.addr), op.Store?).answer != Abort
    ensures var s', op := ServeCache(p, s, k), s.caches[k].request.value;
            var hit := OnProcessor(p, StateOf(s.caches[k], op.addr), op.Store?).answer == Hit;
            && |s'.caches| == |s'.procs| == |s.caches|
            && s'.caches[i].request == (if i == k then None else s.caches[i].request)
            && Queued(s'.bus.pending, i) == Queued(s.bus.pending, i) + One(i == k && !hit)
            && s'.bus.current == s.bus.current && s'.bus.inProgress == s.bus.inProgress && s'.mem == s.mem
  {
    hide OnProcessor;
    var op := s.caches[k].request.value;
    QueuedAppend(s.bus.pending, Mreq(GETS, op.addr, k, None), i);
    QueuedAppend(s.bus.pending, Mreq(GETM, op.addr, k, None), i);
  }

  lemma ServeOps(cfg: Config, s: Sys, v: Values, k: nat)
    requires MidInv(cfg, s, k) && k < cfg.nodes && s.caches[k].request.Some?
    requires Fits(s, v) && OpsInv(cfg.protocol, s, v, k)
    ensures var s', v' := ServeCache(cfg.protocol, s, k), ShadowServe(cfg.protocol, s, v, k);
            Fits(s', v') && OpsInv(cfg.protocol, s', v', k)
  {
    hide MidInv, ServeCache, OnProcessor;
    Steps.MidFacts(cfg, s, k);
    Steps.ServeFacts(cfg, s, k);
    var s' := ServeCache(cfg.protocol, s, k);
    var v' := ShadowServe(cfg.protocol, s, v, k);
    ServeQueues(cfg.protocol, s, k, k);
    forall i | 0 <= i < |s.caches|
      ensures One(v'.ops[i].Some?) == One(s'.caches[i].request.Some?) + Queued(s'.bus.pending, i)
                                      + One(Holder(s', k).Some? && Holder(s', k).value.req == i)
      ensures s'.caches[i].request.Some? ==> v'.ops[i] == s'.caches[i].request
    {
      ServeQueues(cfg.protocol, s, k, i);
    }
    forall i, a | 0 <= i < |s'.caches| && Transient(StateOf(s'.caches[i], a))
      ensures v'.ops[i].Some? && v'.ops[i].value.addr == a
              && AsksWith(cfg.protocol, StateOf(s'.caches[i], a), v'.ops[i].value)
    {
      ServeStates(cfg, s, k, i, a);
    }
  }

  lemma ServeStates(cfg: Config, s: Sys, k: nat, i: nat, a: Addr)
    requires MidInv(cfg, s, k) && k < cfg.nodes && s.caches[k].request.Some? && i < |s.caches|
    ensures var s', op := ServeCache(cfg.protocol, s, k), s.caches[k].request.value;
            var r := OnProcessor(cfg.protocol, StateOf(s.caches[k], op.addr), op.Store?);
            && i < |s'.caches|
            && (i != k ==> s'.caches[i] == s.caches[i])
            && (i == k && Transient(StateOf(s'.caches[k], a)) ==>
                  a == op.addr && r.answer != Hit && AsksWith(cfg.protocol, StateOf(s'.caches[k], a), op))
  {
    hide LinesOk, TokensOk, QueueOk, TransientOk, MissesOk, BusMid, OmDanger, OnProcessor;
    Steps.ServeFacts(cfg, s, k);
    var op := s.caches[k].request.value;
    Steps.AskedForMatches(cfg.protocol, StateOf(s.caches[k], op.addr), op.Store?);
    OnlyLoadsAskShared(cfg.protocol, StateOf(s.caches[k], op.addr), op.Store?);
    var s' := ServeCache(cfg.protocol, s, k);
    assert StateOf(s'.caches[k], a) ==
           if a == op.addr then OnProcessor(cfg.protocol, StateOf(s.caches[k], op.addr), op.Store?).next
             else StateOf(s.caches[k], a);
  }

  lemma ServeTrace(cfg: Config, s: Sys, v: Values, k: nat, traces: seq<seq<Op>>)
    requires MidInv(cfg, s, k) && k < cfg.nodes && s.caches[k].request.Some?
    requires Fits(s, v) && OpsInv(cfg.protocol, s, v, k) && TraceInv(s, v, traces)
    ensures TraceInv(ServeCache(cfg.protocol, s, k), ShadowServe(cfg.protocol, s, v, k), traces)
  {
    hide LinesOk, TokensOk, QueueOk, TransientOk, MissesOk, BusMid, OmDanger, OnProcessor;
    var s' := ServeCache(cfg.protocol, s, k);
    var op := s.caches[k].request.value;
    if OnProcessor(cfg.protocol, StateOf(s.caches[k], op.addr), op.Store?).answer == Hit {
      CommitKeepsTrace(s, v, s', k, op, traces);
    }
  }

  lemma ServeKeepsShadow(cfg: Config, copies: bool, s: Sys, v: Values, k: nat, traces: seq<seq<Op>>)
    requires MidInv(cfg, s, k) && k < cfg.nodes
    requires ShadowInv(cfg, copies, s, v, k, traces)
    ensures ShadowInv(cfg, copies, ServeCache(cfg.protocol, s, k), ShadowServe(cfg.protocol, s, v, k), k, traces)
  {
    if s.caches[k].request.Some? {
      forall a ensures LineOk(cfg.protocol, copies, ServeCache(cfg.protocol, s, k),
                              ShadowServe(cfg.protocol, s, v, k), k, a) {
        assert LineOk(cfg.protocol, copies, s, v, k, a);
        if a != s.caches[k].request.value.addr {
          ServeOther(cfg, copies, s, v, k, a);
        } else {
          ServeValue(cfg, copies, s, v, k);
        }
      }
      ServeLog(cfg, copies, s, v, k);
      ServeOps(cfg, s, v, k);
      ServeTrace(cfg, s, v, k, traces);
    } else {
      Steps.IdleServe(cfg.protocol, s, k);
    }
  }

  // ---------------------------------------------------------------- snooping a GET

  lemma GetOther(cfg: Config, copies: bool, s: Sys, v: Values, k: nat, a: Addr)
    requires MidInv(cfg, s, k) && k < cfg.nodes && Steps.SnoopsGet(s) && s.caches[k].request.None?
    requires a != s.bus.current.value.addr
    requires Fits(s, v) && LineOk(cfg.protocol, copies, s, v, k, a)
    ensures LineOk(cfg.protocol, copies, ReactCache(cfg.protocol, s, k), ShadowReact(cfg.protocol, s, v, k), k + 1, a)
  {
    hide LinesOk, TokensOk, QueueOk, TransientOk, MissesOk, OnSnoop, V.ValuesOk;
    Steps.GetFacts(cfg, s, k);
    var s' := ReactCache(cfg.protocol, s, k);
    var q := s.bus.current.value;
    Steps.ColumnUpdate(s, s', k, a);
    assert Column(s', a) == Column(s, a);
    V.QuietIgnoresWire(cfg.protocol, copies, Column(s, a), Versions(v, a), v.wire, ValueOf(v.copies[k], q.addr),
                       MemorySees(copies, s, v, a), LastStored(v.log, a));
  }

  lemma GetValue(cfg: Config, copies: bool, s: Sys, v: Values, k: nat, a: Addr)
    requires MidInv(cfg, s, k) && k < cfg.nodes && Steps.SnoopsGet(s) && s.caches[k].request.None?
    requires V.Trusts(cfg.protocol, copies, cfg.nodes)
    requires Fits(s, v) && LineOk(cfg.protocol, copies, s, v, k, a)
    ensures LineOk(cfg.protocol, copies, ReactCache(cfg.protocol, s, k), ShadowReact(cfg.protocol, s, v, k), k + 1, a)
  {
    hide TokensOk, QueueOk, TransientOk, MissesOk, OmDanger, OnSnoop, L.LineInv, V.ValuesOk, LastStored, Commit;
    var p := cfg.protocol;
    var q := s.bus.current.value;
    if a != q.addr {
      GetOther(cfg, copies, s, v, k, a);
    } else {
      Steps.GetFacts(cfg, s, k);
      var s' := ReactCache(p, s, k);
      var t := TxnAt(s, k, a);
      var col := Column(s, a);
      assert L.LineInv(p, col, t);
      Steps.ColumnUpdate(s, s', k, a);
      assert col[q.src] == StateOf(s.caches[q.src], a);
      Steps.NoOmHazard(cfg, s, k);
      V.SnoopKeepsValues(p, copies, col, t, Versions(v, a), v.wire, MemorySees(copies, s, v, a),
                         LastStored(v.log, a), q.msg);
    }
  }

  lemma GetOps(cfg: Config, s: Sys, v: Values, k: nat)
    requires MidInv(cfg, s, k) && k < cfg.nodes && Steps.SnoopsGet(s) && s.caches[k].request.None?
    requires Fits(s, v) && OpsInv(cfg.protocol, s, v, k)
    ensures OpsInv(cfg.protocol, ReactCache(cfg.protocol, s, k), v, k + 1)
  {
    hide LinesOk, TokensOk, QueueOk, TransientOk, MissesOk, OmDanger, OnSnoop;
    Steps.GetFacts(cfg, s, k);
    var s' := ReactCache(cfg.protocol, s, k);
    assert Holder(s', k + 1) == Holder(s, k);
    forall i, a | 0 <= i < |s'.caches| && Transient(StateOf(s'.caches[i], a))
      ensures v.ops[i].Some? && v.ops[i].value.addr == a
              && AsksWith(cfg.protocol, StateOf(s'.caches[i], a), v.ops[i].value)
    {
      Steps.GetStates(cfg, s, k, i, a);
    }
  }

  // ---------------------------------------------------------------- receiving DATA

  /** What DATA does to line a of the machine. */
  lemma DataLine(cfg: Config, s: Sys, k: nat, a: Addr)
    requires MidInv(cfg, s, k) && k < cfg.nodes && Steps.SnoopsOwnData(s, k)
    ensures var s', q := ReactCache(cfg.protocol, s, k), s.bus.current.value;
            var t := TxnAt(s, k, a);
            var r := OnSnoop(cfg.protocol, StateOf(s.caches[k], q.addr), DATA, q.src == k, s.bus.shared);
            var next := k + 1;
            && s'.bus.current == s.bus.current && k < |s.caches| == |Column(s, a)|
            && (a != q.addr ==> Column(s', a) == Column(s, a) && TxnAt(s', next, a) == t)
            && (a == q.addr ==>
                  && Column(s', a) == Column(s, a)[k := r.next] && TxnAt(s', next, a) == L.Quiet
                  && t.Busy? && t.req == k && t.seen == |Column(s, a)| && t.reply != L.NoReply
                     && t.shared == s.bus.shared
                  && L.LineInv(cfg.protocol, Column(s, a), t) && Column(s, a)[k] == StateOf(s.caches[k], a))
  {
    hide TokensOk, QueueOk, TransientOk, MissesOk, OnSnoop, L.LineInv;
    Steps.DataFacts(cfg, s, k);
    Steps.ColumnUpdate(s, ReactCache(cfg.protocol, s, k), k, a);
    assert L.LineInv(cfg.protocol, Column(s, a), TxnAt(s, k, a));
    if a != s.bus.current.value.addr {
      assert Column(ReactCache(cfg.protocol, s, k), a) == Column(s, a);
    }
  }

  /** DATA answers the request the processor is waiting for. */
  lemma DataCommits(cfg: Config, s: Sys, v: Values, k: nat)
    requires MidInv(cfg, s, k) && k < cfg.nodes && Steps.SnoopsOwnData(s, k)
    requires Fits(s, v) && OpsInv(cfg.protocol, s, v, k)
    ensures var q := s.bus.current.value;
            && k < |v.ops| && v.ops[k].Some? && v.ops[k].value.addr == q.addr
            && (v.ops[k].value.Store? ==> WantsM(StateOf(s.caches[k], q.addr)))
            && (cfg.protocol != MI && WantsM(StateOf(s.caches[k], q.addr)) ==> v.ops[k].value.Store?)
            && ShadowReact(cfg.protocol, s, v, k)
               == Commit(v.(copies := v.copies[k := With(v.copies[k], q.addr, v.wire)]), k, v.ops[k].value)
  {
    hide LinesOk, TokensOk, QueueOk, TransientOk, MissesOk, OmDanger, OnSnoop;
    Steps.DataFacts(cfg, s, k);
  }

  lemma CommittedValues(v: Values, k: nat, op: Op, a: Addr)
    requires k < |v.copies| == |v.ops|
    ensures var x := Commit(v.(copies := v.copies[k := With(v.copies[k], op.addr, v.wire)]), k, op);
            var stores := op == Store(a);
            && x.wire == v.wire && x.memory == v.memory
            && Versions(x, a) == (if a != op.addr then Versions(v, a)
                                  else Versions(v, a)[k := if stores then |v.log| + 1 else v.wire])
            && LastStored(x.log, a) == if stores then |v.log| + 1 else LastStored(v.log, a)
  {
    var x := Commit(v.(copies := v.copies[k := With(v.copies[k], op.addr, v.wire)]), k, op);
    LastStoredAppend(v.log, x.log[|v.log|], a);
    assert x.log == v.log + [x.log[|v.log|]];
  }

  lemma DataValue(cfg: Config, copies: bool, s: Sys, v: Values, k: nat, a: Addr)
    requires MidInv(cfg, s, k) && k < cfg.nodes && Steps.SnoopsOwnData(s, k)
    requires Fits(s, v) && LineOk(cfg.protocol, copies, s, v, k, a) && OpsInv(cfg.protocol, s, v, k)
    ensures LineOk(cfg.protocol, copies, ReactCache(cfg.protocol, s, k), ShadowReact(cfg.protocol, s, v, k), k + 1, a)
  {
    hide MidInv, ReactCache, ShadowReact, OnSnoop, L.LineInv, V.ValuesOk, Column, TxnAt, Versions, LastStored,
         Commit, OpsInv;
    DataLine(cfg, s, k, a);
    DataCommits(cfg, s, v, k);
    var q := s.bus.current.value;
    CommittedValues(v, k, v.ops[k].value, a);
    if a == q.addr {
      V.FillKeepsValues(cfg.protocol, copies, Column(s, a), TxnAt(s, k, a), Versions(v, a), v.wire,
                        MemorySees(copies, s, v, a),
                        LastStored(v.log, a), q.src == k, v.ops[k].value.Store?, |v.log| + 1);
    }
  }

  lemma DataLog(cfg: Config, copies: bool, s: Sys, v: Values, k: nat)
    requires MidInv(cfg, s, k) && k < cfg.nodes && Steps.SnoopsOwnData(s, k)
    requires Fits(s, v) && ValuesInv(cfg.protocol, copies, s, v, k) && OpsInv(cfg.protocol, s, v, k) && LogInv(v.log)
    ensures LogInv(ShadowReact(cfg.protocol, s, v, k).log)
  {
    hide TokensOk, QueueOk, TransientOk, MissesOk, OnSnoop, LogInv;
    Steps.DataFacts(cfg, s, k);
    var v' := ShadowReact(cfg.protocol, s, v, k);
    var q := s.bus.current.value;
    assert v.ops[k].value.addr == q.addr;
    assert LineOk(cfg.protocol, copies, s, v, k, q.addr);
    LogAppend(v.log, v'.log[|v.log|]);
  }

  lemma DataOps(cfg: Config, s: Sys, v: Values, k: nat)
    requires MidInv(cfg, s, k) && k < cfg.nodes && Steps.SnoopsOwnData(s, k) && s.caches[k].request.None?
    requires Fits(s, v) && OpsInv(cfg.protocol, s, v, k)
    ensures var s', v' := ReactCache(cfg.protocol, s, k), ShadowReact(cfg.protocol, s, v, k);
            Fits(s', v') && OpsInv(cfg.protocol, s', v', k + 1)
  {
    hide LinesOk, TokensOk, QueueOk, TransientOk, MissesOk, OmDanger, OnSnoop;
    Steps.DataFacts(cfg, s, k);
    Steps.DataQueue(cfg, s, k);
    var s' := ReactCache(cfg.protocol, s, k);
    var v' := ShadowReact(cfg.protocol, s, v, k);
    forall a ensures !Transient(StateOf(s'.caches[k], a)) {
      NoGetNoTransient(s', k + 1, k, a);
    }
    assert forall i, a :: 0 <= i < |s.caches| && i != k ==> StateOf(s'.caches[i], a) == StateOf(s.caches[i], a);
  }

  lemma DataTrace(cfg: Config, s: Sys, v: Values, k: nat, traces: seq<seq<Op>>)
    requires MidInv(cfg, s, k) && k < cfg.nodes && Steps.SnoopsOwnData(s, k) && s.caches[k].request.None?
    requires Fits(s, v) && OpsInv(cfg.protocol, s, v, k) && TraceInv(s, v, traces)
    ensures TraceInv(ReactCache(cfg.protocol, s, k), ShadowReact(cfg.protocol, s, v, k), traces)
  {
    hide LinesOk, TokensOk, QueueOk, TransientOk, MissesOk, OmDanger, OnSnoop;
    Steps.DataFacts(cfg, s, k);
    var s' := ReactCache(cfg.protocol, s, k);
    var q := s.bus.current.value;
    var w := v.(copies := v.copies[k := With(v.copies[k], q.addr, v.wire)]);
    CommitKeepsTrace(s, w, s', k, v.ops[k].value, traces);
  }

  // ---------------------------------------------------------------- a cache's tick

  /** Snooping a GET answers nobody: at most the wire changes. */
  lemma GetMovesWire(cfg: Config, s: Sys, v: Values, k: nat)
    requires MidInv(cfg, s, k) && k < cfg.nodes && Steps.SnoopsGet(s) && Fits(s, v)
    ensures var s', v' := ReactCache(cfg.protocol, s, k), ShadowReact(cfg.protocol, s, v, k);
            && v' == v.(wire := v'.wire) && |s'.caches| == |s'.procs| == |s.procs|
            && forall i :: 0 <= i < |s.procs| ==>
                 s'.procs[i].trace == s.procs[i].trace && s'.procs[i].ended == s.procs[i].ended
  {
    hide LinesOk, TokensOk, QueueOk, TransientOk, MissesOk, OmDanger, OnSnoop;
    Steps.GetFacts(cfg, s, k);
  }

  lemma GetKeepsShadow(cfg: Config, copies: bool, s: Sys, v: Values, k: nat, traces: seq<seq<Op>>)
    requires MidInv(cfg, s, k) && k < cfg.nodes && Steps.SnoopsGet(s) && s.caches[k].request.None?
    requires V.Trusts(cfg.protocol, copies, cfg.nodes)
    requires ShadowInv(cfg, copies, s, v, k, traces)
    ensures ShadowInv(cfg, copies, ReactCache(cfg.protocol, s, k), ShadowReact(cfg.protocol, s, v, k), k + 1, traces)
  {
    hide MidInv, LineOk, LogInv, ReactCache, ShadowReact;
    Steps.MidFacts(cfg, s, k);
    var s' := ReactCache(cfg.protocol, s, k);
    var v' := ShadowReact(cfg.protocol, s, v, k);
    var next := k + 1;
    forall a ensures LineOk(cfg.protocol, copies, s', v', next, a) {
      assert LineOk(cfg.protocol, copies, s, v, k, a);
      GetValue(cfg, copies, s, v, k, a);
    }
    GetMovesWire(cfg, s, v, k);
    GetOps(cfg, s, v, k);
  }

  lemma DataKeepsShadow(cfg: Config, copies: bool, s: Sys, v: Values, k: nat, traces: seq<seq<Op>>)
    requires MidInv(cfg, s, k) && k < cfg.nodes && Steps.SnoopsOwnData(s, k) && s.caches[k].request.None?
    requires ShadowInv(cfg, copies, s, v, k, traces)
    ensures ShadowInv(cfg, copies, ReactCache(cfg.protocol, s, k), ShadowReact(cfg.protocol, s, v, k), k + 1, traces)
  {
    hide MidInv, LineOk, LogInv, OpsInv, TraceInv, ReactCache, ShadowReact;
    Steps.MidFacts(cfg, s, k);
    var s' := ReactCache(cfg.protocol, s, k);
    var v' := ShadowReact(cfg.protocol, s, v, k);
    var next := k + 1;
    forall a ensures LineOk(cfg.protocol, copies, s', v', next, a) {
      assert LineOk(cfg.protocol, copies, s, v, k, a);
      DataValue(cfg, copies, s, v, k, a);
    }
    DataLog(cfg, copies, s, v, k);
    DataOps(cfg, s, v, k);
    DataTrace(cfg, s, v, k, traces);
  }

  lemma IdleKeepsShadow(cfg: Config, copies: bool, s: Sys, v: Values, k: nat, traces: seq<seq<Op>>)
    requires MidInv(cfg, s, k) && k < cfg.nodes && !Steps.SnoopsGet(s) && !Steps.SnoopsOwnData(s, k)
    requires ShadowInv(cfg, copies, s, v, k, traces)
    ensures ShadowInv(cfg, copies, ReactCache(cfg.protocol, s, k), ShadowReact(cfg.protocol, s, v, k), k + 1, traces)
  {
    hide MidInv, LogInv, V.ValuesOk, ReactCache;
    Steps.MidFacts(cfg, s, k);
    Steps.IdleReact(cfg, s, k);
    assert ShadowReact(cfg.protocol, s, v, k) == v;
    assert Holder(s, k + 1) == Holder(s, k);
    var next := k + 1;
    forall a ensures LineOk(cfg.protocol, copies, s, v, next, a) {
      assert LineOk(cfg.protocol, copies, s, v, k, a);
      assert TxnAt(s, next, a) == TxnAt(s, k, a);
    }
  }

  lemma ReactKeepsShadow(cfg: Config, copies: bool, s: Sys, v: Values, k: nat, traces: seq<seq<Op>>)
    requires MidInv(cfg, s, k) && k < cfg.nodes && s.caches[k].request.None?
    requires V.Trusts(cfg.protocol, copies, cfg.nodes)
    requires ShadowInv(cfg, copies, s, v, k, traces)
    ensures ShadowInv(cfg, copies, ReactCache(cfg.protocol, s, k), ShadowReact(cfg.protocol, s, v, k), k + 1, traces)
  {
    hide MidInv, ShadowInv, ReactCache, ShadowReact;
    if Steps.SnoopsGet(s) {
      GetKeepsShadow(cfg, copies, s, v, k, traces);
    } else if Steps.SnoopsOwnData(s, k) {
      DataKeepsShadow(cfg, copies, s, v, k, traces);
    } else {
      IdleKeepsShadow(cfg, copies, s, v, k, traces);
    }
  }
}
