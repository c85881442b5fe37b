/** A copy of a line stays in its cache, in whatever state, until a GETM for the line is on the
    bus; until then loads of it hit, and so do stores while it may be written. */
module KeptCopies {
  import opened Messages
  import opened Protocols
  import opened Machine
  import opened Rules
  import opened Synchronous
  import Liveness
  import Progress

  /** A GETM for line a is on the bus. */
  predicate TakenAway(s: Sys, a: Addr) {
    s.bus.current.Some? && s.bus.current.value.msg == GETM && s.bus.current.value.addr == a
  }

  predicate HasCopy(s: Sys, i: nat, a: Addr) {
    i < |s.caches| && Held(StateOf(s.caches[i], a))
  }

  // ---------------------------------------------------------------- MI asks for M only

  ghost predicate OnlyGetm(ps: seq<Mreq>) {
    forall q :: q in ps ==> q.msg == GETM
  }

  lemma {:induction false} NewGetm(s: Sys, k: nat)
    ensures OnlyGetm(NewGets(MI, s, k))
  {
    if k > 0 {
      NewGetm(s, k - 1);
    }
  }

  lemma {:induction false} MiQueue(cfg: Config, traces: seq<seq<Op>>, m: nat)
    requires cfg.protocol == MI && cfg.hitTime >= 1 && |traces| == cfg.nodes && !After(cfg, Initial(traces), m).failed
    ensures OnlyGetm(After(cfg, Initial(traces), m).bus.pending)
  {
    hide After, NewGets, Fatal, FollowNodes;
    if m > 0 {
      EveryRun(cfg, traces, m - 1);
      MiQueue(cfg, traces, m - 1);
      NewGetm(After(cfg, Initial(traces), m - 1), cfg.nodes);
    } else {
      NothingQueued(cfg, traces);
    }
  }

  lemma NothingQueued(cfg: Config, traces: seq<seq<Op>>)
    requires |traces| == cfg.nodes
    ensures After(cfg, Initial(traces), 0).bus.pending == []
  {
  }

  // ---------------------------------------------------------------- what takes a copy away

  lemma ServedKeeps(p: Protocol, st: LineState, op: Op)
    requires Held(st) && !WantsM(st)
    ensures Held(Served(p, st, op))
  {
  }

  lemma HeardKeeps(p: Protocol, st: LineState, msg: Msg, own: bool, shared: bool)
    requires Held(st) && !Held(Heard(p, st, msg, own, shared))
    ensures Takes(p, msg)
  {
  }

  /** The line as its cache's request leaves it. */
  lemma ServedHeld(cfg: Config, s: Sys, i: nat, a: Addr)
    requires Liveness.EndSteady(cfg, s) && i < cfg.nodes && HasCopy(s, i, a)
    ensures Held(ServedLine(cfg.protocol, s, i, a))
  {
    hide Served, Legal, Liveness.Asking;
    assert Liveness.NodeOk(cfg.protocol, s.caches[i], s.procs[i]);
    if s.caches[i].request.Some? && s.caches[i].request.value.addr == a {
      ServedKeeps(cfg.protocol, StateOf(s.caches[i], a), s.caches[i].request.value);
    }
  }

  /** Only a GETM for it takes a copy away. */
  lemma OnlyGetmTakes(cfg: Config, traces: seq<seq<Op>>, m: nat, i: nat, a: Addr)
    requires cfg.hitTime >= 1 && |traces| == cfg.nodes && !After(cfg, Initial(traces), m + 1).failed
    requires HasCopy(After(cfg, Initial(traces), m), i, a) && !HasCopy(After(cfg, Initial(traces), m + 1), i, a)
    ensures TakenAway(After(cfg, Initial(traces), m + 1), a)
  {
    hide After, NewGets, Fatal, Liveness.EndSteady, Heard, ServedLine, Held;
    var s, x := After(cfg, Initial(traces), m), After(cfg, Initial(traces), m + 1);
    EveryRun(cfg, traces, m);
    Progress.RunsStaySteady(cfg, traces, m);
    ServedHeld(cfg, s, i, a);
    assert StateOf(x.caches[i], a) == NextLine(cfg.protocol, s, i, a);
    var q := Message(s).value;
    HeardKeeps(cfg.protocol, ServedLine(cfg.protocol, s, i, a), q.msg, q.src == i,
               SharedAfter(cfg.protocol, s, i + 1, i));
    if cfg.protocol == MI {
      MiQueue(cfg, traces, m);
      MessageOfMi(cfg, s);
    }
  }

  lemma MessageOfMi(cfg: Config, s: Sys)
    requires Liveness.EndSteady(cfg, s) && OnlyGetm(s.bus.pending) && Message(s).Some?
    ensures Message(s).value.msg != GETS
  {
    if s.bus.pending != [] {
      assert s.bus.pending[0] in s.bus.pending;
    }
  }

  /** As long as no GETM for it is on the bus the copy stays. */
  lemma {:induction false} CopyStays(cfg: Config, traces: seq<seq<Op>>, m: nat, n: nat, i: nat, a: Addr)
    requires cfg.hitTime >= 1 && |traces| == cfg.nodes && m <= n && !After(cfg, Initial(traces), n).failed
    requires HasCopy(After(cfg, Initial(traces), m), i, a)
    requires forall j :: m < j <= n ==> !TakenAway(After(cfg, Initial(traces), j), a)
    ensures HasCopy(After(cfg, Initial(traces), n), i, a)
  {
    hide After, TakenAway, HasCopy, Fatal, Follows;
    if m < n {
      EveryRun(cfg, traces, n - 1);
      CopyStays(cfg, traces, m, n - 1, i, a);
      if !HasCopy(After(cfg, Initial(traces), n), i, a) {
        OnlyGetmTakes(cfg, traces, n - 1, i, a);
      }
    }
  }

  /** So a load of a line that its cache has held since cycle m is answered in one cycle,
      without a GET, if no GETM for the line has been on the bus. */
  lemma LoadHits(cfg: Config, traces: seq<seq<Op>>, m: nat, n: nat, i: nat, a: Addr)
    requires cfg.hitTime >= 1 && |traces| == cfg.nodes && m <= n && !After(cfg, Initial(traces), n + 1).failed
    requires HasCopy(After(cfg, Initial(traces), m), i, a)
    requires forall j :: m < j <= n ==> !TakenAway(After(cfg, Initial(traces), j), a)
    requires After(cfg, Initial(traces), n).caches[i].request == Some(Load(a))
    ensures var s, x := After(cfg, Initial(traces), n), After(cfg, Initial(traces), n + 1);
            && i < |x.procs| && x.procs[i].inbound == Some(a)
            && (forall q :: q in x.bus.pending && q !in s.bus.pending ==> q.src != i)
  {
    hide After, HasCopy, Fatal, Liveness.EndSteady, NewGets, NextLine;
    var s, x := After(cfg, Initial(traces), n), After(cfg, Initial(traces), n + 1);
    EveryRun(cfg, traces, n);
    CopyStays(cfg, traces, m, n, i, a);
    Progress.RunsStaySteady(cfg, traces, n);
    HeldIsReadable(cfg, s, i, a);
    assert HitsAt(s, i);
    NoGetFrom(cfg.protocol, s, cfg.nodes, i);
    if s.bus.pending != [] {
      assert s.bus.pending == [s.bus.pending[0]] + s.bus.pending[1..];
    }
  }

  lemma HeldIsReadable(cfg: Config, s: Sys, i: nat, a: Addr)
    requires Liveness.EndSteady(cfg, s) && HasCopy(s, i, a) && s.caches[i].request.Some?
    ensures i < cfg.nodes == |s.caches| && Readable(StateOf(s.caches[i], a))
  {
    hide Legal, Liveness.Asking;
    assert Liveness.NodeOk(cfg.protocol, s.caches[i], s.procs[i]);
  }

  lemma {:induction false} NoGetFrom(p: Protocol, s: Sys, k: nat, i: nat)
    requires !MissesAt(s, i)
    ensures forall q :: q in NewGets(p, s, k) ==> q.src != i
  {
    hide MissesAt;
    if k > 0 {
      NoGetFrom(p, s, k - 1, i);
    }
  }
}
