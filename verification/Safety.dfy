/** What holds at the end of every cycle of every run. `Safe` concerns MOESI alone: no OM
    line has snooped another cache's GETS so far. */
module Safety {
  import opened Messages
  import opened Protocols
  import opened Machine
  import opened Invariant
  import Cycles
  import L = LineMachine

  /** No run of MI, MSI, MESI or MOSI reaches a fatal error or a failed assertion. */
  lemma NoRunFails(cfg: Config, traces: seq<seq<Op>>, m: nat)
    requires cfg.hitTime >= 1 && |traces| == cfg.nodes
    requires cfg.protocol == MOESI ==> Cycles.Safe(cfg, Initial(traces), m)
    ensures !After(cfg, Initial(traces), m).failed
  {
    hide After;
    if cfg.protocol != MOESI {
      Cycles.AlwaysSafe(cfg, Initial(traces), m);
    }
    Cycles.ReachableOk(cfg, traces, m);
  }

  /** A single writer: while a cache holds a line in M or E no other cache has a live copy,
      and no two caches own a line. */
  ghost predicate SingleWriterAt(p: Protocol, s: Sys, a: Addr) {
    forall i, j {:trigger s.caches[i], s.caches[j]} :: 0 <= i < |s.caches| && 0 <= j < |s.caches| && i != j ==>
      var si, sj := StateOf(s.caches[i], a), StateOf(s.caches[j], a);
      && !(Owner(si) && Owner(sj))
      && (Exclusive(si) ==> sj == I || sj == IM || sj == IS || sj == ISE || sj == SM)
      && (p == MOSI && si == M ==> sj == I || sj == IS || sj == IM)
  }

  lemma SingleWriter(cfg: Config, traces: seq<seq<Op>>, m: nat, a: Addr)
    requires cfg.hitTime >= 1 && |traces| == cfg.nodes
    requires cfg.protocol == MOESI ==> Cycles.Safe(cfg, Initial(traces), m)
    ensures SingleWriterAt(cfg.protocol, After(cfg, Initial(traces), m), a)
  {
    hide After, TokensOk, QueueOk, TransientOk, MissesOk, BusEnd, L.OwnedIsShared, L.Snooped;
    if cfg.protocol != MOESI {
      Cycles.AlwaysSafe(cfg, Initial(traces), m);
    }
    Cycles.ReachableOk(cfg, traces, m);
    var s := After(cfg, Initial(traces), m);
    var col := Column(s, a);
    assert L.LineInv(cfg.protocol, col, TxnAt(s, cfg.nodes, a));
    assert forall i :: 0 <= i < |s.caches| ==> col[i] == StateOf(s.caches[i], a);
  }

  lemma {:induction false} QueuedTwice(ps: seq<Mreq>, q: Mreq, r: Mreq)
    requires q in ps && r in ps && q != r && q.src == r.src
    ensures Queued(ps, q.src) >= 2
  {
    QueuedNone(ps[1..], q.src);
    assert ps == [ps[0]] + ps[1..];
    if q in ps[1..] && r in ps[1..] {
      QueuedTwice(ps[1..], q, r);
    }
  }

  lemma AtMostOneGet(cfg: Config, s: Sys, i: nat, a: Addr, b: Addr)
    requires EndInv(cfg, s) && i < cfg.nodes
    requires Transient(StateOf(s.caches[i], a)) && Transient(StateOf(s.caches[i], b))
    ensures a == b
    ensures HasGet(s, cfg.nodes, i, a)
    ensures Queued(s.bus.pending, i) + One(Holder(s, cfg.nodes).Some? && Holder(s, cfg.nodes).value.req == i) == 1
    ensures s.procs[i].outstanding && s.caches[i].request.None? && s.procs[i].inbound.None?
  {
    hide LinesOk, MissesOk, BusEnd;
    assert Places(s, cfg.nodes, i) == One(s.procs[i].outstanding);
    QueuedNone(s.bus.pending, i);
    assert HasGet(s, cfg.nodes, i, a) && HasGet(s, cfg.nodes, i, b);
    if a != b && (Holder(s, cfg.nodes).None? || Holder(s, cfg.nodes).value.req != i) {
      var q :| q in s.bus.pending && q.src == i && q.addr == a;
      var r :| r in s.bus.pending && r.src == i && r.addr == b;
      QueuedTwice(s.bus.pending, q, r);
    }
  }

  /** A cache has at most one transient line over all addresses. Its GET is the cache's only
      one and is queued or on the bus, and the processor is waiting for nothing else; the
      cache of an idle processor has none. */
  lemma OneTransientLine(cfg: Config, traces: seq<seq<Op>>, m: nat, i: nat, a: Addr, b: Addr)
    requires cfg.hitTime >= 1 && |traces| == cfg.nodes && i < cfg.nodes
    requires cfg.protocol == MOESI ==> Cycles.Safe(cfg, Initial(traces), m)
    ensures var s := After(cfg, Initial(traces), m);
            && (Transient(StateOf(s.caches[i], a)) ==>
                  && s.procs[i].outstanding && s.caches[i].request.None? && s.procs[i].inbound.None?
                  && HasGet(s, cfg.nodes, i, a)
                  && Queued(s.bus.pending, i) + One(Holder(s, cfg.nodes).Some?
                                                    && Holder(s, cfg.nodes).value.req == i) == 1)
            && (Transient(StateOf(s.caches[i], a)) && Transient(StateOf(s.caches[i], b)) ==> a == b)
  {
    hide After, EndInv;
    if cfg.protocol != MOESI {
      Cycles.AlwaysSafe(cfg, Initial(traces), m);
    }
    Cycles.ReachableOk(cfg, traces, m);
    var s := After(cfg, Initial(traces), m);
    if Transient(StateOf(s.caches[i], a)) {
      AtMostOneGet(cfg, s, i, a, a);
      if Transient(StateOf(s.caches[i], b)) {
        AtMostOneGet(cfg, s, i, a, b);
      }
    }
  }

  /** An outstanding request sits in exactly one place, and every request queued on the bus
      is what its sender's line is waiting for. */
  lemma RequestsConserved(cfg: Config, traces: seq<seq<Op>>, m: nat)
    requires cfg.hitTime >= 1 && |traces| == cfg.nodes
    requires cfg.protocol == MOESI ==> Cycles.Safe(cfg, Initial(traces), m)
    ensures var s := After(cfg, Initial(traces), m);
            && (forall i :: 0 <= i < cfg.nodes ==> Places(s, cfg.nodes, i) == One(s.procs[i].outstanding))
            && (forall q :: q in s.bus.pending ==>
                  q.src < cfg.nodes && Matches(q.msg, StateOf(s.caches[q.src], q.addr)))
  {
    hide After, LinesOk, MissesOk, BusEnd, TransientOk;
    if cfg.protocol != MOESI {
      Cycles.AlwaysSafe(cfg, Initial(traces), m);
    }
    Cycles.ReachableOk(cfg, traces, m);
  }

  /** Every miss has been answered once, by a cache or by memory, is queued, or is the
      unanswered GET on the bus; at the end of a run all have been answered. */
  lemma MissesConserved(cfg: Config, traces: seq<seq<Op>>, m: nat)
    requires cfg.hitTime >= 1 && |traces| == cfg.nodes
    requires cfg.protocol == MOESI ==> Cycles.Safe(cfg, Initial(traces), m)
    ensures var s := After(cfg, Initial(traces), m);
            && s.stats.misses == s.stats.transfers + s.stats.replies + |s.bus.pending|
               + One(s.bus.inProgress && s.bus.reply.None?)
            && (Done(s) ==> s.stats.misses == s.stats.transfers + s.stats.replies)
  {
    hide After, LinesOk, TransientOk;
    if cfg.protocol != MOESI {
      Cycles.AlwaysSafe(cfg, Initial(traces), m);
    }
    Cycles.ReachableOk(cfg, traces, m);
    var s := After(cfg, Initial(traces), m);
    if s.bus.inProgress {
      assert Places(s, cfg.nodes, s.mem.target) == One(s.procs[s.mem.target].outstanding);
    }
    if Done(s) {
      forall i | 0 <= i < cfg.nodes
        ensures Queued(s.bus.pending, i) == 0
      {
        assert Places(s, cfg.nodes, i) == One(s.procs[i].outstanding);
      }
      if s.bus.pending != [] {
        assert s.bus.pending[0] in s.bus.pending;
        QueuedNone(s.bus.pending, s.bus.pending[0].src);
      }
    }
  }
}
