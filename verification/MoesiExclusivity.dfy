/** What a MOESI load fills to, exactly. The line is exclusive if nobody held it when its GETS
    was granted and nobody raised the shared line since, which a load that hits in S does for
    whatever line. */
module MoesiExclusivity {
  import opened Messages
  import opened Protocols
  import opened Machine
  import opened Invariant
  import opened Rules
  import opened Synchronous
  import opened Waiting
  import opened KeptCopies
  import Cycles
  import Liveness
  import Progress
  import Transactions
  import L = LineMachine

  /** Cache i is about to answer a load of some line that it has in S. */
  predicate LoadsShared(s: Sys, i: nat) {
    && i < |s.caches| && s.caches[i].request.Some? && s.caches[i].request.value.Load?
    && StateOf(s.caches[i], s.caches[i].request.value.addr) == S
  }

  lemma LoadsSharedSignals(s: Sys, i: nat)
    ensures LoadSignalsAt(MOESI, s, i) == LoadsShared(s, i)
  {
  }

  // ---------------------------------------------------------------- who raises the line at the grant

  lemma HeldSignals(cfg: Config, s: Sys, i: nat, a: Addr)
    requires EndInv(cfg, s) && Liveness.EndSteady(cfg, s) && cfg.protocol == MOESI
    requires Grants(s) && s.bus.pending[0] == Mreq(GETS, a, s.bus.pending[0].src, s.bus.pending[0].dest)
    requires i != s.bus.pending[0].src && HasCopy(s, i, a)
    ensures exists j {:trigger SignalsAt(MOESI, s, j)} :: 0 <= j < cfg.nodes && SignalsAt(MOESI, s, j)
  {
    hide TokensOk, QueueOk, TransientOk, MissesOk, L.SingleWriter, Served, Liveness.EndSteady;
    var col := Column(s, a);
    assert L.LineInv(MOESI, col, TxnAt(s, cfg.nodes, a));
    assert col[i] == StateOf(s.caches[i], a);
    var j := i;
    if L.Sharing(col[i]) {
      assert L.HasSharer(col, i);
      j :| 0 <= j < |col| && j != i && (col[j] == S || col[j] == SM);
    }
    assert col[j] == StateOf(s.caches[j], a);
    CopySignals(cfg, s, j, a);
  }

  lemma CopySignals(cfg: Config, s: Sys, j: nat, a: Addr)
    requires Liveness.EndSteady(cfg, s) && cfg.protocol == MOESI && Grants(s) && j < cfg.nodes
    requires s.bus.pending[0].msg == GETS && s.bus.pending[0].addr == a
    requires HasCopy(s, j, a) && !L.Sharing(StateOf(s.caches[j], a))
    ensures SignalsAt(MOESI, s, j)
  {
    hide Legal, Liveness.Asking;
    assert Liveness.NodeOk(MOESI, s.caches[j], s.procs[j]);
  }

  lemma SignalHolds(cfg: Config, s: Sys, j: nat)
    requires Liveness.EndSteady(cfg, s) && cfg.protocol == MOESI && Grants(s) && j < cfg.nodes
    requires SignalsAt(MOESI, s, j)
    ensures HasCopy(s, j, s.bus.pending[0].addr)
  {
    hide Legal, Liveness.Asking;
    assert Liveness.NodeOk(MOESI, s.caches[j], s.procs[j]);
  }

  // ---------------------------------------------------------------- the shared line until the DATA

  /** A cache has loaded from S in one of the cycles m, ..., t-1. */
  ghost predicate LoadedShared(cfg: Config, traces: seq<seq<Op>>, m: nat, t: nat)
    requires |traces| == cfg.nodes
  {
    exists u: nat, i: nat {:trigger LoadsShared(After(cfg, Initial(traces), u), i)} ::
      m <= u < t && LoadsShared(After(cfg, Initial(traces), u), i)
  }

  ghost predicate OthersHold(s: Sys, r: nat, a: Addr) {
    exists i: nat :: i != r && HasCopy(s, i, a)
  }

  lemma SomeLoads(s: Sys, k: nat)
    ensures SomeLoadSignals(MOESI, s, k) <==> exists i: nat :: i < k && LoadsShared(s, i)
  {
    hide LoadsShared, LoadSignalsAt;
    forall i: nat ensures LoadSignalsAt(MOESI, s, i) == LoadsShared(s, i) {
      LoadsSharedSignals(s, i);
    }
  }

  lemma GrantSignals(cfg: Config, s: Sys)
    requires EndInv(cfg, s) && Liveness.EndSteady(cfg, s) && cfg.protocol == MOESI
    requires KindOf(s) == Serving && s.bus.pending[0].msg == GETS
    ensures var q := s.bus.pending[0];
            SomeSignals(MOESI, s, cfg.nodes) <==> OthersHold(s, q.src, q.addr)
  {
    hide EndInv, Liveness.EndSteady, HasCopy, SignalsAt;
    var q := s.bus.pending[0];
    RequesterHoldsNothing(cfg, s);
    if SomeSignals(MOESI, s, cfg.nodes) {
      var j: nat :| j < cfg.nodes && SignalsAt(MOESI, s, j);
      SignalHolds(cfg, s, j);
    }
    if OthersHold(s, q.src, q.addr) {
      var i: nat :| i != q.src && HasCopy(s, i, q.addr);
      HeldSignals(cfg, s, i, q.addr);
    }
  }

  lemma RequesterHoldsNothing(cfg: Config, s: Sys)
    requires EndInv(cfg, s) && cfg.protocol == MOESI && s.bus.pending != [] && s.bus.pending[0].msg == GETS
    ensures var q := s.bus.pending[0]; q.src < cfg.nodes && !HasCopy(s, q.src, q.addr)
  {
    assert s.bus.pending[0] in s.bus.pending;
  }

  /** In the cycle of the grant, and in a cycle without a message. */
  lemma SharedNext(cfg: Config, s: Sys, x: Sys)
    requires Follows(cfg, s, x) && cfg.protocol == MOESI
    ensures var loads := exists i: nat :: i < cfg.nodes && LoadsShared(s, i);
            && (KindOf(s) == Serving ==> x.bus.shared == (SomeSignals(MOESI, s, cfg.nodes) || loads))
            && (KindOf(s) == Wait ==> x.bus.shared == (s.bus.shared || loads))
  {
    hide LoadsShared, FollowNodes, NewGets, SomeLoadSignals;
    SomeLoads(s, cfg.nodes);
  }

  lemma LoadersAreNodes(s: Sys)
    ensures forall i: nat :: LoadsShared(s, i) ==> i < |s.caches|
  {
  }

  lemma LoadedNext(cfg: Config, traces: seq<seq<Op>>, m: nat, t: nat)
    requires |traces| == cfg.nodes && m <= t
    ensures LoadedShared(cfg, traces, m, t + 1) <==>
              LoadedShared(cfg, traces, m, t)
              || exists i: nat :: i < cfg.nodes && LoadsShared(After(cfg, Initial(traces), t), i)
  {
    hide After, LoadsShared;
    LoadersAreNodes(After(cfg, Initial(traces), t));
    if LoadedShared(cfg, traces, m, t + 1) && !LoadedShared(cfg, traces, m, t) {
      var u: nat, i: nat :| m <= u < t + 1 && LoadsShared(After(cfg, Initial(traces), u), i);
      assert u == t;
      assert i < cfg.nodes && LoadsShared(After(cfg, Initial(traces), t), i);
    }
    if i: nat :| i < cfg.nodes && LoadsShared(After(cfg, Initial(traces), t), i) {
      assert m <= t < t + 1 && LoadsShared(After(cfg, Initial(traces), t), i);
    }
  }

  lemma {:induction false} SharedDuring(cfg: Config, traces: seq<seq<Op>>, m: nat, t: nat)
    requires cfg.protocol == MOESI && cfg.hitTime >= 1 && |traces| == cfg.nodes && m < t
    requires Cycles.Safe(cfg, Initial(traces), t)
    requires KindOf(After(cfg, Initial(traces), m)) == Serving
             && After(cfg, Initial(traces), m).bus.pending[0].msg == GETS
    requires forall u :: m < u < t ==> KindOf(After(cfg, Initial(traces), u)) == Wait
    ensures var s, q := After(cfg, Initial(traces), m), After(cfg, Initial(traces), m).bus.pending[0];
            After(cfg, Initial(traces), t).bus.shared
            == (OthersHold(s, q.src, q.addr) || LoadedShared(cfg, traces, m, t))
  {
    hide After, EndInv, Liveness.EndSteady, LoadedShared, OthersHold, LoadsShared, Cycles.Danger, Follows, Fatal;
    Cycles.ReachableOk(cfg, traces, t);
    Cycles.EndFacts(cfg, After(cfg, Initial(traces), t));
    EveryRun(cfg, traces, t - 1);
    SharedNext(cfg, After(cfg, Initial(traces), t - 1), After(cfg, Initial(traces), t));
    LoadedNext(cfg, traces, m, t - 1);
    if t == m + 1 {
      Cycles.ReachableOk(cfg, traces, m);
      Cycles.EndFacts(cfg, After(cfg, Initial(traces), m));
      Progress.RunsStaySteady(cfg, traces, m);
      GrantSignals(cfg, After(cfg, Initial(traces), m));
      NoneLoaded(cfg, traces, m);
    } else {
      SharedDuring(cfg, traces, m, t - 1);
    }
  }

  lemma NoneLoaded(cfg: Config, traces: seq<seq<Op>>, m: nat)
    requires |traces| == cfg.nodes
    ensures !LoadedShared(cfg, traces, m, m)
  {
  }

  // ---------------------------------------------------------------- the fill

  lemma FillNext(cfg: Config, s: Sys, x: Sys, r: nat, a: Addr)
    requires Follows(cfg, s, x) && cfg.protocol == MOESI && KindOf(s) == Deliver
    requires s.bus.reply.value.msg == DATA && s.bus.reply.value.addr == a && s.bus.reply.value.dest == Some(r)
    requires r < cfg.nodes && StateOf(s.caches[r], a) == ISE && s.caches[r].request.None?
    ensures StateOf(x.caches[r], a) == if s.bus.shared || exists i: nat :: i < r && LoadsShared(s, i) then S else E
  {
    hide LoadsShared, FollowBus, NewGets, SomeLoadSignals;
    SomeLoads(s, r + 1);
    assert !LoadsShared(s, r) by { NoLoad(s, r); }
    assert StateOf(x.caches[r], a) == NextLine(MOESI, s, r, a);
  }

  lemma NoLoad(s: Sys, r: nat)
    requires r < |s.caches| && s.caches[r].request.None?
    ensures !LoadsShared(s, r)
  {
  }

  /** A load miss of MOESI fills to E if and only if no other cache held the line when its GETS
      was granted, no cache has loaded from S, whatever line, before the cycle of the DATA, and
      no cache that ticks before the requester does in that cycle. */
  lemma MoesiExclusivity(cfg: Config, traces: seq<seq<Op>>, m: nat) returns (w: nat)
    requires cfg.protocol == MOESI && cfg.hitTime >= 1 && |traces| == cfg.nodes
    requires Cycles.Safe(cfg, Initial(traces), m + cfg.hitTime + 2)
    requires KindOf(After(cfg, Initial(traces), m)) == Serving
    requires After(cfg, Initial(traces), m).bus.pending[0].msg == GETS
    ensures var s, q := After(cfg, Initial(traces), m), After(cfg, Initial(traces), m).bus.pending[0];
            && m < w <= m + cfg.hitTime + 1 && q.src < cfg.nodes
            && (forall t :: m < t < w ==> KindOf(After(cfg, Initial(traces), t)) == Wait)
            && KindOf(After(cfg, Initial(traces), w)) == Deliver
            && StateOf(After(cfg, Initial(traces), w + 1).caches[q.src], q.addr)
               == (if OthersHold(s, q.src, q.addr) || LoadedShared(cfg, traces, m, w)
                      || exists i: nat :: i < q.src && LoadsShared(After(cfg, Initial(traces), w), i)
                   then S else E)
  {
    hide EndInv, Liveness.EndSteady, Cycle, Cycles.Danger, Cycles.Safe, After, Holder, BusEnd, LoadedShared, OthersHold,
         LoadsShared, Follows, Fatal;
    var s := After(cfg, Initial(traces), m);
    var q := s.bus.pending[0];
    SafeUntil(cfg, traces, m, m + cfg.hitTime + 2);
    Cycles.ReachableOk(cfg, traces, m);
    Transactions.GetAnswered(cfg, s);
    CycleBus(cfg, s);
    Cycles.AfterNext(cfg, Initial(traces), m);
    w := Transactions.TransactionEnds(cfg, traces, m + 1, cfg.hitTime + 1);
    SafeUntil(cfg, traces, w, m + cfg.hitTime + 2);
    SharedDuring(cfg, traces, m, w);
    Cycles.ReachableOk(cfg, traces, w + 1);
    Cycles.EndFacts(cfg, After(cfg, Initial(traces), w + 1));
    EveryRun(cfg, traces, w);
    Cycles.ReachableOk(cfg, traces, w);
    Cycles.EndFacts(cfg, After(cfg, Initial(traces), w));
    RequesterWaits(cfg, After(cfg, Initial(traces), w));
    FillNext(cfg, After(cfg, Initial(traces), w), After(cfg, Initial(traces), w + 1), q.src, q.addr);
  }

  lemma SafeUntil(cfg: Config, traces: seq<seq<Op>>, m: nat, n: nat)
    requires |traces| == cfg.nodes && m < n && Cycles.Safe(cfg, Initial(traces), n)
    ensures Cycles.Safe(cfg, Initial(traces), m) && Cycles.Safe(cfg, Initial(traces), m + 1)
    ensures !Cycles.Danger(cfg, After(cfg, Initial(traces), m))
  {
    hide After, Cycles.Danger;
  }

  /** The DATA is for the holder of the transaction, whose processor waits. */
  lemma RequesterWaits(cfg: Config, s: Sys)
    requires EndInv(cfg, s) && KindOf(s) == Deliver && Holder(s, cfg.nodes).Some?
    ensures var h := Holder(s, cfg.nodes).value;
            && h.req < cfg.nodes && s.caches[h.req].request.None?
            && s.bus.reply.value.msg == DATA && s.bus.reply.value.addr == h.addr
               && s.bus.reply.value.dest == Some(h.req)
  {
    hide LinesOk, QueueOk, TransientOk, MissesOk;
    assert Places(s, cfg.nodes, s.mem.target) == One(s.procs[s.mem.target].outstanding);
  }
}
