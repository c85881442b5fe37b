/** With one or two caches no run of MOESI meets its hazard: an O or OM line has shared its
    copy with the only other cache, which therefore has nothing to load. */
module SmallMachines {
  import opened Messages
  import opened Machine
  import opened Invariant
  import Cycles
  import MoesiHazard
  import L = LineMachine

  lemma NoDanger(cfg: Config, s: Sys)
    requires EndInv(cfg, s) && cfg.nodes <= 2
    ensures !Cycles.Danger(cfg, s)
  {
    if Cycles.Danger(cfg, s) {
      hide LinesOk, TokensOk, TransientOk, MissesOk, L.LineInv;
      var q := s.bus.pending[0];
      assert q in s.bus.pending;
      MoesiHazard.RequesterIsIse(cfg, s, q);
      var j :| 0 <= j < cfg.nodes && WillBeOm(s.caches[j], q.addr);
      Shared(cfg, s, j, q.src, q.addr);
    }
  }

  lemma Shared(cfg: Config, s: Sys, j: nat, i: nat, a: Addr)
    requires EndInv(cfg, s) && cfg.protocol == MOESI && cfg.nodes <= 2 && !s.bus.inProgress
    requires i < cfg.nodes && j < cfg.nodes && i != j && L.Sharing(StateOf(s.caches[j], a))
    ensures StateOf(s.caches[i], a) == S || StateOf(s.caches[i], a) == SM
  {
    hide TokensOk, QueueOk, TransientOk, MissesOk, L.SingleWriter;
    var col := Column(s, a);
    assert L.LineInv(MOESI, col, TxnAt(s, cfg.nodes, a));
    assert L.Sharing(col[j]);
    assert L.HasSharer(col, j);
  }

  lemma {:induction false} AlwaysSafe(cfg: Config, traces: seq<seq<Op>>, m: nat)
    requires cfg.hitTime >= 1 && |traces| == cfg.nodes <= 2
    ensures Cycles.Safe(cfg, Initial(traces), m)
  {
    hide EndInv, Cycles.Danger, After;
    if m > 0 {
      AlwaysSafe(cfg, traces, m - 1);
      Cycles.ReachableOk(cfg, traces, m - 1);
      NoDanger(cfg, After(cfg, Initial(traces), m - 1));
    }
  }
}
