/** A run of MOESI in which an OM line does snoop another cache's GETS: processor 0 stores twice
    to a line that processors 1 and 2 load. Any number of other processors may stand by. */
module MoesiExample {
  import opened Messages
  import opened Machine
  import opened Invariant
  import opened Shadow
  import opened ThreeCaches
  import opened IdleNodes
  import Cycles
  import Safety
  import SmallMachines
  import MoesiHazard
  import MoesiCoherence

  function TwoStores(): seq<seq<Op>> { Traces([Store(0)]) }

  // The states after the first store, in order.

  function LoadGranted(h: nat): Sys {
    Sys(Bus(Some(Get(GETS, 1)), [Get(GETS, 2)], Some(Data(0, 1)), true, true),
        [Cache(Some(Store(0)), map[0 := O]), Holds(ISE), Holds(ISE)],
        [Waits([]), Waits([]), Waits([])], Mem(true, 4 + h + h, 0, 1), 5 + h, Stats(3, 3, 0, 1, 1), false)
  }

  function LoadDone(h: nat): Sys {
    Sys(Bus(Some(Data(0, 1)), [Get(GETS, 2), Get(GETM, 0)], None, false, true),
        [Holds(OM), Holds(S), Holds(ISE)],
        [Waits([]), Served([]), Waits([])], Mem(false, 4 + h + h, 0, 1), 6 + h, Stats(4, 4, 0, 1, 1), false)
  }

  lemma LoadTurns(h: nat)
    requires h >= 1
    ensures var x := LoadGranted(h);
            Turns(MOESI, Grant(StoreDone(MOESI, h, [Store(0)])))
              == Ports(Left(x, O, None), Left(x, ISE, None), Left(x, ISE, None))
  {
    hide TickPort;
    Overwritten();
    var x, g := LoadGranted(h), Grant(StoreDone(MOESI, h, [Store(0)]));
    OnlySnoops(MOESI, 0, OwnPort(g, 0, g.bus, g.stats));
    OnlySnoops(MOESI, 1, OwnPort(g, 1, x.bus, x.stats));
    OnlySnoops(MOESI, 2, OwnPort(g, 2, x.bus, x.stats));
  }

  lemma LoadCycle(h: nat)
    requires h >= 1
    ensures Cycle(Three(MOESI, h), StoreDone(MOESI, h, [Store(0)])) == LoadGranted(h)
  {
    hide Cycle, Turns;
    LoadTurns(h);
    assert [Store(0)][1..] == [];
    CycleOfThree(MOESI, h, StoreDone(MOESI, h, [Store(0)]));
  }

  lemma AnswerTurns(h: nat)
    requires h >= 1
    ensures var x := LoadDone(h);
            Turns(MOESI, Grant(LoadGranted(h))) == Ports(Left(x, OM, None), Left(x, S, Some(0)), Left(x, ISE, None))
  {
    Overwritten();
  }

  lemma AnswerCycle(h: nat)
    requires h >= 1
    ensures Cycle(Three(MOESI, h), LoadGranted(h)) == LoadDone(h)
  {
    hide Cycle, Turns;
    AnswerTurns(h);
    CycleOfThree(MOESI, h, LoadGranted(h));
  }

  /** In the next cycle the OM line of cache 0 snoops the GETS of cache 2. */
  lemma InDanger(h: nat)
    requires h >= 1
    ensures Cycles.Danger(Three(MOESI, h), After(Three(MOESI, h), Initial(TwoStores()), 6 + h))
  {
    hide Cycle;
    var cfg := Three(MOESI, h);
    ReachesM(MOESI, h, [Store(0)]);
    LoadCycle(h);
    AnswerCycle(h);
    assert After(cfg, Initial(TwoStores()), 5 + h) == LoadGranted(h);
    var s := After(cfg, Initial(TwoStores()), 6 + h);
    assert s == LoadDone(h);
    assert WillBeOm(Grant(s).caches[0], 0);
  }

  /** The same processors among n. */
  function Crowd(n: nat): seq<seq<Op>>
    requires n >= 3
  {
    Padded(TwoStores(), n)
  }

  lemma DangerExtends(cfg: Config, s: Sys, x: Sys)
    requires Extends(s, x) && Cycles.Danger(cfg, s)
    ensures Cycles.Danger(Wider(cfg, |x.caches|), x)
  {
    hide Asleep;
    GrantExtends(s, x);
    var g, y := Grant(s), Grant(x);
    var i :| 0 <= i < |g.caches| && WillBeOm(g.caches[i], g.bus.current.value.addr);
    assert WillBeOm(y.caches[i], y.bus.current.value.addr);
  }

  lemma InDangerAmong(h: nat, n: nat)
    requires h >= 1 && n >= 3
    ensures Cycles.Danger(Config(MOESI, n, h), After(Config(MOESI, n, h), Initial(Crowd(n)), 6 + h))
  {
    hide After, ShadowAfter, Extends, ExtendsValues, Cycles.Danger;
    InDanger(h);
    RunExtends(Three(MOESI, h), false, TwoStores(), n, 6 + h);
    DangerExtends(Three(MOESI, h), After(Three(MOESI, h), Initial(TwoStores()), 6 + h),
                  After(Config(MOESI, n, h), Initial(Crowd(n)), 6 + h));
  }

  /** MOESI does not always keep a single writer among three or more caches, whatever the
      memory's delay. */
  lemma MoesiBreaks(h: nat, n: nat) returns (m: nat, a: Addr)
    requires h >= 1 && n >= 3
    ensures !Safety.SingleWriterAt(MOESI, After(Config(MOESI, n, h), Initial(Crowd(n)), m), a)
  {
    hide After, Cycles.Danger, Safety.SingleWriterAt;
    InDangerAmong(h, n);
    MoesiHazard.MoesiExactCondition(Config(MOESI, n, h), Crowd(n));
    m, a :| !Safety.SingleWriterAt(MOESI, After(Config(MOESI, n, h), Initial(Crowd(n)), m), a);
  }

  /** And a load of the same run returns an old version, even if memory copies DATA. */
  lemma MoesiReadsOld(copies: bool, h: nat, n: nat) returns (m: nat)
    requires h >= 1 && n >= 3
    ensures !ReadsLastWrite(ShadowAfter(Config(MOESI, n, h), copies, Initial(Crowd(n)), ShadowInitial(n), m).log)
  {
    hide After, ShadowAfter, Cycles.Danger, ReadsLastWrite;
    InDangerAmong(h, n);
    MoesiCoherence.CoherentExactly(Config(MOESI, n, h), copies, Crowd(n));
    m :| !ReadsLastWrite(ShadowAfter(Config(MOESI, n, h), copies, Initial(Crowd(n)), ShadowInitial(n), m).log);
  }

  /** For each protocol, number of caches and memory delay: all runs keep a single writer
      exactly if the protocol is not MOESI as written, or there are at most two caches. */
  lemma SingleWriterExact(p: Protocol, n: nat, h: nat)
    requires h >= 1
    ensures (forall traces: seq<seq<Op>>, m: nat, a: Addr :: |traces| == n ==>
               Safety.SingleWriterAt(p, After(Config(p, n, h), Initial(traces), m), a))
            <==> p != MOESI || n <= 2
  {
    hide After, Cycles.Danger, Safety.SingleWriterAt;
    if p != MOESI || n <= 2 {
      forall traces: seq<seq<Op>>, m: nat, a: Addr | |traces| == n
        ensures Safety.SingleWriterAt(p, After(Config(p, n, h), Initial(traces), m), a)
      {
        if n <= 2 {
          SmallMachines.AlwaysSafe(Config(p, n, h), traces, m);
        }
        Safety.SingleWriter(Config(p, n, h), traces, m, a);
      }
    } else {
      var m, a := MoesiBreaks(h, n);
    }
  }
}
