/** Under MSI and MESI a modified line that answers a load leaves no owner behind. If memory
    does not copy the DATA it sees, the load of a third cache reads what memory held before the
    store. */
module StaleExample {
  import opened Messages
  import opened Machine
  import opened Shadow
  import opened ThreeCaches
  import opened IdleNodes
  import Coherence
  import Cycles
  import MoesiExample
  import SmallMachines
  import V = LineValues

  // The points after the store, in order.

  function LoadGranted(p: Protocol, h: nat): Sys {
    Sys(Bus(Some(Get(GETS, 1)), [Get(GETS, 2)], Some(Data(0, 1)), true, true),
        [Holds(S), Holds(Wanting(p)), Holds(Wanting(p))],
        [Finished(), Waits([]), Waits([])], Mem(true, 4 + h + h, 0, 1), 5 + h, Stats(3, 3, 0, 1, 1), false)
  }

  function LoadDone(p: Protocol, h: nat): Sys {
    Sys(Bus(Some(Data(0, 1)), [Get(GETS, 2)], None, false, true),
        [Holds(S), Holds(S), Holds(Wanting(p))],
        [Finished(), Served([]), Waits([])], Mem(false, 4 + h + h, 0, 1), 6 + h, Stats(3, 3, 0, 1, 1), false)
  }

  function NextGranted(p: Protocol, h: nat): Sys {
    Sys(Bus(Some(Get(GETS, 2)), [], None, true, true),
        [Holds(S), Holds(S), Holds(Wanting(p))],
        [Finished(), Finished(), Waits([])], Mem(true, 6 + h + h, 0, 2), 7 + h, Stats(3, 3, 0, 1, 1), false)
  }

  function OldReplied(p: Protocol, h: nat): Sys {
    Sys(Bus(None, [], Some(Data(3, 2)), true, true),
        [Holds(S), Holds(S), Holds(Wanting(p))],
        [Finished(), Finished(), Waits([])], Mem(false, 6 + h + h, 0, 2), 7 + h + h, Stats(3, 3, 0, 1, 2), false)
  }

  function LoadedValues(): Values {
    Values([map[0 := 1], map[0 := 1], map[]], 1, map[], [None, None, Some(Load(0))],
           [Stored(0, 0, 1), Loaded(1, 0, 1)])
  }

  lemma LoadTurns(p: Protocol, h: nat)
    requires p == MSI || p == MESI
    ensures var x := LoadGranted(p, h);
            Turns(p, Grant(StoreDone(p, h, [])))
              == Ports(Left(x, S, None), Left(x, Wanting(p), None), Left(x, Wanting(p), None))
  {
    hide TickPort;
    Overwritten();
    var x, g := LoadGranted(p, h), Grant(StoreDone(p, h, []));
    OnlySnoops(p, 0, OwnPort(g, 0, g.bus, g.stats));
    OnlySnoops(p, 1, OwnPort(g, 1, x.bus, x.stats));
    OnlySnoops(p, 2, OwnPort(g, 2, x.bus, x.stats));
  }

  lemma LoadCycle(p: Protocol, h: nat)
    requires (p == MSI || p == MESI) && h >= 1
    ensures Next(Three(p, h), Point(StoreDone(p, h, []), StoredValues()))
            == Point(LoadGranted(p, h), StoredValues().(wire := 1))
  {
    hide Cycle, ShadowCycle, Next, Turns;
    LoadTurns(p, h);
    PointOfThree(p, h, StoreDone(p, h, []), StoredValues());
  }

  lemma AnswerTurns(p: Protocol, h: nat)
    requires p == MSI || p == MESI
    ensures var x := LoadDone(p, h);
            Turns(p, Grant(LoadGranted(p, h)))
              == Ports(Left(x, S, None), Left(x, S, Some(0)), Left(x, Wanting(p), None))
  {
    Overwritten();
  }

  lemma AnswerCycle(p: Protocol, h: nat)
    requires (p == MSI || p == MESI) && h >= 1
    ensures Next(Three(p, h), Point(LoadGranted(p, h), StoredValues().(wire := 1)))
            == Point(LoadDone(p, h), LoadedValues())
  {
    hide Cycle, ShadowCycle, Next, Turns;
    AnswerTurns(p, h);
    PointOfThree(p, h, LoadGranted(p, h), StoredValues().(wire := 1));
  }

  lemma NextLoadTurns(p: Protocol, h: nat)
    requires p == MSI || p == MESI
    ensures var x := NextGranted(p, h);
            Turns(p, Grant(LoadDone(p, h))) == Ports(Left(x, S, None), Left(x, S, None), Left(x, Wanting(p), None))
  {
    Overwritten();
  }

  lemma NextLoadCycle(p: Protocol, h: nat)
    requires (p == MSI || p == MESI) && h >= 1
    ensures Next(Three(p, h), Point(LoadDone(p, h), LoadedValues())) == Point(NextGranted(p, h), LoadedValues())
  {
    hide Cycle, ShadowCycle, Next, Turns;
    NextLoadTurns(p, h);
    PointOfThree(p, h, LoadDone(p, h), LoadedValues());
  }

  lemma OldCycle(p: Protocol, h: nat)
    requires (p == MSI || p == MESI) && h >= 1
    ensures Next(Three(p, h), Point(OldReplied(p, h), LoadedValues().(wire := 0))).v.log
            == [Stored(0, 0, 1), Loaded(1, 0, 1), Loaded(2, 0, 0)]
  {
    hide Cycle, ShadowCycle, Next;
    Overwritten();
    PointOfThree(p, h, OldReplied(p, h), LoadedValues().(wire := 0));
  }

  lemma FirstLoadDone(p: Protocol, h: nat)
    requires (p == MSI || p == MESI) && h >= 1
    ensures Run(Three(p, h), Traces([]), 7 + h) == Point(NextGranted(p, h), LoadedValues())
  {
    hide Next, Run, LoadGranted, LoadDone, NextGranted, LoadedValues;
    var cfg, traces := Three(p, h), Traces([]);
    ReachesM(p, h, []);
    LoadCycle(p, h);
    RunNext(cfg, traces, 4 + h);
    AnswerCycle(p, h);
    RunNext(cfg, traces, 5 + h);
    NextLoadCycle(p, h);
    RunNext(cfg, traces, 6 + h);
  }

  lemma LastLoadIsOld(p: Protocol, h: nat)
    requires (p == MSI || p == MESI) && h >= 1
    ensures !ReadsLastWrite(ShadowAfter(Three(p, h), false, Initial(Traces([])), ShadowInitial(3), 8 + h + h).log)
  {
    hide Next, Run, ReadsLastWrite, After, ShadowAfter, LastStored;
    var cfg, traces := Three(p, h), Traces([]);
    FirstLoadDone(p, h);
    MemoryAnswers(cfg, traces, 7 + h, NextGranted(p, h), LoadedValues());
    OldCycle(p, h);
    RunNext(cfg, traces, 7 + h + h);
    StaleLog(Run(cfg, traces, 8 + h + h).v.log);
    RunIs(cfg, traces, 8 + h + h);
  }

  lemma RunIs(cfg: Config, traces: seq<seq<Op>>, m: nat)
    requires |traces| == cfg.nodes
    ensures Run(cfg, traces, m).v == ShadowAfter(cfg, false, Initial(traces), ShadowInitial(cfg.nodes), m)
  {
  }

  lemma StaleLog(log: seq<Event>)
    requires log == [Stored(0, 0, 1), Loaded(1, 0, 1), Loaded(2, 0, 0)]
    ensures !ReadsLastWrite(log)
  {
    assert log[..2] == [Stored(0, 0, 1), Loaded(1, 0, 1)];
    assert log[..2][..1] == [Stored(0, 0, 1)];
    assert LastStored(log[..2], 0) == 1;
    assert log[2].Loaded? && log[2].value == 0;
  }

  /** The last load of the three processors, among n, returns version 0 although version 1 was
      stored before it. */
  lemma StaleLoad(p: Protocol, h: nat, n: nat)
    requires (p == MSI || p == MESI) && h >= 1 && n >= 3
    ensures !ReadsLastWrite(ShadowAfter(Config(p, n, h), false, Initial(Padded(Traces([]), n)), ShadowInitial(n),
                                        8 + h + h).log)
  {
    hide After, ShadowAfter, ReadsLastWrite, Extends;
    LastLoadIsOld(p, h);
    RunExtends(Three(p, h), false, Traces([]), n, 8 + h + h);
  }

  /** For each protocol, number of caches, memory delay and kind of memory: all loads of all
      runs return the last version stored exactly if there are at most two caches, or the
      protocol is not MOESI as written and memory copies the DATA it sees or the protocol
      hands a modified line from owner to owner. */
  lemma CoherenceExact(p: Protocol, copies: bool, n: nat, h: nat)
    requires h >= 1
    ensures (forall traces: seq<seq<Op>>, m: nat :: |traces| == n ==>
               ReadsLastWrite(ShadowAfter(Config(p, n, h), copies, Initial(traces), ShadowInitial(n), m).log))
            <==> n <= 2 || (p != MOESI && (copies || V.KeepsOwner(p)))
  {
    hide ShadowAfter, ReadsLastWrite, Cycles.Danger, After;
    var cfg := Config(p, n, h);
    if n <= 2 || (p != MOESI && (copies || V.KeepsOwner(p))) {
      forall traces: seq<seq<Op>>, m: nat | |traces| == n
        ensures ReadsLastWrite(ShadowAfter(cfg, copies, Initial(traces), ShadowInitial(n), m).log)
      {
        if n <= 2 {
          SmallMachines.AlwaysSafe(cfg, traces, m);
        } else {
          Cycles.AlwaysSafe(cfg, Initial(traces), m);
        }
        Coherence.SequentiallyConsistent(cfg, copies, traces, m);
      }
    } else if p == MOESI {
      var m := MoesiExample.MoesiReadsOld(copies, h, n);
    } else {
      StaleLoad(p, h, n);
    }
  }
}
