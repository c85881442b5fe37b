/** Caches, the memory controller and the simulator's main loop. */
module Simulators {
  import opened Messages
  import opened Reactions
  import opened Protocols
  import opened Hardware
  import opened CacheLines
  import Spec = Machine
  import Invariant
  import Cycles
  import Progress
  import Liveness
  import Safety

  ghost function PortOf(c: Spec.Cache, bus: Bus, sim: Counters, pr: Processor): Spec.Port
    reads bus, sim, pr
  {
    Spec.Port(bus.View(), c, pr.buffer, sim.View(), sim.failed)
  }

  lemma OrderIsServe(p: Protocol, i: nat, x: Spec.Port, op: Op)
    requires x.cache.request == Some(op) && !x.failed
    ensures var r := OnProcessor(p, Spec.StateOf(x.cache, op.addr), op.Store?);
            var w := Spec.Order(i, op.addr, r,
                                Spec.Wires(x.bus, x.buffer, x.stats.(accesses := x.stats.accesses + 1), false));
            var y := Spec.Serve(p, i, x);
            && w.failed == y.failed
            && (!w.failed ==> y == Spec.Port(w.bus, Spec.Cache(None, x.cache.lines[op.addr := r.next]), w.buffer,
                                             w.stats, false))
  {
    hide OnProcessor, Spec.Order;
  }

  lemma ReplyIsReact(p: Protocol, i: nat, x: Spec.Port, q: Mreq)
    requires x.bus.current == Some(q) && !x.failed && (q.msg == DATA ==> q.dest == Some(i))
    ensures var r := OnSnoop(p, Spec.StateOf(x.cache, q.addr), q.msg, q.src == i, x.bus.shared);
            var w := Spec.Reply(i, q, r, Spec.Wires(x.bus, x.buffer, x.stats, false));
            var y := Spec.React(p, i, x);
            && w.failed == y.failed
            && (!w.failed ==> y == Spec.Port(w.bus, x.cache.(lines := x.cache.lines[q.addr := r.next]), w.buffer,
                                             w.stats, false))
  {
    hide OnSnoop, Spec.Reply;
  }

  class HashTable {
    const id: nat
    const protocol: Protocol
    var request: Option<Op>
    var entries: map<Addr, Line>
    ghost var lines: set<Line>

    constructor (id: nat, protocol: Protocol)
      ensures this.id == id && this.protocol == protocol && Valid()
      ensures lines == {} && View() == Spec.Cache(None, map[])
    {
      this.id, this.protocol, request, entries, lines := id, protocol, None, map[], {};
    }

    /** Every line knows its address and its cache, so no two caches share one. */
    ghost predicate Valid()
      reads this
    {
      && (forall a :: a in entries ==> entries[a] in lines && entries[a].tag == a && entries[a].protocol == protocol)
      && (forall line :: line in lines ==> line.table == id)
    }

    ghost function View(): Spec.Cache
      requires Valid()
      reads this, lines
    {
      Spec.Cache(request, map a | a in entries :: entries[a].state)
    }

    /** The line's entry, created in state I if there is none. */
    method GetEntry(a: Addr) returns (line: Line)
      requires Valid()
      modifies this`entries, this`lines
      ensures Valid() && a in entries && entries[a] == line && line.state == Spec.StateOf(old(View()), a)
      ensures View() == old(View()).(lines := old(View()).lines[a := line.state])
      ensures entries == old(entries)[a := line] && lines == old(lines) + {line} && (line in old(lines) || fresh(line))
    {
      if a !in entries {
        var created := new Line(protocol, id, a);
        entries := entries[a := created];
        lines := lines + {created};
      }
      line := entries[a];
    }

    /** The processor's request first, the message on the bus second. */
    method Tick(bus: Bus, sim: Counters, pr: Processor)
      requires Valid() && !sim.failed
      modifies this, lines, bus, sim, pr`buffer
      ensures Valid() && fresh(lines - old(lines))
      ensures var x := Spec.TickPort(protocol, id, old(PortOf(View(), bus, sim, pr)));
              && sim.failed == x.failed
              && (!x.failed ==> PortOf(View(), bus, sim, pr) == x)
    {
      hide OnProcessor, OnSnoop;
      if request.Some? {
        ServeRequest(bus, sim, pr);
        if sim.failed {
          return;
        }
      }
      var q := bus.Snoop();
      if q.Some? {
        if q.value.msg == DATA && q.value.dest != Some(id) {
          return;
        }
        SnoopMessage(q.value, bus, sim, pr);
      }
    }

    method ServeRequest(bus: Bus, sim: Counters, pr: Processor)
      requires Valid() && !sim.failed && request.Some?
      modifies this, lines, bus, sim, pr`buffer
      ensures Valid() && fresh(lines - old(lines))
      ensures var x := Spec.Serve(protocol, id, old(PortOf(View(), bus, sim, pr)));
              && sim.failed == x.failed
              && (!x.failed ==> PortOf(View(), bus, sim, pr) == x)
    {
      hide OnProcessor, Spec.Serve, Spec.Order;
      ghost var x := PortOf(View(), bus, sim, pr);
      var op := request.value;
      OrderIsServe(protocol, id, x, op);
      sim.accesses := sim.accesses + 1;
      var line := GetEntry(op.addr);
      HandleRequest(line, op, bus, sim, pr, x.cache.lines);
    }

    /** A line's handler changes no other line of the table. */
    method HandleRequest(line: Line, op: Op, bus: Bus, sim: Counters, pr: Processor, ghost before: map<Addr, LineState>)
      requires Valid() && !sim.failed && op.addr in entries && entries[op.addr] == line
      requires View().lines == before[op.addr := line.state]
      modifies this`request, line, bus, sim, pr`buffer
      ensures View() == Spec.Cache(None, before[op.addr := line.state])
      ensures var r := OnProcessor(protocol, old(line.state), op.Store?);
              var w := Spec.Order(id, op.addr, r, old(WiresOf(bus, sim, pr)));
              && sim.failed == w.failed
              && (!w.failed ==> line.state == r.next && WiresOf(bus, sim, pr) == w)
    {
      hide OnProcessor, Spec.Order;
      line.ProcessCacheRequest(op, bus, sim, pr);
      request := None;
      assert View().lines == before[op.addr := line.state];
    }

    method SnoopMessage(q: Mreq, bus: Bus, sim: Counters, pr: Processor)
      requires Valid() && !sim.failed && bus.current == Some(q) && (q.msg == DATA ==> q.dest == Some(id))
      modifies this, lines, bus, sim, pr`buffer
      ensures Valid() && fresh(lines - old(lines))
      ensures var x := Spec.React(protocol, id, old(PortOf(View(), bus, sim, pr)));
              && sim.failed == x.failed
              && (!x.failed ==> PortOf(View(), bus, sim, pr) == x)
    {
      hide OnSnoop, Spec.React, Spec.Reply;
      ghost var x := PortOf(View(), bus, sim, pr);
      ReplyIsReact(protocol, id, x, q);
      var line := GetEntry(q.addr);
      HandleSnoop(line, q, bus, sim, pr, x.cache.lines);
    }

    method HandleSnoop(line: Line, q: Mreq, bus: Bus, sim: Counters, pr: Processor, ghost before: map<Addr, LineState>)
      requires Valid() && !sim.failed && q.addr in entries && entries[q.addr] == line
      requires View().lines == before[q.addr := line.state]
      modifies line, bus, sim, pr`buffer
      ensures View() == Spec.Cache(request, before[q.addr := line.state])
      ensures var r := OnSnoop(protocol, old(line.state), q.msg, q.src == id, old(bus.shared));
              var w := Spec.Reply(id, q, r, old(WiresOf(bus, sim, pr)));
              && sim.failed == w.failed
              && (!w.failed ==> line.state == r.next && WiresOf(bus, sim, pr) == w)
    {
      hide OnSnoop, Spec.Reply;
      line.ProcessSnoopRequest(q, bus, sim, pr);
      assert View().lines == before[q.addr := line.state];
    }
  }

  class MemoryController {
    const cfg: Spec.Config
    var busy: bool
    var time: nat
    var addr: Addr
    var target: nat

    constructor (cfg: Spec.Config)
      ensures this.cfg == cfg && View() == Spec.Mem(false, 0, 0, 0)
    {
      this.cfg, busy, time, addr, target := cfg, false, 0, 0, 0;
    }

    function View(): Spec.Mem
      reads this
    {
      Spec.Mem(busy, time, addr, target)
    }

    /** A request starts an access, DATA cancels it, and an access that has taken long enough
        is answered. */
    method Tick(clock: nat, bus: Bus, sim: Counters)
      requires !sim.failed
      modifies this, bus, sim
      ensures var q := old(bus.current);
              var m := Spec.Latch(cfg, old(View()), q, clock);
              var answers := m.busy && clock >= m.time;
              && sim.failed == ((q.Some? && q.value.msg != DATA && old(busy)) || (answers && old(bus.reply).Some?))
              && (!sim.failed ==>
                    if answers then
                      && View() == m.(busy := false)
                      && bus.View() == old(bus.View()).(reply := Some(Mreq(DATA, m.addr, cfg.nodes, Some(m.target))))
                      && sim.View() == old(sim.View()).(replies := old(sim.replies) + 1)
                    else View() == m && bus.View() == old(bus.View()) && sim.View() == old(sim.View()))
    {
      var q := bus.Snoop();
      if q.Some? {
        if q.value.msg != DATA {
          if busy {
            sim.Fatal();
            return;
          }
          busy := true;
          addr := q.value.addr;
          target := q.value.src;
          time := clock + cfg.hitTime;
        } else {
          busy := false;
        }
      }
      if busy && clock >= time {
        busy := false;
        var ok := bus.Request(Mreq(DATA, addr, cfg.nodes, Some(target)));
        if !ok {
          sim.Fatal();
        } else {
          sim.replies := sim.replies + 1;
        }
      }
    }
  }

  lemma TickPortIsTickCache(p: Protocol, s: Spec.Sys, i: nat)
    requires i < |s.caches| == |s.procs| && !s.failed
    ensures var x := Spec.TickPort(p, i, Spec.PortOf(s, i));
            && Spec.TickCache(p, s, i).failed == x.failed
            && (!x.failed ==> Spec.TickCache(p, s, i) == Spec.WithPort(s, i, x))
  {
    hide OnProcessor, OnSnoop;
  }

  /** Once a step has failed the later ones leave the failure. */
  lemma {:induction false} FailureStays(p: Protocol, s: Spec.Sys, i: nat, k: nat)
    requires i <= k <= |s.caches| == |s.procs|
    requires Spec.TickCaches(p, s, i).failed
    ensures Spec.TickCaches(p, s, k).failed
  {
    hide Spec.TickCache;
    if i < k {
      FailureStays(p, s, i, k - 1);
      Progress.FailedCache(p, Spec.TickCaches(p, s, k - 1), k - 1);
    }
  }

  lemma FailedEarly(cfg: Spec.Config, s: Spec.Sys)
    requires Spec.WellSized(cfg, s) && Spec.TickCaches(cfg.protocol, Spec.Grant(s), cfg.nodes).failed
    ensures Spec.Cycle(cfg, s).failed
  {
    hide Spec.TickCaches;
  }

  lemma FailedLate(cfg: Spec.Config, s: Spec.Sys)
    requires Spec.WellSized(cfg, s)
             && Spec.TickMem(cfg, Spec.TickProcs(Spec.TickCaches(cfg.protocol, Spec.Grant(s), cfg.nodes))).failed
    ensures Spec.Cycle(cfg, s).failed
  {
    hide Spec.TickCaches, Spec.TickProcs, Spec.TickMem;
  }

  lemma NotFailed(cfg: Spec.Config, s: Spec.Sys)
    requires Spec.WellSized(cfg, s)
             && !Spec.TickMem(cfg, Spec.TickProcs(Spec.TickCaches(cfg.protocol, Spec.Grant(s), cfg.nodes))).failed
    ensures var s1 := Spec.TickCaches(cfg.protocol, Spec.Grant(s), cfg.nodes);
            var x := Spec.TockProcs(Spec.TickMem(cfg, Spec.TickProcs(s1)));
            !x.failed && Spec.Cycle(cfg, s) == x.(clock := x.clock + 1)
  {
    hide Spec.TickCaches, Spec.TickProcs, Spec.TickMem;
  }

  lemma AfterNothing(cfg: Spec.Config, traces: seq<seq<Op>>)
    requires |traces| == cfg.nodes
    ensures Spec.After(cfg, Spec.Initial(traces), 0) == Spec.Initial(traces) && Going(cfg, traces, 0)
  {
  }

  lemma NothingDone(traces: seq<seq<Op>>)
    requires |traces| > 0
    ensures !Spec.Done(Spec.Initial(traces))
  {
    assert !Spec.Initial(traces).procs[0].ended;
  }

  /** The main loop has not left the run before its cycle m: nothing failed and, from the
      first cycle on, some processor was not done. */
  ghost predicate Going(cfg: Spec.Config, traces: seq<seq<Op>>, m: nat)
    requires |traces| == cfg.nodes
  {
    forall j :: 0 < j < m ==>
      !Spec.Done(Spec.After(cfg, Spec.Initial(traces), j)) && !Spec.After(cfg, Spec.Initial(traces), j).failed
  }

  /** While the run is not over there is a next cycle, and the bound is not reached. */
  lemma OneMore(cfg: Spec.Config, traces: seq<seq<Op>>, m: nat)
    requires |traces| == cfg.nodes && cfg.hitTime >= 1
    requires !Spec.After(cfg, Spec.Initial(traces), m).failed && Going(cfg, traces, m + 1)
    ensures var s := Spec.After(cfg, Spec.Initial(traces), m);
            && Spec.Cycle(cfg, s) == Spec.After(cfg, Spec.Initial(traces), m + 1)
            && (!Spec.Cycle(cfg, s).failed ==> Spec.Cycle(cfg, s).clock == s.clock + 1)
    ensures m <= Progress.Bound(cfg.hitTime, 2, traces)
  {
    hide Spec.Cycle, Spec.Done, Progress.Bound, Progress.Work, Liveness.EndSteady;
    var s := Spec.After(cfg, Spec.Initial(traces), m);
    Cycles.AfterNext(cfg, Spec.Initial(traces), m);
    if !Spec.Cycle(cfg, s).failed {
      Progress.CycleClock(cfg, s);
    }
    NotYetDone(cfg, traces, m);
    Progress.WorkRunsOut(cfg, 2, traces, m);
  }

  lemma GoesOn(cfg: Spec.Config, traces: seq<seq<Op>>, m: nat)
    requires |traces| == cfg.nodes && Going(cfg, traces, m)
    requires m > 0 ==>
               !Spec.Done(Spec.After(cfg, Spec.Initial(traces), m))
               && !Spec.After(cfg, Spec.Initial(traces), m).failed
    ensures Going(cfg, traces, m + 1)
  {
  }

  lemma NotYetDone(cfg: Spec.Config, traces: seq<seq<Op>>, m: nat)
    requires |traces| == cfg.nodes
    requires Going(cfg, traces, m + 1)
    ensures forall j :: 0 <= j < m ==> !Spec.Done(Spec.After(cfg, Spec.Initial(traces), j))
  {
    hide Spec.Cycle, Spec.Done;
    if cfg.nodes > 0 {
      NothingDone(traces);
      AfterNothing(cfg, traces);
    } else if m > 0 {
      assert !Spec.Done(Spec.After(cfg, Spec.Initial(traces), m));
      NobodyWaits(Spec.After(cfg, Spec.Initial(traces), m));
    }
  }

  /** A run that never meets MOESI's hazard ends well, and every miss has been answered. */
  lemma EndsWell(cfg: Spec.Config, traces: seq<seq<Op>>, m: nat)
    requires |traces| == cfg.nodes && cfg.hitTime >= 1 && m > 0
    requires cfg.protocol != MOESI || Cycles.Safe(cfg, Spec.Initial(traces), m)
    requires Going(cfg, traces, m)
    ensures var s := Spec.After(cfg, Spec.Initial(traces), m);
            !s.failed && (Spec.Done(s) ==> s.stats.misses == s.stats.transfers + s.stats.replies)
    ensures m <= 1 + Progress.Bound(cfg.hitTime, 0, traces)
  {
    hide Spec.Cycle, Spec.Done, Cycles.Danger, Progress.Bound, Progress.Work, Liveness.EndSteady;
    if cfg.protocol != MOESI {
      Cycles.AlwaysSafe(cfg, Spec.Initial(traces), m);
    }
    Safety.NoRunFails(cfg, traces, m);
    Safety.NoRunFails(cfg, traces, m - 1);
    if Spec.Done(Spec.After(cfg, Spec.Initial(traces), m)) {
      Safety.MissesConserved(cfg, traces, m);
    }
    NotYetDone(cfg, traces, m - 1);
    Progress.WorkRunsOut(cfg, 0, traces, m - 1);
  }

  lemma NobodyWaits(s: Spec.Sys)
    requires |s.procs| == 0
    ensures Spec.Done(s)
  {
  }

  /** One processor and one cache per node. */
  method BuildNodes(cfg: Spec.Config, traces: seq<seq<Op>>) returns (ps: seq<Processor>, ts: seq<HashTable>)
    requires |traces| == cfg.nodes
    ensures |ps| == |ts| == cfg.nodes
    ensures forall i, j :: 0 <= i < j < |ps| ==> ps[i] != ps[j]
    ensures forall i :: 0 <= i < |ps| ==> fresh(ps[i]) && ps[i].View() == Spec.Proc(traces[i], false, false, None, None)
    ensures forall i :: 0 <= i < |ts| ==>
              && fresh(ts[i]) && ts[i].id == i && ts[i].protocol == cfg.protocol && ts[i].Valid()
              && ts[i].lines == {} && ts[i].View() == Spec.Cache(None, map[])
  {
    ps, ts := [], [];
    for node := 0 to cfg.nodes
      invariant |ps| == |ts| == node
      invariant forall i, j :: 0 <= i < j < |ps| ==> ps[i] != ps[j]
      invariant forall i :: 0 <= i < |ps| ==>
                  fresh(ps[i]) && ps[i].View() == Spec.Proc(traces[i], false, false, None, None)
      invariant forall i :: 0 <= i < |ts| ==>
                  && fresh(ts[i]) && ts[i].id == i && ts[i].protocol == cfg.protocol && ts[i].Valid()
                  && ts[i].lines == {} && ts[i].View() == Spec.Cache(None, map[])
    {
      var pr := new Processor(traces[node]);
      var table := new HashTable(node, cfg.protocol);
      ps, ts := ps + [pr], ts + [table];
    }
  }

  class Simulator {
    const cfg: Spec.Config
    const bus: Bus
    const sim: Counters
    const memory: MemoryController
    const tables: seq<HashTable>
    const procs: seq<Processor>
    var clock: nat

    constructor (cfg: Spec.Config, traces: seq<seq<Op>>)
      requires |traces| == cfg.nodes
      ensures this.cfg == cfg && Valid() && View() == Spec.Initial(traces)
      ensures fresh(bus) && fresh(sim) && fresh(memory) && Lines() == {}
      ensures forall i :: 0 <= i < cfg.nodes ==> fresh(tables[i]) && fresh(procs[i])
    {
      var ps, ts := BuildNodes(cfg, traces);
      this.cfg, procs, tables, clock := cfg, ps, ts, 0;
      bus := new Bus();
      sim := new Counters();
      memory := new MemoryController(cfg);
    }

    ghost predicate Valid()
      reads this, tables
    {
      && |tables| == |procs| == cfg.nodes && memory.cfg == cfg
      && (forall i :: 0 <= i < |tables| ==>
            tables[i].id == i && tables[i].protocol == cfg.protocol && tables[i].Valid())
      && (forall i, j :: 0 <= i < j < |procs| ==> procs[i] != procs[j])
    }

    ghost function Lines(): set<Line>
      reads this, tables
    {
      set i, line | 0 <= i < |tables| && line in tables[i].lines :: line
    }

    ghost function View(): Spec.Sys
      requires Valid()
      reads this, tables, procs, Lines(), bus, sim, memory
    {
      Spec.Sys(bus.View(),
            seq(|tables|, i requires 0 <= i < |tables|
                && tables[i].Valid() reads this, tables, Lines() => tables[i].View()),
            seq(|procs|, i requires 0 <= i < |procs| reads procs => procs[i].View()),
            memory.View(), clock, sim.View(), sim.failed)
    }

    /** One cache's tick leaves the other caches and processors alone. */
    method TickTable(i: nat)
      requires Valid() && !sim.failed && i < cfg.nodes
      modifies bus, sim, tables[i], tables[i].lines, procs[i]
      ensures Valid() && fresh(Lines() - old(Lines()))
      ensures var x := Spec.TickCache(cfg.protocol, old(View()), i);
              && sim.failed == x.failed
              && (!x.failed ==> View() == x)
    {
      hide Spec.TickPort, Spec.TickCache;
      ghost var x := View();
      TickPortIsTickCache(cfg.protocol, x, i);
      tables[i].Tick(bus, sim, procs[i]);
      if sim.failed {
        return;
      }
      assert forall j :: 0 <= j < |tables| && j != i ==> tables[j].View() == x.caches[j];
      assert forall j :: 0 <= j < |procs| && j != i ==> procs[j].View() == x.procs[j];
    }

    method TickCaches()
      requires Valid() && !sim.failed
      modifies bus, sim, tables, procs, Lines()
      ensures Valid() && fresh(Lines() - old(Lines()))
      ensures var x := Spec.TickCaches(cfg.protocol, old(View()), cfg.nodes);
              && sim.failed == x.failed
              && (!x.failed ==> View() == x)
    {
      hide Spec.TickCache;
      ghost var s := View();
      var i := 0;
      while i < |tables|
        invariant i <= |tables| && !sim.failed
        invariant Valid() && fresh(Lines() - old(Lines()))
        invariant View() == Spec.TickCaches(cfg.protocol, s, i)
      {
        TickTable(i);
        if sim.failed {
          FailureStays(cfg.protocol, s, i + 1, cfg.nodes);
          return;
        }
        i := i + 1;
      }
    }

    method TickProcs()
      requires Valid() && !sim.failed
      modifies tables, procs
      ensures Valid() && Lines() == old(Lines())
      ensures View() == Spec.TickProcs(old(View()))
    {
      hide Spec.TickProc, Spec.Issue;
      ghost var s := View();
      var i := 0;
      while i < |procs|
        invariant i <= |procs| && Valid()
        invariant unchanged(this, bus, sim, memory) && forall line :: line in old(Lines()) ==> unchanged(line)
        invariant forall j :: 0 <= j < |tables| ==> tables[j].lines == old(tables[j].lines)
        invariant forall j :: 0 <= j < |procs| ==>
                    && procs[j].View() == (if j < i then Spec.TickProc(s.procs[j]) else s.procs[j])
                    && tables[j].View() == (if j < i then Spec.Issue(s.procs[j], s.caches[j]) else s.caches[j])
      {
        TickProc(i);
        i := i + 1;
      }
    }

    /** A processor that reads its trace leaves the request with its cache. */
    method TickProc(i: nat)
      requires Valid() && i < cfg.nodes
      modifies procs[i], tables[i]
      ensures Valid() && tables[i].lines == old(tables[i].lines)
      ensures procs[i].View() == Spec.TickProc(old(procs[i].View()))
      ensures tables[i].View() == Spec.Issue(old(procs[i].View()), old(tables[i].View()))
    {
      var request := procs[i].Tick();
      if request.Some? {
        tables[i].request := request;
      }
    }

    method TockProcs()
      requires Valid() && !sim.failed
      modifies procs
      ensures Valid() && Lines() == old(Lines())
      ensures View() == Spec.TockProcs(old(View()))
    {
      hide Spec.TockProc;
      ghost var s := View();
      var i := 0;
      while i < |procs|
        invariant i <= |procs|
        invariant Valid()
        invariant unchanged(this, bus, sim, memory) && forall j :: 0 <= j < |tables| ==> unchanged(tables[j])
        invariant forall line :: line in Lines() ==> unchanged(line)
        invariant forall j :: 0 <= j < |procs| ==>
                    procs[j].View() == (if j < i then Spec.TockProc(s.procs[j]) else s.procs[j])
      {
        procs[i].Tock();
        i := i + 1;
      }
    }

    method TickMemory()
      requires Valid() && !sim.failed
      modifies bus, sim, memory
      ensures Valid() && Lines() == old(Lines())
      ensures var x := Spec.TickMem(cfg, old(View()));
              && sim.failed == x.failed
              && (!x.failed ==> View() == x)
    {
      ghost var s := View();
      memory.Tick(clock, bus, sim);
      if sim.failed {
        return;
      }
      assert View().caches == s.caches && View().procs == s.procs;
    }

    method TickBus()
      requires Valid() && !sim.failed
      modifies bus
      ensures Valid() && Lines() == old(Lines()) && View() == Spec.Grant(old(View()))
    {
      bus.Tick();
    }

    method AdvanceClock()
      requires Valid()
      modifies this`clock
      ensures Valid() && Lines() == old(Lines()) && View() == old(View()).(clock := old(clock) + 1)
    {
      clock := clock + 1;
    }

    /** One iteration of the main loop. */
    method Cycle()
      requires Valid() && !sim.failed
      modifies this`clock, bus, sim, memory, tables, procs, Lines()
      ensures Valid() && fresh(Lines() - old(Lines()))
      ensures var x := Spec.Cycle(cfg, old(View()));
              && sim.failed == x.failed
              && (if x.failed then clock == old(clock) else View() == x)
    {
      hide Spec.Cycle, Spec.Grant, Spec.TickCaches, Spec.TickProcs, Spec.TickMem, Spec.TockProcs;
      ghost var s := View();
      TickBus();
      TickCaches();
      if sim.failed {
        FailedEarly(cfg, s);
        return;
      }
      TickProcs();
      TickMemory();
      if sim.failed {
        FailedLate(cfg, s);
        return;
      }
      NotFailed(cfg, s);
      TockProcs();
      AdvanceClock();
    }

    method AllDone() returns (done: bool)
      requires Valid()
      ensures done == Spec.Done(View())
    {
      done := true;
      var i := 0;
      while i < |procs|
        invariant i <= |procs| && done
        invariant forall j :: 0 <= j < i ==> procs[j].Done()
      {
        if !procs[i].Done() {
          assert !View().procs[i].ended || View().procs[i].outstanding;
          return false;
        }
        i := i + 1;
      }
      assert forall j :: 0 <= j < |procs| ==> procs[j].Done();
    }

    /** An iteration in a run that is not over. */
    method RunCycle(ghost traces: seq<seq<Op>>) returns (done: bool)
      requires Valid() && |traces| == cfg.nodes && cfg.hitTime >= 1 && !sim.failed
      requires View() == Spec.After(cfg, Spec.Initial(traces), clock)
      requires Going(cfg, traces, clock) && (clock > 0 ==> !Spec.Done(View()))
      modifies this`clock, bus, sim, memory, tables, procs, Lines()
      ensures Valid() && fresh(Lines() - old(Lines()))
      ensures old(clock) <= Progress.Bound(cfg.hitTime, 2, traces)
      ensures clock == old(clock) + Invariant.One(!sim.failed) && Going(cfg, traces, old(clock) + 1)
      ensures var x := Spec.After(cfg, Spec.Initial(traces), old(clock) + 1);
              if sim.failed then x.failed && !done else View() == x && done == Spec.Done(View())
    {
      hide Going, Spec.After, Spec.Cycle, Spec.Done, Progress.Bound;
      ghost var s := View();
      GoesOn(cfg, traces, clock);
      OneMore(cfg, traces, clock);
      Cycle();
      if sim.failed {
        return false;
      }
      assert s.clock == old(clock) && View().clock == clock;
      done := AllDone();
    }

    /** The main loop ends on every set of traces: as soon as all processors are done, or with
        a fatal error. A run in which no OM line of MOESI snoops another cache's GETS meets no
        fatal error, and at its end every miss has been answered once. */
    method Run(ghost traces: seq<seq<Op>>)
      requires Valid() && |traces| == cfg.nodes && cfg.hitTime >= 1 && View() == Spec.Initial(traces)
      modifies this`clock, bus, sim, memory, tables, procs, Lines()
      ensures Valid()
      ensures var m := clock + Invariant.One(sim.failed);
              && 0 < m <= 1 + Progress.Bound(cfg.hitTime, 2, traces)
              && Spec.After(cfg, Spec.Initial(traces), m).failed == sim.failed
              && (!sim.failed ==> View() == Spec.After(cfg, Spec.Initial(traces), m) && Spec.Done(View()))
              && Going(cfg, traces, m)
              && (cfg.protocol != MOESI || Cycles.Safe(cfg, Spec.Initial(traces), m) ==>
                    && !sim.failed && m <= 1 + Progress.Bound(cfg.hitTime, 0, traces)
                    && sim.misses == sim.transfers + sim.replies)
    {
      hide Going, Spec.After, Spec.Cycle, Spec.Done, Cycles.Safe, Progress.Bound;
      ghost var s := Spec.Initial(traces);
      AfterNothing(cfg, traces);
      var done := false;
      while !done && !sim.failed
        invariant Valid() && fresh(Lines() - old(Lines()))
        invariant if sim.failed then Spec.After(cfg, s, clock + 1).failed && !done
                  else View() == Spec.After(cfg, s, clock) && done == (clock > 0 && Spec.Done(View()))
        invariant Going(cfg, traces, clock + Invariant.One(sim.failed))
        invariant clock + Invariant.One(sim.failed) <= 1 + Progress.Bound(cfg.hitTime, 2, traces)
        decreases 1 + Progress.Bound(cfg.hitTime, 2, traces) - clock, !sim.failed
      {
        done := RunCycle(traces);
      }
      ghost var m := clock + Invariant.One(sim.failed);
      if cfg.protocol != MOESI || Cycles.Safe(cfg, s, m) {
        EndsWell(cfg, traces, m);
      }
    }
  }

  /** A whole simulation, from traces to statistics, or to a fatal error in the cycle that
      `cycles` counts last. */
  method Simulate(cfg: Spec.Config, traces: seq<seq<Op>>) returns (failed: bool, cycles: nat, stats: Spec.Stats)
    requires |traces| == cfg.nodes && cfg.hitTime >= 1
    ensures var s := Spec.After(cfg, Spec.Initial(traces), cycles);
            s.failed == failed && (!failed ==> Spec.Done(s) && stats == s.stats)
    ensures Going(cfg, traces, cycles)
    ensures cycles <= 1 + Progress.Bound(cfg.hitTime, 2, traces)
    ensures cfg.protocol != MOESI || Cycles.Safe(cfg, Spec.Initial(traces), cycles) ==>
              && !failed && cycles <= 1 + Progress.Bound(cfg.hitTime, 0, traces)
              && stats.misses == stats.transfers + stats.replies
  {
    var simulator := new Simulator(cfg, traces);
    simulator.Run(traces);
    failed, stats := simulator.sim.failed, simulator.sim.View();
    cycles := if failed then simulator.clock + 1 else simulator.clock;
  }
}
