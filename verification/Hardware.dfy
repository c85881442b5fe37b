/** The simulator's own objects: every method is proved to do to the objects what module
    Machine says happens to their values. A fatal error or a failed assertion sets `failed`
    instead of ending the process. */
module Hardware {
  import opened Messages
  import Spec = Machine

  /** The simulator's counters. */
  class Counters {
    var misses: nat
    var accesses: nat
    var upgrades: nat
    var transfers: nat
    var replies: nat
    var failed: bool

    constructor ()
      ensures View() == Spec.Stats(0, 0, 0, 0, 0) && !failed
    {
      misses, accesses, upgrades, transfers, replies, failed := 0, 0, 0, 0, 0, false;
    }

    function View(): Spec.Stats
      reads this
    {
      Spec.Stats(misses, accesses, upgrades, transfers, replies)
    }

    method Fatal()
      modifies this`failed
      ensures failed
    {
      failed := true;
    }
  }

  class Bus {
    var current: Option<Mreq>
    var pending: seq<Mreq>
    var reply: Option<Mreq>
    var inProgress: bool
    var shared: bool

    constructor ()
      ensures View() == Spec.Bus(None, [], None, false, false)
    {
      current, pending, reply, inProgress, shared := None, [], None, false, false;
    }

    function View(): Spec.Bus
      reads this
    {
      Spec.Bus(current, pending, reply, inProgress, shared)
    }

    /** The reply of the transaction in progress goes on the bus, or the next request does. */
    method Tick()
      modifies this
      ensures View() == Spec.BusTick(old(View()))
    {
      if inProgress {
        if reply.Some? {
          current := reply;
          reply := None;
          inProgress := false;
        } else {
          current := None;
        }
      } else if pending != [] {
        shared := false;
        current := Some(pending[0]);
        pending := pending[1..];
        inProgress := true;
      } else {
        current := None;
      }
    }

    /** DATA takes the reply slot, which must be free; everything else joins the queue. */
    method Request(q: Mreq) returns (ok: bool)
      modifies this`reply, this`pending
      ensures ok == (q.msg != DATA || old(reply).None?)
      ensures View() == if q.msg != DATA then old(View()).(pending := old(pending) + [q])
                        else if ok then old(View()).(reply := Some(q)) else old(View())
    {
      ok := true;
      if q.msg == DATA {
        if reply.Some? {
          return false;
        }
        reply := Some(q);
      } else {
        pending := pending + [q];
      }
    }

    method Snoop() returns (q: Option<Mreq>)
      ensures q == current
    {
      q := current;
    }
  }

  class Processor {
    var trace: seq<Op>
    var ended: bool
    var outstanding: bool
    var inbound: Option<Addr>
    var buffer: Option<Addr>

    constructor (trace: seq<Op>)
      ensures View() == Spec.Proc(trace, false, false, None, None)
    {
      this.trace, ended, outstanding, inbound, buffer := trace, false, false, None, None;
    }

    function View(): Spec.Proc
      reads this
    {
      Spec.Proc(trace, ended, outstanding, inbound, buffer)
    }

    /** Takes the answer in, and reads the next request of the trace for the cache if there
        is one and nothing is outstanding. */
    method Tick() returns (request: Option<Op>)
      modifies this
      ensures View() == Spec.TickProc(old(View()))
      ensures request == if Spec.Ready(old(View())) && old(trace) != [] then Some(old(trace)[0]) else None
    {
      request := None;
      if inbound.Some? {
        outstanding := false;
      }
      inbound := None;
      if ended || outstanding {
        return;
      }
      if trace != [] {
        request := Some(trace[0]);
        trace := trace[1..];
        outstanding := true;
      } else {
        ended := true;
      }
    }

    method Tock()
      modifies this
      ensures View() == Spec.TockProc(old(View()))
    {
      if buffer.Some? {
        inbound := buffer;
        buffer := None;
      }
    }

    predicate Done()
      reads this
    {
      ended && !outstanding
    }

    /** A cache's answer; the back half of the double buffer must be free. */
    method Deliver(a: Addr, sim: Counters)
      modifies this`buffer, sim`failed
      ensures sim.failed == (old(sim.failed) || old(buffer).Some?)
      ensures old(buffer).None? ==> buffer == Some(a)
    {
      if buffer.Some? {
        sim.Fatal();
      } else {
        buffer := Some(a);
      }
    }
  }

  ghost function WiresOf(bus: Bus, sim: Counters, pr: Processor): Spec.Wires
    reads bus, sim, pr
  {
    Spec.Wires(bus.View(), pr.buffer, sim.View(), sim.failed)
  }
}
