/** Cache lines as the simulator implements them: one object per line and cache, whose
    handlers assign its state, count, and reach the bus and the processor. */
module CacheLines {
  import opened Messages
  import opened Reactions
  import opened Protocols
  import opened Hardware
  import Spec = Machine

  /** A cache line and its protocol's handlers; `table` is the cache it belongs to. */
  class Line {
    const protocol: Protocol
    const table: nat
    const tag: Addr
    var state: LineState

    constructor (protocol: Protocol, table: nat, tag: Addr)
      ensures this.protocol == protocol && this.table == table && this.tag == tag && state == I
    {
      this.protocol, this.table, this.tag, state := protocol, table, tag, I;
    }

    method SendGets(bus: Bus)
      modifies bus`pending, bus`reply
      ensures bus.View() == Spec.Enqueue(old(bus.View()), GETS, tag, table)
    {
      var _ := bus.Request(Mreq(GETS, tag, table, None));
    }

    method SendGetm(bus: Bus)
      modifies bus`pending, bus`reply
      ensures bus.View() == Spec.Enqueue(old(bus.View()), GETM, tag, table)
    {
      var _ := bus.Request(Mreq(GETM, tag, table, None));
    }

    /** Every miss asks for the line, starts to wait for it and is counted. */
    method Miss(msg: Msg, next: LineState, bus: Bus, sim: Counters)
      requires msg != DATA
      modifies this`state, bus`pending, bus`reply, sim`misses
      ensures state == next && sim.misses == old(sim.misses) + 1
      ensures bus.View() == Spec.Enqueue(old(bus.View()), msg, tag, table)
    {
      if msg == GETS {
        SendGets(bus);
      } else {
        SendGetm(bus);
      }
      state := next;
      sim.misses := sim.misses + 1;
    }

    method SendDataOnBus(dest: nat, bus: Bus, sim: Counters)
      modifies bus`pending, bus`reply, sim`failed, sim`transfers
      ensures sim.failed == (old(sim.failed) || old(bus.reply).Some?)
      ensures old(bus.reply).None? ==> bus.View() == old(bus.View()).(reply := Some(Mreq(DATA, tag, table, Some(dest))))
                                       && sim.transfers == old(sim.transfers) + 1
    {
      var ok := bus.Request(Mreq(DATA, tag, table, Some(dest)));
      if !ok {
        sim.Fatal();
      } else {
        sim.transfers := sim.transfers + 1;
      }
    }

    method SetSharedLine(bus: Bus)
      modifies bus`shared
      ensures bus.shared
    {
      bus.shared := true;
    }

    /** The processor asks for this line. */
    method ProcessCacheRequest(op: Op, bus: Bus, sim: Counters, pr: Processor)
      requires !sim.failed && op.addr == tag
      modifies this`state, bus, sim, pr`buffer
      ensures var r := OnProcessor(protocol, old(state), op.Store?);
              var w := Spec.Order(table, tag, r, old(WiresOf(bus, sim, pr)));
              && sim.failed == w.failed
              && (!w.failed ==> state == r.next && WiresOf(bus, sim, pr) == w)
    {
      match protocol
      case MI => MiCacheRequest(op, bus, sim, pr);
      case MSI => MsiCacheRequest(op, bus, sim, pr);
      case MESI => MesiCacheRequest(op, bus, sim, pr);
      case MOSI => MosiCacheRequest(op, bus, sim, pr);
      case MOESI => MoesiCacheRequest(op, bus, sim, pr);
    }

    /** The line sees a message on the bus. */
    method ProcessSnoopRequest(q: Mreq, bus: Bus, sim: Counters, pr: Processor)
      requires !sim.failed && q.addr == tag
      modifies this`state, bus, sim, pr`buffer
      ensures var r := OnSnoop(protocol, old(state), q.msg, q.src == table, old(bus.shared));
              var w := Spec.Reply(table, q, r, old(WiresOf(bus, sim, pr)));
              && sim.failed == w.failed
              && (!w.failed ==> state == r.next && WiresOf(bus, sim, pr) == w)
    {
      match protocol
      case MI => MiSnoopRequest(q, bus, sim, pr);
      case MSI => MsiSnoopRequest(q, bus, sim, pr);
      case MESI => MesiSnoopRequest(q, bus, sim, pr);
      case MOSI => MosiSnoopRequest(q, bus, sim, pr);
      case MOESI => MoesiSnoopRequest(q, bus, sim, pr);
    }

    method MiCacheRequest(op: Op, bus: Bus, sim: Counters, pr: Processor)
      requires protocol == MI && !sim.failed && op.addr == tag
      modifies this`state, bus, sim, pr`buffer
      ensures var r := OnProcessor(MI, old(state), op.Store?);
              var w := Spec.Order(table, tag, r, old(WiresOf(bus, sim, pr)));
              && sim.failed == w.failed
              && (!w.failed ==> state == r.next && WiresOf(bus, sim, pr) == w)
    {
      match state
      case I =>
        Miss(GETM, IM, bus, sim);
      case M =>
        pr.Deliver(tag, sim);
      case _ => sim.Fatal();
    }

    method MiSnoopRequest(q: Mreq, bus: Bus, sim: Counters, pr: Processor)
      requires protocol == MI && !sim.failed && q.addr == tag
      modifies this`state, bus, sim, pr`buffer
      ensures var r := OnSnoop(MI, old(state), q.msg, q.src == table, old(bus.shared));
              var w := Spec.Reply(table, q, r, old(WiresOf(bus, sim, pr)));
              && sim.failed == w.failed
              && (!w.failed ==> state == r.next && WiresOf(bus, sim, pr) == w)
    {
      match state
      case I =>
      case IM =>
        if q.msg == DATA {
          pr.Deliver(tag, sim);
          state := M;
        }
      case M =>
        if q.msg == DATA {
          sim.Fatal();
        } else {
          SetSharedLine(bus);
          SendDataOnBus(q.src, bus, sim);
          state := I;
        }
      case _ => sim.Fatal();
    }

    method MsiCacheRequest(op: Op, bus: Bus, sim: Counters, pr: Processor)
      requires protocol == MSI && !sim.failed && op.addr == tag
      modifies this`state, bus, sim, pr`buffer
      ensures var r := OnProcessor(MSI, old(state), op.Store?);
              var w := Spec.Order(table, tag, r, old(WiresOf(bus, sim, pr)));
              && sim.failed == w.failed
              && (!w.failed ==> state == r.next && WiresOf(bus, sim, pr) == w)
    {
      match state
      case I =>
        if op.Load? {
          Miss(GETS, IS, bus, sim);
        } else {
          Miss(GETM, IM, bus, sim);
        }
      case S =>
        if op.Load? {
          pr.Deliver(tag, sim);
        } else {
          Miss(GETM, SM, bus, sim);
        }
      case M =>
        pr.Deliver(tag, sim);
      case _ => sim.Fatal();
    }

    method MsiSnoopRequest(q: Mreq, bus: Bus, sim: Counters, pr: Processor)
      requires protocol == MSI && !sim.failed && q.addr == tag
      modifies this`state, bus, sim, pr`buffer
      ensures var r := OnSnoop(MSI, old(state), q.msg, q.src == table, old(bus.shared));
              var w := Spec.Reply(table, q, r, old(WiresOf(bus, sim, pr)));
              && sim.failed == w.failed
              && (!w.failed ==> state == r.next && WiresOf(bus, sim, pr) == w)
    {
      match state
      case I =>
      case IM =>
        if q.msg == DATA {
          pr.Deliver(tag, sim);
          state := M;
        }
      case IS =>
        if q.msg == DATA {
          pr.Deliver(tag, sim);
          state := S;
        }
      case S =>
        match q.msg {
          case GETS =>
            SetSharedLine(bus);
          case GETM =>
            SetSharedLine(bus);
            state := I;
          case DATA =>
            sim.Fatal();
        }
      case M =>
        match q.msg {
          case GETS =>
            SetSharedLine(bus);
            SendDataOnBus(q.src, bus, sim);
            state := S;
          case GETM =>
            SetSharedLine(bus);
            SendDataOnBus(q.src, bus, sim);
            state := I;
          case DATA =>
            sim.Fatal();
        }
      case SM =>
        match q.msg {
          case GETS =>
            SetSharedLine(bus);
          case GETM =>
            SetSharedLine(bus);
          case DATA =>
            pr.Deliver(tag, sim);
            state := M;
        }
      case _ => sim.Fatal();
    }

    method MesiCacheRequest(op: Op, bus: Bus, sim: Counters, pr: Processor)
      requires protocol == MESI && !sim.failed && op.addr == tag
      modifies this`state, bus, sim, pr`buffer
      ensures var r := OnProcessor(MESI, old(state), op.Store?);
              var w := Spec.Order(table, tag, r, old(WiresOf(bus, sim, pr)));
              && sim.failed == w.failed
              && (!w.failed ==> state == r.next && WiresOf(bus, sim, pr) == w)
    {
      match state
      case I =>
        if op.Load? {
          Miss(GETS, ISE, bus, sim);
        } else {
          Miss(GETM, IM, bus, sim);
        }
      case S =>
        if op.Load? {
          pr.Deliver(tag, sim);
        } else {
          Miss(GETM, SM, bus, sim);
        }
      case E =>
        if op.Load? {
          pr.Deliver(tag, sim);
        } else {
          pr.Deliver(tag, sim);
          state := M;
          sim.upgrades := sim.upgrades + 1;
        }
      case M =>
        pr.Deliver(tag, sim);
      case _ => sim.Fatal();
    }

    method MesiSnoopRequest(q: Mreq, bus: Bus, sim: Counters, pr: Processor)
      requires protocol == MESI && !sim.failed && q.addr == tag
      modifies this`state, bus, sim, pr`buffer
      ensures var r := OnSnoop(MESI, old(state), q.msg, q.src == table, old(bus.shared));
              var w := Spec.Reply(table, q, r, old(WiresOf(bus, sim, pr)));
              && sim.failed == w.failed
              && (!w.failed ==> state == r.next && WiresOf(bus, sim, pr) == w)
    {
      match state
      case I =>
      case S =>
        match q.msg {
          case GETS =>
            SetSharedLine(bus);
          case GETM =>
            SetSharedLine(bus);
            state := I;
          case DATA =>
            sim.Fatal();
        }
      case E =>
        match q.msg {
          case GETS =>
            SetSharedLine(bus);
            SendDataOnBus(q.src, bus, sim);
            state := S;
          case GETM =>
            SetSharedLine(bus);
            SendDataOnBus(q.src, bus, sim);
            state := I;
          case DATA =>
            sim.Fatal();
        }
      case M =>
        match q.msg {
          case GETS =>
            SetSharedLine(bus);
            SendDataOnBus(q.src, bus, sim);
            state := S;
          case GETM =>
            SetSharedLine(bus);
            SendDataOnBus(q.src, bus, sim);
            state := I;
          case DATA =>
            sim.Fatal();
        }
      case IM =>
        if q.msg == DATA {
          pr.Deliver(tag, sim);
          state := M;
        }
      case ISE =>
        if q.msg == DATA {
          if bus.shared {
            SetSharedLine(bus);
            pr.Deliver(tag, sim);
            state := S;
          } else {
            pr.Deliver(tag, sim);
            state := E;
          }
        }
      case SM =>
        match q.msg {
          case GETS =>
            SetSharedLine(bus);
          case GETM =>
            SetSharedLine(bus);
          case DATA =>
            pr.Deliver(tag, sim);
            state := M;
        }
      case _ => sim.Fatal();
    }

    method MosiCacheRequest(op: Op, bus: Bus, sim: Counters, pr: Processor)
      requires protocol == MOSI && !sim.failed && op.addr == tag
      modifies this`state, bus, sim, pr`buffer
      ensures var r := OnProcessor(MOSI, old(state), op.Store?);
              var w := Spec.Order(table, tag, r, old(WiresOf(bus, sim, pr)));
              && sim.failed == w.failed
              && (!w.failed ==> state == r.next && WiresOf(bus, sim, pr) == w)
    {
      match state
      case I =>
        if op.Load? {
          Miss(GETS, IS, bus, sim);
        } else {
          Miss(GETM, IM, bus, sim);
        }
      case S =>
        if op.Load? {
          pr.Deliver(tag, sim);
        } else {
          Miss(GETM, SM, bus, sim);
        }
      case O =>
        if op.Load? {
          pr.Deliver(tag, sim);
        } else {
          Miss(GETM, OM, bus, sim);
        }
      case M =>
        pr.Deliver(tag, sim);
      case _ => sim.Fatal();
    }

    method MosiSnoopRequest(q: Mreq, bus: Bus, sim: Counters, pr: Processor)
      requires protocol == MOSI && !sim.failed && q.addr == tag
      modifies this`state, bus, sim, pr`buffer
      ensures var r := OnSnoop(MOSI, old(state), q.msg, q.src == table, old(bus.shared));
              var w := Spec.Reply(table, q, r, old(WiresOf(bus, sim, pr)));
              && sim.failed == w.failed
              && (!w.failed ==> state == r.next && WiresOf(bus, sim, pr) == w)
    {
      match state
      case I =>
      case S =>
        match q.msg {
          case GETS =>
            SetSharedLine(bus);
          case GETM =>
            SetSharedLine(bus);
            state := I;
          case DATA =>
            sim.Fatal();
        }
      case O =>
        match q.msg {
          case GETS =>
            SetSharedLine(bus);
            SendDataOnBus(q.src, bus, sim);
          case GETM =>
            SetSharedLine(bus);
            SendDataOnBus(q.src, bus, sim);
            state := I;
          case DATA =>
            sim.Fatal();
        }
      case M =>
        match q.msg {
          case GETS =>
            SetSharedLine(bus);
            SendDataOnBus(q.src, bus, sim);
            state := O;
          case GETM =>
            SetSharedLine(bus);
            SendDataOnBus(q.src, bus, sim);
            state := I;
          case DATA =>
            sim.Fatal();
        }
      case IM =>
        if q.msg == DATA {
          pr.Deliver(tag, sim);
          state := M;
        }
      case IS =>
        if q.msg == DATA {
          pr.Deliver(tag, sim);
          state := S;
        }
      case SM =>
        match q.msg {
          case GETS =>
            SetSharedLine(bus);
          case GETM =>
            SetSharedLine(bus);
            state := IM;
          case DATA =>
            pr.Deliver(tag, sim);
            state := M;
        }
      case OM =>
        match q.msg {
          case GETS =>
            SetSharedLine(bus);
            SendDataOnBus(q.src, bus, sim);
          case GETM =>
            SetSharedLine(bus);
            SendDataOnBus(q.src, bus, sim);
            if q.src != table {
              state := IM;
            }
          case DATA =>
            pr.Deliver(tag, sim);
            state := M;
        }
      case _ => sim.Fatal();
    }

    method MoesiCacheRequest(op: Op, bus: Bus, sim: Counters, pr: Processor)
      requires protocol == MOESI && !sim.failed && op.addr == tag
      modifies this`state, bus, sim, pr`buffer
      ensures var r := OnProcessor(MOESI, old(state), op.Store?);
              var w := Spec.Order(table, tag, r, old(WiresOf(bus, sim, pr)));
              && sim.failed == w.failed
              && (!w.failed ==> state == r.next && WiresOf(bus, sim, pr) == w)
    {
      match state
      case I =>
        if op.Load? {
          Miss(GETS, ISE, bus, sim);
        } else {
          Miss(GETM, IM, bus, sim);
        }
      case S =>
        if op.Load? {
          pr.Deliver(tag, sim);
          SetSharedLine(bus);
        } else {
          Miss(GETM, SM, bus, sim);
        }
      case E =>
        if op.Load? {
          pr.Deliver(tag, sim);
        } else {
          pr.Deliver(tag, sim);
          state := M;
          sim.upgrades := sim.upgrades + 1;
        }
      case O =>
        if op.Load? {
          pr.Deliver(tag, sim);
        } else {
          Miss(GETM, OM, bus, sim);
        }
      case M =>
        pr.Deliver(tag, sim);
      case _ => sim.Fatal();
    }

    /** An OM line that sees another cache's GETS does not answer it but completes its own store. */
    method MoesiSnoopOm(q: Mreq, bus: Bus, sim: Counters, pr: Processor)
      requires protocol == MOESI && state == OM && !sim.failed && q.addr == tag
      modifies this`state, bus, sim, pr`buffer
      ensures var r := OnSnoop(MOESI, OM, q.msg, q.src == table, old(bus.shared));
              var w := Spec.Reply(table, q, r, old(WiresOf(bus, sim, pr)));
              && sim.failed == w.failed
              && (!w.failed ==> state == r.next && WiresOf(bus, sim, pr) == w)
    {
      match q.msg {
        case GETS =>
          SetSharedLine(bus);
          pr.Deliver(tag, sim);
          state := M;
        case GETM =>
          SetSharedLine(bus);
          SendDataOnBus(q.src, bus, sim);
          if q.src != table {
            state := IM;
          }
        case DATA =>
          pr.Deliver(tag, sim);
          state := M;
      }
    }

    method MoesiSnoopRequest(q: Mreq, bus: Bus, sim: Counters, pr: Processor)
      requires protocol == MOESI && !sim.failed && q.addr == tag
      modifies this`state, bus, sim, pr`buffer
      ensures var r := OnSnoop(MOESI, old(state), q.msg, q.src == table, old(bus.shared));
              var w := Spec.Reply(table, q, r, old(WiresOf(bus, sim, pr)));
              && sim.failed == w.failed
              && (!w.failed ==> state == r.next && WiresOf(bus, sim, pr) == w)
    {
      match state
      case I =>
      case S =>
        match q.msg {
          case GETS =>
            SetSharedLine(bus);
          case GETM =>
            SetSharedLine(bus);
            state := I;
          case DATA =>
            sim.Fatal();
        }
      case E =>
        match q.msg {
          case GETS =>
            SetSharedLine(bus);
            SendDataOnBus(q.src, bus, sim);
            state := S;
          case GETM =>
            SetSharedLine(bus);
            SendDataOnBus(q.src, bus, sim);
            state := I;
          case DATA =>
            sim.Fatal();
        }
      case O =>
        match q.msg {
          case GETS =>
            SendDataOnBus(q.src, bus, sim);
          case GETM =>
            SetSharedLine(bus);
            SendDataOnBus(q.src, bus, sim);
            state := I;
          case DATA =>
            sim.Fatal();
        }
      case M =>
        match q.msg {
          case GETS =>
            SetSharedLine(bus);
            SendDataOnBus(q.src, bus, sim);
            state := O;
          case GETM =>
            SetSharedLine(bus);
            SendDataOnBus(q.src, bus, sim);
            state := I;
          case DATA =>
            sim.Fatal();
        }
      case IM =>
        if q.msg == DATA {
          pr.Deliver(tag, sim);
          state := M;
        }
      case ISE =>
        if q.msg == DATA {
          if bus.shared {
            SetSharedLine(bus);
            pr.Deliver(tag, sim);
            state := S;
          } else {
            pr.Deliver(tag, sim);
            state := E;
          }
        }
      case SM =>
        match q.msg {
          case GETS =>
            SetSharedLine(bus);
          case GETM =>
            SetSharedLine(bus);
          case DATA =>
            pr.Deliver(tag, sim);
            state := M;
        }
      case OM => MoesiSnoopOm(q, bus, sim, pr);
      case _ => sim.Fatal();
    }
  }
}
