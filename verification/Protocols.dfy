/** What a protocol does with one request, as a value: the handlers of the simulator are
    proved against these. `Abort` and `abort` stand for the program's fatal errors. */
module Reactions {
  import opened Messages

  datatype Answer = Hit | AskShared | AskModified | Abort

  /** Reaction to a processor request: next line state, what is answered or asked for,
      whether the shared line is raised and whether a silent upgrade is counted. */
  datatype ProcOut = ProcOut(next: LineState, answer: Answer, raise: bool, upgrade: bool)

  /** Reaction to a snooped message: next line state, shared line raised, DATA put on the
      bus for the requester, DATA handed to the own processor, fatal error. */
  datatype SnoopOut = SnoopOut(next: LineState, raise: bool, supply: bool, fill: bool, abort: bool)

  function Answered(next: LineState): ProcOut { ProcOut(next, Hit, false, false) }

  function Missed(next: LineState, answer: Answer): ProcOut { ProcOut(next, answer, false, false) }

  function Refused(st: LineState): ProcOut { ProcOut(st, Abort, false, false) }

  function Ignored(st: LineState): SnoopOut { SnoopOut(st, false, false, false, false) }

  function Raised(next: LineState): SnoopOut { SnoopOut(next, true, false, false, false) }

  function Supplied(next: LineState): SnoopOut { SnoopOut(next, true, true, false, false) }

  function Filled(next: LineState): SnoopOut { SnoopOut(next, false, false, true, false) }

  function Broken(st: LineState): SnoopOut { SnoopOut(st, false, false, false, true) }
}

module MiProtocol {
  import opened Messages
  import opened Reactions

  function OnProcessor(st: LineState, store: bool): ProcOut {
    match st
    case I => Missed(IM, AskModified)
    case M => Answered(M)
    case _ => Refused(st)
  }

  function OnSnoop(st: LineState, msg: Msg): SnoopOut {
    match st
    case I => Ignored(I)
    case IM => if msg == DATA then Filled(M) else Ignored(IM)
    case M => if msg == DATA then Broken(M) else Supplied(I)
    case _ => Broken(st)
  }
}

module MsiProtocol {
  import opened Messages
  import opened Reactions

  function OnProcessor(st: LineState, store: bool): ProcOut {
    match st
    case I => if store then Missed(IM, AskModified) else Missed(IS, AskShared)
    case S => if store then Missed(SM, AskModified) else Answered(S)
    case M => Answered(M)
    case _ => Refused(st)
  }

  function OnSnoop(st: LineState, msg: Msg): SnoopOut {
    match st
    case I => Ignored(I)
    case IM => if msg == DATA then Filled(M) else Ignored(IM)
    case IS => if msg == DATA then Filled(S) else Ignored(IS)
    case S => (match msg case GETS => Raised(S) case GETM => Raised(I) case DATA => Broken(S))
    case M => (match msg case GETS => Supplied(S) case GETM => Supplied(I) case DATA => Broken(M))
    case SM => if msg == DATA then Filled(M) else Raised(SM)
    case _ => Broken(st)
  }
}

module MesiProtocol {
  import opened Messages
  import opened Reactions

  function OnProcessor(st: LineState, store: bool): ProcOut {
    match st
    case I => if store then Missed(IM, AskModified) else Missed(ISE, AskShared)
    case S => if store then Missed(SM, AskModified) else Answered(S)
    case E => if store then ProcOut(M, Hit, false, true) else Answered(E)
    case M => Answered(M)
    case _ => Refused(st)
  }

  function OnSnoop(st: LineState, msg: Msg, shared: bool): SnoopOut {
    match st
    case I => Ignored(I)
    case S => (match msg case GETS => Raised(S) case GETM => Raised(I) case DATA => Broken(S))
    case E => (match msg case GETS => Supplied(S) case GETM => Supplied(I) case DATA => Broken(E))
    case M => (match msg case GETS => Supplied(S) case GETM => Supplied(I) case DATA => Broken(M))
    case IM => if msg == DATA then Filled(M) else Ignored(IM)
    case ISE =>
      if msg != DATA then Ignored(ISE)
      else if shared then Filled(S).(raise := true)
      else Filled(E)
    case SM => if msg == DATA then Filled(M) else Raised(SM)
    case _ => Broken(st)
  }
}

module MosiProtocol {
  import opened Messages
  import opened Reactions

  function OnProcessor(st: LineState, store: bool): ProcOut {
    match st
    case I => if store then Missed(IM, AskModified) else Missed(IS, AskShared)
    case S => if store then Missed(SM, AskModified) else Answered(S)
    case O => if store then Missed(OM, AskModified) else Answered(O)
    case M => Answered(M)
    case _ => Refused(st)
  }

  /** `own` says that the snooped message was sent by this cache. */
  function OnSnoop(st: LineState, msg: Msg, own: bool): SnoopOut {
    match st
    case I => Ignored(I)
    case S => (match msg case GETS => Raised(S) case GETM => Raised(I) case DATA => Broken(S))
    case O => (match msg case GETS => Supplied(O) case GETM => Supplied(I) case DATA => Broken(O))
    case M => (match msg case GETS => Supplied(O) case GETM => Supplied(I) case DATA => Broken(M))
    case IM => if msg == DATA then Filled(M) else Ignored(IM)
    case IS => if msg == DATA then Filled(S) else Ignored(IS)
    case SM => (match msg case GETS => Raised(SM) case GETM => Raised(IM) case DATA => Filled(M))
    case OM =>
      (match msg
       case GETS => Supplied(OM)
       case GETM => Supplied(if own then OM else IM)
       case DATA => Filled(M))
    case _ => Broken(st)
  }
}

module MoesiProtocol {
  import opened Messages
  import opened Reactions

  function OnProcessor(st: LineState, store: bool): ProcOut {
    match st
    case I => if store then Missed(IM, AskModified) else Missed(ISE, AskShared)
    case S => if store then Missed(SM, AskModified) else ProcOut(S, Hit, true, false)
    case E => if store then ProcOut(M, Hit, false, true) else Answered(E)
    case O => if store then Missed(OM, AskModified) else Answered(O)
    case M => Answered(M)
    case _ => Refused(st)
  }

  /** An owned line answers GETS without raising the shared line, and an OM line answers
      another cache's GETS by completing its own store. */
  function OnSnoop(st: LineState, msg: Msg, own: bool, shared: bool): SnoopOut {
    match st
    case I => Ignored(I)
    case S => (match msg case GETS => Raised(S) case GETM => Raised(I) case DATA => Broken(S))
    case E => (match msg case GETS => Supplied(S) case GETM => Supplied(I) case DATA => Broken(E))
    case O =>
      (match msg
       case GETS => SnoopOut(O, false, true, false, false)
       case GETM => Supplied(I)
       case DATA => Broken(O))
    case M => (match msg case GETS => Supplied(O) case GETM => Supplied(I) case DATA => Broken(M))
    case IM => if msg == DATA then Filled(M) else Ignored(IM)
    case ISE =>
      if msg != DATA then Ignored(ISE)
      else if shared then Filled(S).(raise := true)
      else Filled(E)
    case SM => if msg == DATA then Filled(M) else Raised(SM)
    case OM =>
      (match msg
       case GETS => SnoopOut(M, true, false, true, false)
       case GETM => Supplied(if own then OM else IM)
       case DATA => Filled(M))
    case _ => Broken(st)
  }
}

/** The protocol a simulation is configured with. */
module Protocols {
  import opened Messages
  import opened Reactions
  import MiProtocol
  import MsiProtocol
  import MesiProtocol
  import MosiProtocol
  import MoesiProtocol

  function OnProcessor(p: Protocol, st: LineState, store: bool): ProcOut {
    match p
    case MI => MiProtocol.OnProcessor(st, store)
    case MSI => MsiProtocol.OnProcessor(st, store)
    case MESI => MesiProtocol.OnProcessor(st, store)
    case MOSI => MosiProtocol.OnProcessor(st, store)
    case MOESI => MoesiProtocol.OnProcessor(st, store)
  }

  function OnSnoop(p: Protocol, st: LineState, msg: Msg, own: bool, shared: bool): SnoopOut {
    match p
    case MI => MiProtocol.OnSnoop(st, msg)
    case MSI => MsiProtocol.OnSnoop(st, msg)
    case MESI => MesiProtocol.OnSnoop(st, msg, shared)
    case MOSI => MosiProtocol.OnSnoop(st, msg, own)
    case MOESI => MoesiProtocol.OnSnoop(st, msg, own, shared)
  }

  /** The states each protocol declares. */
  predicate Legal(p: Protocol, st: LineState) {
    match p
    case MI => st == I || st == IM || st == M
    case MSI => st == I || st == IM || st == IS || st == M || st == S || st == SM
    case MESI => st == I || st == S || st == E || st == M || st == IM || st == ISE || st == SM
    case MOSI => st == I || st == S || st == O || st == M || st == IM || st == IS || st == SM || st == OM
    case MOESI => st == I || st == S || st == E || st == O || st == M || st == IM || st == ISE || st == SM || st == OM
  }

  /** A line waiting for the answer to its GETM, or to its GETS. */
  predicate WantsM(st: LineState) { st == IM || st == SM || st == OM }

  predicate WantsS(st: LineState) { st == IS || st == ISE }

  predicate Transient(st: LineState) { WantsM(st) || WantsS(st) }

  /** A line whose cache must answer a snooped GET. */
  predicate Owner(st: LineState) { st == E || st == O || st == M || st == OM }

  /** A line that may be written without asking. */
  predicate Exclusive(st: LineState) { st == E || st == M }

  /** A line holding an up-to-date copy. SM keeps its copy current only under MOSI, where
      another cache's GETM moves it to IM; elsewhere SM may be stale. */
  predicate Live(p: Protocol, st: LineState) {
    st == S || Owner(st) || (p == MOSI && st == SM)
  }

  /** A line that raises the shared line when it snoops a GETS. */
  predicate Raises(st: LineState) { st == S || st == E || st == M || st == SM }
}
