/** The five protocols by what their states stand for, instead of state by state: one set of
    rules with the points in which the protocols differ. */
module Rules {
  import opened Messages
  import opened Reactions
  import opened Protocols

  /** The cache has a copy that it, or a snooping cache, may use. */
  predicate Held(st: LineState) {
    st == S || st == E || st == O || st == M || st == SM || st == OM
  }

  predicate Readable(st: LineState) { st == S || st == E || st == O || st == M }

  predicate Writable(st: LineState) { st == E || st == M }

  predicate Hits(st: LineState, op: Op) {
    if op.Store? then Writable(st) else Readable(st)
  }

  /** A miss asks for the line to read it, or to write it; MI knows no reading. */
  predicate Reads(p: Protocol, op: Op) { op.Load? && p != MI }

  /** A line after its processor's request. A hit leaves a loaded line alone and makes a stored
      one M; a miss remembers what the cache holds while it waits. */
  function Served(p: Protocol, st: LineState, op: Op): LineState {
    if Hits(st, op) then if op.Store? then M else st
    else if Reads(p, op) then if p == MSI || p == MOSI then IS else ISE
    else match st case S => SM case O => OM case _ => IM
  }

  /** A GET that takes the line away from everybody else. */
  predicate Takes(p: Protocol, msg: Msg) { msg == GETM || (msg == GETS && p == MI) }

  /** A line after DATA for its cache. Whoever waits to write gets M, whoever waits to read
      shares, or has the line alone if nobody raised the shared line. */
  function Filled(st: LineState, shared: bool): LineState {
    if WantsM(st) then M else if st == ISE && !shared then E else if WantsS(st) then S else st
  }

  /** A line after a message it snoops; `own` says that its cache sent it. */
  function Heard(p: Protocol, st: LineState, msg: Msg, own: bool, shared: bool): LineState {
    if msg == DATA then Filled(st, shared)
    else if Takes(p, msg) then
      if Readable(st) then I
      else if (st == OM && !own) || (st == SM && p == MOSI) then IM
      else st
    else if st == E then S
    else if st == M then if p == MOSI || p == MOESI then O else S
    else if st == OM && p == MOESI then M
    else st
  }

  /** The owner answers a GET, except that an OM line of MOESI that snoops GETS does not. */
  predicate Supplies(p: Protocol, st: LineState, msg: Msg) {
    msg != DATA && Owner(st) && !Jumps(p, st, msg)
  }

  /** It completes its own store instead. */
  predicate Jumps(p: Protocol, st: LineState, msg: Msg) { p == MOESI && st == OM && msg == GETS }

  /** Whoever holds the line raises the shared line, except for an O line of MOESI. */
  predicate Signals(p: Protocol, st: LineState, msg: Msg) {
    msg != DATA && Held(st) && !(p == MOESI && st == O && msg == GETS)
  }

  /** So does a load that hits in S under MOESI, whatever is on the bus. */
  predicate LoadSignals(p: Protocol, st: LineState, op: Op) { p == MOESI && op.Load? && st == S }

  /** The processor is answered by what its cache snoops. */
  predicate Completes(p: Protocol, st: LineState, msg: Msg) {
    (msg == DATA && Transient(st)) || Jumps(p, st, msg)
  }

  // ---------------------------------------------------------------- the handlers follow the rules

  lemma RequestRules(p: Protocol, st: LineState, op: Op)
    requires Legal(p, st) && !Transient(st)
    ensures var r := OnProcessor(p, st, op.Store?);
            && r.next == Served(p, st, op)
            && r.answer == (if Hits(st, op) then Hit else if Reads(p, op) then AskShared else AskModified)
            && r.raise == LoadSignals(p, st, op) && r.upgrade == (op.Store? && st == E)
  {
  }

  lemma GetRules(p: Protocol, st: LineState, msg: Msg, own: bool, shared: bool)
    requires Legal(p, st) && msg != DATA
    ensures var r := OnSnoop(p, st, msg, own, shared);
            && !r.abort && r.next == Heard(p, st, msg, own, shared)
            && r.supply == Supplies(p, st, msg) && r.fill == Completes(p, st, msg) && r.raise == Signals(p, st, msg)
  {
    match p
    case MI => match msg { case GETS => case GETM => }
    case MSI => match msg { case GETS => case GETM => }
    case MESI => match msg { case GETS => case GETM => }
    case MOSI => match msg { case GETS => case GETM => }
    case MOESI => match msg { case GETS => case GETM => }
  }

  lemma DataRules(p: Protocol, st: LineState, own: bool, shared: bool)
    requires Legal(p, st)
    ensures var r := OnSnoop(p, st, DATA, own, shared);
            && r.abort == Readable(st)
            && (!r.abort ==>
                  && r.next == Heard(p, st, DATA, own, shared) && !r.supply && r.fill == Completes(p, st, DATA)
                  && r.raise == (st == ISE && shared))
  {
    match p
    case MI =>
    case MSI =>
    case MESI =>
    case MOSI =>
    case MOESI =>
  }
}
