/** Values shared by every component of the simulated machine: line addresses,
    processor operations, bus messages and the states a cache line can be in. */
module Messages {

  datatype Option<+T> = None | Some(value: T)

  /** The address of a cache line (the low-order bits are already masked off). */
  type Addr = nat

  /** One trace record: a load or a store of one line. */
  datatype Op = Load(addr: Addr) | Store(addr: Addr)

  datatype Msg = GETS | GETM | DATA

  /** A bus message. Caches are the modules 0, ..., n-1 and the memory controller is
      module n. Only DATA carries a destination. */
  datatype Mreq = Mreq(msg: Msg, addr: Addr, src: nat, dest: Option<nat>)

  /** The union of the line states of the five protocols. */
  datatype LineState = I | S | E | O | M | IM | IS | ISE | SM | OM

  datatype Protocol = MI | MSI | MESI | MOSI | MOESI
}
