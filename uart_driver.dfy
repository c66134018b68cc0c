/**
 * The Windows UART port's device table and driver operations. The serial-port
 * library is not modelled: each call into it is replaced by the outcome it
 * reports, passed in as a parameter (allocation success, whether the port was
 * found and opened, the byte counts and error codes it returns).
 */
module UartDriver {

  import opened Wrappers
  import opened UartConfig

  /** Modulus of the 64-bit size_t the Windows build returns counts in. */
  const SizeTModulus: int := 0x1_0000_0000_0000_0000

  /** One logical port's device record. Its number, host name and configuration
      are fixed when open builds it; only the open flag changes afterwards. */
  class Device {
    const id: nat
    const name: string
    const config: Config
    var isOpen: bool

    /** A freshly allocated record, filled in but not yet open. */
    constructor (id: nat, name: string, config: Config)
      ensures this.id == id && this.name == name && this.config == config
      ensures !isOpen
    {
      this.id := id;
      this.name := name;
      this.config := config;
      isOpen := false;
    }
  }

  /** The fixed-capacity table of device records, one slot per logical port. */
  class Registry {
    const slots: array<Device?>

    /** Every occupied slot holds the record built for that port number. */
    ghost predicate Valid()
      reads this, slots
    {
      forall i :: 0 <= i < slots.Length && slots[i] != null ==>
        slots[i].id == i && slots[i].name == PortName(i)
    }

    ghost predicate IsEmpty()
      reads this, slots
    {
      forall i :: 0 <= i < slots.Length ==> slots[i] == null
    }

    /** The records currently held in the table. */
    ghost function Occupants(): set<Device>
      reads this, slots
    {
      set i | 0 <= i < slots.Length && slots[i] != null :: slots[i]
    }

    /** The table as statically initialised: `capacity` empty slots. */
    constructor (capacity: nat)
      ensures slots.Length == capacity && fresh(slots)
      ensures Valid() && IsEmpty()
    {
      slots := new Device?[capacity](_ => null);
    }

    /** Empties every slot, dropping whatever it held without closing it.
        Calling it on an empty table changes nothing. */
    method Init()
      modifies slots
      ensures Valid() && IsEmpty()
      ensures old(IsEmpty()) ==> slots[..] == old(slots[..])
    {
      for i := 0 to slots.Length
        invariant forall k :: 0 <= k < i ==> slots[k] == null
        invariant forall k :: i <= k < slots.Length ==> slots[k] == old(slots[k])
      {
        slots[i] := null;
      }
    }

    /** Closes every record in the table and empties its slot. */
    method Deinit()
      requires Valid()
      modifies slots, Occupants()
      ensures Valid() && IsEmpty()
      ensures forall d :: d in old(Occupants()) ==> !d.isOpen
    {
      ghost var held := Occupants();
      for i := 0 to slots.Length
        invariant forall k :: 0 <= k < i ==> slots[k] == null
        invariant forall k :: i <= k < slots.Length ==> slots[k] == old(slots[k])
        invariant forall k :: 0 <= k < i && old(slots[k]) != null ==> !old(slots[k]).isOpen
      {
        var d := slots[i];
        if d != null {
          assert d in held;
          var _ := Close(d);
          slots[i] := null;
        }
      }
      forall d | d in held
        ensures !d.isOpen
      {
        var k :| 0 <= k < slots.Length && old(slots[k]) == d;
      }
    }

    /** Builds a record for port `dev` and, once the transport is found and
        opened, applies the line settings, marks the record open and installs it
        in slot `dev`, overwriting any previous occupant without closing it.
        A null `cfg` is `None`; `allocOk`, `portFound` and `portOpened` are the
        outcomes of allocation, the name lookup and the transport open. */
    method Open(dev: nat, cfg: Option<Config>, allocOk: bool, portFound: bool, portOpened: bool)
      returns (d: Device?, applied: Option<LineSettings>)
      requires Valid()
      modifies slots
      ensures Valid()
      ensures d == null <==>
        (dev >= slots.Length || cfg.None? || !allocOk || !portFound || !portOpened)
      ensures d == null ==> slots[..] == old(slots[..]) && applied == None
      ensures d != null ==>
        fresh(d) && d.isOpen && d.id == dev && d.name == PortName(dev) &&
        d.config == cfg.value && applied == Some(SettingsFor(cfg.value)) &&
        slots[..] == old(slots[..])[dev := d]
      ensures dev < slots.Length && old(slots[dev]) != null ==>
        old(slots[dev]).isOpen == old(slots[dev].isOpen)
    {
      if dev >= slots.Length || cfg.None? {
        return null, None;
      }
      if !allocOk {
        return null, None;
      }
      var uart := new Device(dev, PortName(dev), cfg.value);
      if !portFound {
        return null, None;
      }
      if !portOpened {
        return null, None;
      }
      applied := Some(SettingsFor(cfg.value));
      uart.isOpen := true;
      slots[dev] := uart;
      d := uart;
    }
  }

  /** Closes an open record: the transport is released (`released`) and the
      record marked closed. A null or already closed record is left alone.
      The record stays in its table slot. */
  method Close(dev: Device?) returns (released: bool)
    modifies dev
    ensures released <==> dev != null && old(dev.isOpen)
    ensures dev != null ==> !dev.isOpen
  {
    if dev == null || !dev.isOpen {
      return false;
    }
    dev.isOpen := false;
    released := true;
  }

  /** Closing twice releases the transport once: the second close finds the
      record closed and does nothing. */
  method CloseTwice(dev: Device?) returns (first: bool, second: bool)
    modifies dev
    ensures first <==> dev != null && old(dev.isOpen)
    ensures !second
    ensures dev != null ==> !dev.isOpen
  {
    first := Close(dev);
    second := Close(dev);
  }

  /** Closing the record held in slot `dev` leaves the table as it was: the
      closed record is still installed there. */
  method CloseInstalled(table: Registry, dev: nat) returns (released: bool)
    requires table.Valid() && dev < table.slots.Length && table.slots[dev] != null
    modifies table.slots[dev]
    ensures table.Valid() && table.slots[..] == old(table.slots[..])
    ensures table.slots[dev] != null && !table.slots[dev].isOpen
    ensures released == old(table.slots[dev].isOpen)
  {
    released := Close(table.slots[dev]);
  }

  /** The transport's signed result as the driver reports it: a count is passed
      through, every error code becomes -1. */
  function TransferResult(r: int): (n: int)
    ensures n >= -1
    ensures n >= 0 <==> r >= 0
    ensures n >= 0 ==> n == r
  {
    if r >= 0 then r else -1
  }

  /** Reads up to `size` bytes with a one-second blocking read. `bufferPresent`
      is false for a null buffer; `transportResult` is what the blocking read
      returns. */
  method Read(dev: Device?, bufferPresent: bool, size: nat, transportResult: int)
    returns (n: int)
    ensures n >= -1
    ensures dev == null || !dev.isOpen || !bufferPresent ==> n == -1
    ensures dev != null && dev.isOpen && bufferPresent ==>
      (n >= 0 <==> transportResult >= 0) && (n >= 0 ==> n == transportResult)
    ensures transportResult <= size ==> n <= size
  {
    if dev == null || !dev.isOpen || !bufferPresent {
      return -1;
    }
    n := TransferResult(transportResult);
  }

  /** Writes `size` bytes with a one-second blocking write; the arguments are as
      for Read. */
  method Write(dev: Device?, bufferPresent: bool, size: nat, transportResult: int)
    returns (n: int)
    ensures n >= -1
    ensures dev == null || !dev.isOpen || !bufferPresent ==> n == -1
    ensures dev != null && dev.isOpen && bufferPresent ==>
      (n >= 0 <==> transportResult >= 0) && (n >= 0 ==> n == transportResult)
    ensures transportResult <= size ==> n <= size
  {
    if dev == null || !dev.isOpen || !bufferPresent {
      return -1;
    }
    n := TransferResult(transportResult);
  }

  /** Discards the transport's pending input and output; `flushed` says whether
      the flush was issued, which happens exactly for an open record. */
  method Flush(dev: Device?) returns (flushed: bool)
    ensures flushed <==> dev != null && dev.isOpen
  {
    if dev == null || !dev.isOpen {
      return false;
    }
    flushed := true;
  }

  /** C's conversion of a signed value (at most 64 bits wide) to size_t: a
      negative value wraps to the upper half of the range. */
  function SizeT(v: int): (n: nat)
    requires -SizeTModulus / 2 <= v < SizeTModulus / 2
    ensures n < SizeTModulus
    ensures n % SizeTModulus == v % SizeTModulus
    ensures v < 0 ==> n >= SizeTModulus / 2
  {
    if v >= 0 then v else v + SizeTModulus
  }

  /** Bytes waiting to be read, as the code computes it: the count the
      transport reports (`waiting`, a count or a negative error code) is cast
      to size_t, so an error code comes back as a huge count. */
  method BytesAvailableAsWritten(dev: Device?, waiting: int) returns (n: nat)
    requires -SizeTModulus / 2 <= waiting < SizeTModulus / 2
    ensures dev == null || !dev.isOpen ==> n == 0
    ensures dev != null && dev.isOpen && waiting >= 0 ==> n == waiting
    ensures dev != null && dev.isOpen ==> n == SizeT(waiting)
    ensures dev != null && dev.isOpen && waiting == -1 ==> n == SizeTModulus - 1
  {
    if dev == null || !dev.isOpen {
      return 0;
    }
    n := SizeT(waiting);
  }

  /** Bytes waiting to be read, as intended: the transport's count for an open
      record, and zero for a null or closed record or a transport error. */
  method BytesAvailable(dev: Device?, waiting: int) returns (n: nat)
    ensures dev == null || !dev.isOpen ==> n == 0
    ensures waiting < 0 ==> n == 0
    ensures n > 0 <==> dev != null && dev.isOpen && waiting > 0
    ensures n > 0 ==> n == waiting
  {
    if dev == null || !dev.isOpen || waiting < 0 {
      return 0;
    }
    n := waiting;
  }
}
