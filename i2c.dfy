/** The I2C master primitives the drivers call (`i2c_start`,
    `i2c_rep_start`, `i2c_write`, `i2c_readAck`, `i2c_readNak`, `i2c_stop`),
    treated as an oracle.  What the master puts on the bus is recorded as a
    trace of events: START and STOP conditions, repeated STARTs, and bytes
    written or read, each read closed by the master's ACK or NACK.  What the
    slaves answer comes from two scripted streams: the acknowledge bit for
    each address or data byte the master sends, and the data bytes the
    master clocks in. */
module I2c {
  import opened CInt

  /** The read/write bit that follows the 7-bit slave address. */
  const WRITE: u8 := 0
  const READ: u8 := 1

  datatype Event =
    | StartCond(addr: u8)        // START condition, then the address byte
    | RepStartCond(addr: u8)     // repeated START, then the address byte
    | WriteByte(data: u8)
    | ReadByteAck                // a byte read, acknowledged by the master
    | ReadByteNak                // a byte read, not acknowledged: the last one
    | StopCond

  /** The bus as a value: what has happened on it and what the slaves will
      answer next. */
  datatype Wire = Wire(trace: seq<Event>, acks: seq<bool>, rx: seq<u8>)

  /** Whether the next address or data byte the master sends is
      acknowledged.  When no slave drives SDA the line stays high: NACK. */
  function Acked(w: Wire): bool {
    |w.acks| > 0 && w.acks[0]
  }

  /** The k-th byte the slaves will put on the bus; with nobody driving SDA
      the master reads 0xFF. */
  function RxByte(w: Wire, k: nat): u8 {
    if k < |w.rx| then w.rx[k] else 0xFF
  }

  /** The 16-bit word formed by the next two bytes, most significant first. */
  function RxWord(w: Wire): u16 {
    Word(RxByte(w, 0), RxByte(w, 1))
  }

  /** The master sends a byte that the slave acknowledges or not. */
  function Sent(w: Wire, e: Event): Wire {
    w.(trace := w.trace + [e], acks := if |w.acks| > 0 then w.acks[1..] else [])
  }

  /** The master clocks in one byte. */
  function Received(w: Wire, e: Event): Wire {
    w.(trace := w.trace + [e], rx := if |w.rx| > 0 then w.rx[1..] else [])
  }

  /** The master generates a STOP condition. */
  function Stopped(w: Wire): Wire {
    w.(trace := w.trace + [StopCond])
  }

  /** The bus is free: nothing has happened yet, or the last thing the
      master did was to generate a STOP condition. */
  predicate Released(trace: seq<Event>) {
    |trace| == 0 || trace[|trace| - 1] == StopCond
  }

  /** `n` bytes read, each acknowledged by the master. */
  function AckReads(n: nat): (r: seq<Event>)
    ensures |r| == n && forall i :: 0 <= i < n ==> r[i] == ReadByteAck
  {
    if n == 0 then [] else AckReads(n - 1) + [ReadByteAck]
  }

  /** The wire after the master has read `n` bytes, acknowledging each. */
  function ReadAcks(w: Wire, n: nat): Wire {
    if n == 0 then w else Received(ReadAcks(w, n - 1), ReadByteAck)
  }

  /** Reading `n` acknowledged bytes appends `n` read events, leaves the
      acknowledge stream alone and moves `n` bytes along the data stream. */
  lemma {:induction false} ReadAcksEffect(w: Wire, n: nat)
    ensures ReadAcks(w, n).trace == w.trace + AckReads(n)
    ensures ReadAcks(w, n).acks == w.acks
    ensures forall k: nat :: RxByte(ReadAcks(w, n), k) == RxByte(w, n + k)
  {
    if n > 0 {
      ReadAcksEffect(w, n - 1);
      var u := ReadAcks(w, n - 1);
      forall k: nat ensures RxByte(ReadAcks(w, n), k) == RxByte(w, n + k) {
        assert RxByte(ReadAcks(w, n), k) == RxByte(u, k + 1);
      }
    }
  }

  /** The bus master, with the slaves' answers scripted in `acks` and `rx`. */
  class Bus {
    var trace: seq<Event>
    var acks: seq<bool>
    var rx: seq<u8>

    function View(): Wire
      reads this
    {
      Wire(trace, acks, rx)
    }

    constructor (acks: seq<bool>, rx: seq<u8>)
      ensures View() == Wire([], acks, rx)
    {
      this.trace := [];
      this.acks := acks;
      this.rx := rx;
    }

    /** `i2c_start`: 0 when the addressed slave acknowledges, 1 otherwise. */
    method Start(addr: u8) returns (err: u8)
      modifies this
      ensures err == if Acked(old(View())) then 0 else 1
      ensures View() == Sent(old(View()), StartCond(addr))
    {
      err := if |acks| > 0 && acks[0] then 0 else 1;
      trace := trace + [StartCond(addr)];
      acks := if |acks| > 0 then acks[1..] else [];
    }

    /** `i2c_rep_start`: 0 when the addressed slave acknowledges, 1 otherwise. */
    method RepStart(addr: u8) returns (err: u8)
      modifies this
      ensures err == if Acked(old(View())) then 0 else 1
      ensures View() == Sent(old(View()), RepStartCond(addr))
    {
      err := if |acks| > 0 && acks[0] then 0 else 1;
      trace := trace + [RepStartCond(addr)];
      acks := if |acks| > 0 then acks[1..] else [];
    }

    /** `i2c_write`: 0 when the slave acknowledges the byte, 1 otherwise. */
    method Write(data: u8) returns (err: u8)
      modifies this
      ensures err == if Acked(old(View())) then 0 else 1
      ensures View() == Sent(old(View()), WriteByte(data))
    {
      err := if |acks| > 0 && acks[0] then 0 else 1;
      trace := trace + [WriteByte(data)];
      acks := if |acks| > 0 then acks[1..] else [];
    }

    /** `i2c_readAck`: read a byte and ask for another. */
    method ReadAck() returns (b: u8)
      modifies this
      ensures b == RxByte(old(View()), 0)
      ensures View() == Received(old(View()), ReadByteAck)
    {
      b := if |rx| > 0 then rx[0] else 0xFF;
      trace := trace + [ReadByteAck];
      rx := if |rx| > 0 then rx[1..] else [];
    }

    /** `i2c_readNak`: read the last byte of a transfer. */
    method ReadNak() returns (b: u8)
      modifies this
      ensures b == RxByte(old(View()), 0)
      ensures View() == Received(old(View()), ReadByteNak)
    {
      b := if |rx| > 0 then rx[0] else 0xFF;
      trace := trace + [ReadByteNak];
      rx := if |rx| > 0 then rx[1..] else [];
    }

    /** `i2c_stop`: release the bus. */
    method Stop()
      modifies this
      ensures View() == Stopped(old(View()))
    {
      trace := trace + [StopCond];
    }
  }
}
