/** Pi/edge-event.c: one read of a GPIO line request, converted in place with the polarity inverted. */
module EdgeEvents {
  // sizeof(struct gpio_v2_line_event), and the id the kernel gives a rising edge.
  const RECORD_SIZE := 48
  const KERNEL_RISING_EDGE := 1

  datatype KernelRecord = KernelRecord(timestamp: nat, id: nat, offset: nat, seqno: nat, lineSeqno: nat)

  /** `Cleared` is the type of an entry the buffer has zeroed. */
  datatype EdgeType = Cleared | Rising | Falling

  datatype EdgeEvent = EdgeEvent(edge: EdgeType, timestamp: nat, offset: nat, globalSeqno: nat, lineSeqno: nat)

  const ZERO_RECORD := KernelRecord(0, 0, 0, 0, 0)
  const ZERO_EVENT := EdgeEvent(Cleared, 0, 0, 0, 0)

  /** A line the kernel saw rise is reported falling, and every other line event rising. */
  function Convert(r: KernelRecord): EdgeEvent {
    EdgeEvent(if r.id == KERNEL_RISING_EDGE then Falling else Rising, r.timestamp, r.offset, r.seqno, r.lineSeqno)
  }

  function ConvertAll(rs: seq<KernelRecord>): (es: seq<EdgeEvent>)
    ensures |es| == |rs|
    ensures forall i :: 0 <= i < |rs| ==> es[i] == Convert(rs[i])
  {
    if rs == [] then [] else ConvertAll(rs[..|rs| - 1]) + [Convert(rs[|rs| - 1])]
  }

  /** The event tells the record's line, time and numbers as they are, and its edge the other way round. */
  predicate Reports(e: EdgeEvent, r: KernelRecord) {
    && e.offset == r.offset && e.timestamp == r.timestamp
    && e.globalSeqno == r.seqno && e.lineSeqno == r.lineSeqno
    && e.edge != Cleared && (e.edge == Falling <==> r.id == KERNEL_RISING_EDGE)
  }

  function Min(a: nat, b: nat): nat {
    if a < b then a else b
  }

  class EdgeEventBuffer {
    const capacity: nat
    var numEvents: nat
    const events: array<EdgeEvent>
    const eventData: array<KernelRecord>

    ghost predicate Valid() {
      events.Length == capacity && eventData.Length == capacity
    }

    constructor (capacity: nat)
      ensures Valid() && fresh(events) && fresh(eventData) && this.capacity == capacity && numEvents == 0
    {
      this.capacity := capacity;
      numEvents := 0;
      events := new EdgeEvent[capacity](_ => ZERO_EVENT);
      eventData := new KernelRecord[capacity](_ => ZERO_RECORD);
    }
  }

  /** Byte counts `read` can return for this request: an error, or no more than was asked for. */
  predicate WithinRequest(rd: int, maxEvents: nat, capacity: nat) {
    rd <= Min(maxEvents, capacity) * RECORD_SIZE
  }

  /** How many records a read of `rd` bytes touches, the last one perhaps only in part. */
  function Touched(rd: int): nat {
    if rd <= 0 then 0 else (rd + RECORD_SIZE - 1) / RECORD_SIZE
  }

  /** The C code compares the byte count as an `unsigned int`. */
  predicate ReadSucceeds(rd: int) {
    rd >= 0 && rd % 0x1_0000_0000 >= RECORD_SIZE
  }

  /**
   * `rd` is what `read` returned and `received` the records it left at the front of the kernel
   * buffer; a partial last record holds whatever those bytes happen to spell.
   */
  method ReadFd(buffer: EdgeEventBuffer?, maxEvents: nat, rd: int, received: seq<KernelRecord>) returns (ret: int)
    requires buffer != null ==> buffer.Valid() && WithinRequest(rd, maxEvents, buffer.capacity)
    requires buffer != null ==> |received| == Touched(rd)
    modifies if buffer == null then {} else {buffer, buffer.events, buffer.eventData}
    ensures ret == if buffer != null && ReadSucceeds(rd) then rd / RECORD_SIZE else -1
    ensures ret >= 0 ==> 1 <= ret <= Min(maxEvents, buffer.capacity) && buffer.numEvents == ret <= |received|
    ensures ret >= 0 ==> buffer.events[..ret] == ConvertAll(received[..ret])
    ensures forall k :: 0 <= k < ret ==> Reports(buffer.events[k], received[k])
    ensures buffer != null && ret < 0 ==> buffer.numEvents == old(buffer.numEvents)
    ensures buffer != null ==>
              forall k :: (if ret < 0 then 0 else ret) <= k < buffer.capacity ==> buffer.events[k] == ZERO_EVENT
    ensures buffer != null && rd >= 0 ==>
              buffer.eventData[..] == received + seq(buffer.capacity - |received|, _ => ZERO_RECORD)
  {
    if buffer == null {
      return -1;
    }
    var request := if maxEvents > buffer.capacity then buffer.capacity else maxEvents;
    forall k | 0 <= k < buffer.capacity {
      buffer.eventData[k] := if k < |received| then received[k] else ZERO_RECORD;
    }
    forall k | 0 <= k < buffer.capacity {
      buffer.events[k] := ZERO_EVENT;
    }
    if rd < 0 {
      return -1;
    } else if rd % 0x1_0000_0000 < RECORD_SIZE {
      return -1;
    }
    buffer.numEvents := rd / RECORD_SIZE;
    var i := 0;
    while i < buffer.numEvents
      invariant 0 <= i <= buffer.numEvents == rd / RECORD_SIZE <= request
      invariant buffer.numEvents <= |received| && |received| <= buffer.capacity
      invariant buffer.eventData[..] == received + seq(buffer.capacity - |received|, _ => ZERO_RECORD)
      invariant forall k :: 0 <= k < i ==> buffer.events[k] == Convert(received[k])
      invariant forall k :: i <= k < buffer.capacity ==> buffer.events[k] == ZERO_EVENT
    {
      var curr := buffer.eventData[i];
      assert curr == buffer.eventData[..][i] == received[i];
      buffer.events[i] := EdgeEvent(
        if curr.id == KERNEL_RISING_EDGE then Falling else Rising,
        curr.timestamp, curr.offset, curr.seqno, curr.lineSeqno);
      i := i + 1;
    }
    return i;
  }
}
