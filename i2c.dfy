/**
  The I2C master driver of DRIVER/I2C.c. Every call into the ST standard
  peripheral library becomes one event appended to the bus log; each of the
  library's busy-wait loops is folded into the event it waits for and is
  assumed to terminate. The bytes that the addressed device drives onto the
  wire are not under the driver's control: they are the bus's `incoming`
  stream, consumed one byte per received event.
 */
module I2C {
  import opened CTypes

  /** The two peripheral instances; I2C1_* and I2C2_* are the same code on different instances. */
  datatype BusId = I2C1 | I2C2

  /** I2C_Direction_Transmitter / I2C_Direction_Receiver. */
  datatype Direction = Transmitter | Receiver

  datatype Event =
    | WaitIdle                          // poll the BUSY flag until the bus is idle
    | Start                             // generate a (repeated) START and wait for master mode
    | Addr(dev: byte, dir: Direction)   // send the 7-bit address and wait until it is acknowledged
    | Send(b: byte)                     // send one byte and wait until it is transmitted
    | Recv(b: byte)                     // wait until a byte is received and read it
    | AckOff                            // I2C_AcknowledgeConfig(DISABLE): NACK the next byte
    | AckOn                             // I2C_AcknowledgeConfig(ENABLE)
    | Stop                              // generate STOP and wait for it

  /** One Recv event per byte, in order. */
  function Recvs(bs: seq<byte>): (r: seq<Event>)
    ensures |r| == |bs|
    ensures forall k :: 0 <= k < |bs| ==> r[k] == Recv(bs[k])
  {
    if bs == [] then [] else Recvs(bs[..|bs| - 1]) + [Recv(bs[|bs| - 1])]
  }

  /** One Send event per byte, in order. */
  function Sends(bs: seq<byte>): (r: seq<Event>)
    ensures |r| == |bs|
    ensures forall k :: 0 <= k < |bs| ==> r[k] == Send(bs[k])
  {
    if bs == [] then [] else Sends(bs[..|bs| - 1]) + [Send(bs[|bs| - 1])]
  }

  lemma RecvsSnoc(bs: seq<byte>, b: byte)
    ensures Recvs(bs + [b]) == Recvs(bs) + [Recv(b)]
    ensures RecvPhase(bs + [b]) == Recvs(bs) + [AckOff, Recv(b)]
  {
    assert (bs + [b])[..|bs|] == bs;
  }

  lemma RecvPhaseOne(b: byte)
    ensures RecvPhase([b]) == [AckOff, Recv(b)]
  {
    assert [b][..0] == [];
  }

  /** The receive phase of a read: ACK is switched off just before the last byte is clocked in. */
  function RecvPhase(bs: seq<byte>): seq<Event>
  {
    if bs == [] then [] else Recvs(bs[..|bs| - 1]) + [AckOff, Recv(bs[|bs| - 1])]
  }

  /** Idle wait, START, address for writing, register offset, repeated START, address for reading. */
  function ReadPrefix(dev: byte, reg: byte): seq<Event>
  {
    [WaitIdle, Start, Addr(dev, Transmitter), Send(reg), Start, Addr(dev, Receiver)]
  }

  /** The complete event sequence of a register read that receives `bs`. */
  function ReadLog(dev: byte, reg: byte, bs: seq<byte>): (r: seq<Event>)
    ensures |r| == 8 + |bs| + (if bs == [] then 0 else 1)
    ensures r[..6] == ReadPrefix(dev, reg) && r[|r| - 2..] == [Stop, AckOn]
  {
    ReadPrefix(dev, reg) + RecvPhase(bs) + [Stop, AckOn]
  }

  /** The complete event sequence of a register write of `ds`. */
  function WriteLog(dev: byte, reg: byte, ds: seq<byte>): (r: seq<Event>)
    ensures |r| == 5 + |ds|
    ensures r[..4] == [WaitIdle, Start, Addr(dev, Transmitter), Send(reg)] && r[|r| - 1] == Stop
  {
    [WaitIdle, Start, Addr(dev, Transmitter), Send(reg)] + Sends(ds) + [Stop]
  }

  /**
    The positions of a read's events: the six-event prefix, one Recv per
    byte in order, AckOff immediately before the final Recv and nowhere
    else, then Stop and AckOn.
   */
  lemma ReadLogLayout(dev: byte, reg: byte, bs: seq<byte>)
    ensures var log := ReadLog(dev, reg, bs);
      && |log| == 8 + |bs| + (if bs == [] then 0 else 1)
      && log[..6] == ReadPrefix(dev, reg)
      && (forall k :: 0 <= k < |bs| - 1 ==> log[6 + k] == Recv(bs[k]))
      && (bs != [] ==> log[|log| - 4] == AckOff && log[|log| - 3] == Recv(bs[|bs| - 1]))
      && log[|log| - 2] == Stop && log[|log| - 1] == AckOn
  {
    var log := ReadLog(dev, reg, bs);
    var phase := RecvPhase(bs);
    assert log == ReadPrefix(dev, reg) + phase + [Stop, AckOn];
    assert log[..6] == ReadPrefix(dev, reg);
    forall k | 0 <= k < |bs| - 1
      ensures log[6 + k] == Recv(bs[k])
    {
      assert log[6 + k] == phase[k];
    }
  }

  lemma ReadPrefixQuiet(dev: byte, reg: byte)
    ensures multiset(ReadPrefix(dev, reg))[AckOff] == 0
    ensures multiset(ReadPrefix(dev, reg))[AckOn] == 0
    ensures multiset(ReadPrefix(dev, reg))[Stop] == 0
  {
    var prefix := ReadPrefix(dev, reg);
    assert AckOff !in prefix && AckOn !in prefix && Stop !in prefix;
  }

  lemma RecvsQuiet(bs: seq<byte>)
    ensures multiset(Recvs(bs))[AckOff] == 0 && multiset(Recvs(bs))[AckOn] == 0 && multiset(Recvs(bs))[Stop] == 0
  {
    var r := Recvs(bs);
    assert AckOff !in r && AckOn !in r && Stop !in r;
  }

  lemma RecvPhaseAcks(bs: seq<byte>)
    ensures multiset(RecvPhase(bs))[AckOff] == (if bs == [] then 0 else 1)
    ensures multiset(RecvPhase(bs))[AckOn] == 0
    ensures multiset(RecvPhase(bs))[Stop] == 0
  {
    if bs != [] {
      var init, b := bs[..|bs| - 1], bs[|bs| - 1];
      RecvsQuiet(init);
      assert init + [b] == bs;
      RecvsSnoc(init, b);
      var tail := multiset([AckOff, Recv(b)]);
      assert tail[AckOff] == 1 && tail[AckOn] == 0 && tail[Stop] == 0;
      assert multiset(RecvPhase(bs)) == multiset(Recvs(init)) + tail;
    }
  }

  /**
    A read NACKs exactly once when it receives at least one byte and never
    when it receives none; it re-enables ACK exactly once and ends with one
    STOP.
   */
  lemma ReadLogAcks(dev: byte, reg: byte, bs: seq<byte>)
    ensures multiset(ReadLog(dev, reg, bs))[AckOff] == (if bs == [] then 0 else 1)
    ensures multiset(ReadLog(dev, reg, bs))[AckOn] == 1
    ensures multiset(ReadLog(dev, reg, bs))[Stop] == 1
  {
    ReadPrefixQuiet(dev, reg);
    RecvPhaseAcks(bs);
    var tail := multiset([Stop, AckOn]);
    assert tail[AckOff] == 0 && tail[AckOn] == 1 && tail[Stop] == 1;
    assert multiset(ReadLog(dev, reg, bs)) == multiset(ReadPrefix(dev, reg)) + multiset(RecvPhase(bs)) + tail;
  }

  /**
    The positions of a write's events: the opening with the register offset,
    one Send per data byte in order, then Stop.
   */
  lemma WriteLogLayout(dev: byte, reg: byte, ds: seq<byte>)
    ensures var log := WriteLog(dev, reg, ds);
      && |log| == 5 + |ds|
      && log[..4] == [WaitIdle, Start, Addr(dev, Transmitter), Send(reg)]
      && (forall k :: 0 <= k < |ds| ==> log[4 + k] == Send(ds[k]))
      && log[|log| - 1] == Stop
  {
    var log := WriteLog(dev, reg, ds);
    assert log[..4] == [WaitIdle, Start, Addr(dev, Transmitter), Send(reg)];
    forall k | 0 <= k < |ds|
      ensures log[4 + k] == Send(ds[k])
    {
      assert log[4 + k] == Sends(ds)[k];
    }
  }

  /** A write never touches the ACK configuration and receives nothing. */
  lemma WriteLogLeavesAck(dev: byte, reg: byte, ds: seq<byte>)
    ensures AckOff !in WriteLog(dev, reg, ds) && AckOn !in WriteLog(dev, reg, ds)
    ensures forall e :: e in WriteLog(dev, reg, ds) ==> !e.Recv?
  {
    var log := WriteLog(dev, reg, ds);
    forall e | e in log
      ensures e != AckOff && e != AckOn && !e.Recv?
    {
      var k :| 0 <= k < |log| && log[k] == e;
      if 4 <= k < 4 + |ds| {
        assert log[k] == Sends(ds)[k - 4];
      }
    }
  }

  class Bus {
    const id: BusId
    /** incoming(k) is the k-th byte this bus clocks in since reset. */
    const incoming: nat -> byte
    var received: nat
    var log: seq<Event>

    constructor (id: BusId, incoming: nat -> byte)
      ensures this.id == id && this.incoming == incoming
      ensures received == 0 && log == []
    {
      this.id := id;
      this.incoming := incoming;
      received := 0;
      log := [];
    }

    /** The n bytes the bus will clock in starting with the from-th. */
    function Incoming(from: nat, n: nat): (bs: seq<byte>)
      ensures |bs| == n
      ensures forall k :: 0 <= k < n ==> bs[k] == incoming(from + k)
    {
      seq(n, k requires 0 <= k < n => incoming(from + k))
    }

    method Emit(e: Event)
      modifies this`log
      ensures log == old(log) + [e]
    {
      log := log + [e];
    }

    /** Wait for BYTE_RECEIVED, then I2C_ReceiveData. */
    method ReceiveData() returns (b: byte)
      modifies this`log, this`received
      ensures b == incoming(old(received)) && received == old(received) + 1
      ensures log == old(log) + [Recv(b)]
    {
      b := incoming(received);
      received := received + 1;
      log := log + [Recv(b)];
    }

    /** I2C_WaitForIdle. */
    method WaitForIdle()
      modifies this`log
      ensures log == old(log) + [WaitIdle]
    {
      Emit(WaitIdle);
    }

    /** I2C_Start: START, then the address with the direction bit; always reports success. */
    method StartTransfer(dev: byte, dir: Direction) returns (ok: byte)
      modifies this`log
      ensures ok == 1
      ensures log == old(log) + [Start, Addr(dev, dir)]
    {
      Emit(Start);
      Emit(Addr(dev, dir));
      ok := 1;
    }

    /** I2C_Stop. */
    method StopTransfer()
      modifies this`log
      ensures log == old(log) + [Stop]
    {
      Emit(Stop);
    }

    /** I2Cx_ReadByte: a one-byte read, NACKed. */
    method ReadByte(dev: byte, reg: byte) returns (data: byte)
      modifies this`log, this`received
      ensures data == incoming(old(received)) && received == old(received) + 1
      ensures log == old(log) + ReadLog(dev, reg, [data])
    {
      OpenRead(dev, reg);
      ghost var ready := log;
      Emit(AckOff);
      data := ReceiveData();
      RecvPhaseOne(data);
      assert log == ready + RecvPhase([data]);
      StopTransfer();
      Emit(AckOn);
      assert log == old(log) + ReadPrefix(dev, reg) + RecvPhase([data]) + [Stop, AckOn];
    }

    /** The opening shared by every read: idle wait, START, address for writing, register offset, repeated START, address for reading. */
    method OpenRead(dev: byte, reg: byte)
      modifies this`log
      ensures log == old(log) + ReadPrefix(dev, reg)
    {
      OpenWrite(dev, reg);
      Emit(Start);
      Emit(Addr(dev, Receiver));
    }

    /** The opening shared by every write: idle wait, START, address for writing, register offset. */
    method OpenWrite(dev: byte, reg: byte)
      modifies this`log
      ensures log == old(log) + [WaitIdle, Start, Addr(dev, Transmitter), Send(reg)]
    {
      WaitForIdle();
      var _ := StartTransfer(dev, Transmitter);
      Emit(Send(reg));
    }

    /** The receive loop of I2Cx_ReadBytes: ACK is switched off just before the last byte. */
    method ReceiveInto(buffer: array<byte>, length: u16)
      requires length <= buffer.Length
      modifies this`log, this`received, buffer
      ensures received == old(received) + length
      ensures buffer[..length] == Incoming(old(received), length)
      ensures forall k :: length <= k < buffer.Length ==> buffer[k] == old(buffer[k])
      ensures log == old(log) + RecvPhase(buffer[..length])
    {
      ghost var got: seq<byte> := [];
      var i := 0;
      while i < length
        invariant 0 <= i <= length && |got| == i
        invariant received == old(received) + i
        invariant got == Incoming(old(received), i)
        invariant buffer[..i] == got
        invariant forall k :: i <= k < buffer.Length ==> buffer[k] == old(buffer[k])
        invariant log == old(log) + (if i < length then Recvs(got) else RecvPhase(got))
      {
        if i == length - 1 {
          Emit(AckOff);
        }
        var b := ReceiveData();
        buffer[i] := b;
        RecvsSnoc(got, b);
        got := got + [b];
        i := i + 1;
      }
    }

    /** I2Cx_ReadBytes: fills buffer[0..length-1] with the bytes clocked in, NACKing the last. */
    method ReadBytes(dev: byte, reg: byte, buffer: array<byte>, length: u16)
      requires length <= buffer.Length
      modifies this`log, this`received, buffer
      ensures received == old(received) + length
      ensures buffer[..length] == Incoming(old(received), length)
      ensures buffer[length..] == old(buffer[length..])
      ensures log == old(log) + ReadLog(dev, reg, buffer[..length])
    {
      OpenRead(dev, reg);
      ReceiveInto(buffer, length);
      ghost var got := buffer[..length];
      assert log == old(log) + ReadPrefix(dev, reg) + RecvPhase(got);
      StopTransfer();
      Emit(AckOn);
      assert log == old(log) + ReadLog(dev, reg, got);
    }

    /** I2Cx_WriteByte: register offset then one data byte; ACK configuration untouched. */
    method WriteByte(dev: byte, reg: byte, data: byte)
      modifies this`log
      ensures log == old(log) + WriteLog(dev, reg, [data])
    {
      OpenWrite(dev, reg);
      Emit(Send(data));
      StopTransfer();
      assert Sends([data]) == [Send(data)];
    }

    /** I2Cx_WriteBytes: register offset then data[0..length-1] in index order. */
    method WriteBytes(dev: byte, reg: byte, data: array<byte>, length: u16)
      requires length <= data.Length
      modifies this`log
      ensures log == old(log) + WriteLog(dev, reg, data[..length])
    {
      OpenWrite(dev, reg);
      ghost var before := log;
      var i := 0;
      while i < length
        invariant 0 <= i <= length
        invariant log == before + Sends(data[..i])
      {
        Emit(Send(data[i]));
        assert data[..i + 1][..i] == data[..i];
        i := i + 1;
      }
      StopTransfer();
    }
  }
}
