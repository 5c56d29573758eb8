/**
  The packet link of DRIVER/UART2.c: an XOR checksum, the packet sender,
  the byte-at-a-time reassembly done by the receive interrupt, and the call
  that drains a reassembled packet into a caller's struct.

  The receiver is specified twice: as a pure state machine (`RxState`,
  `Step`, `Feed`, `Drain`) about which the link's properties are proved, and
  as the class `Port`, whose methods change the driver's buffer, index and
  flag in place and are proved to follow that state machine.
 */
module Uart2 {
  import opened CTypes

  /** The byte that opens every packet. */
  const START_BYTE: byte := 0xAA
  /** UART2_RX_BUFFER_SIZE */
  const RX_BUFFER_SIZE: nat := 256
  /** Capacity of Packet_t.data. */
  const DATA_SIZE: nat := 64
  /** sizeof(Packet_t): start, type, length, data[64], checksum, one byte each. */
  const PACKET_SIZE: nat := 68
  /** Offset of Packet_t.checksum. */
  const CHECKSUM_OFFSET: nat := 67

  // ---------------------------------------------------------------------
  // Checksum
  // ---------------------------------------------------------------------

  /** The exclusive or of all bytes of `s`, folded from the left starting with 0. */
  function XorAll(s: seq<byte>): (r: byte)
    ensures s == [] ==> r == 0
    ensures |s| == 1 ==> r == s[0]
  {
    if s == [] then 0
    else
      var rest, x := XorAll(s[..|s| - 1]), s[|s| - 1];
      XorZero(x);
      Xor(rest, x)
  }

  lemma XorAllOne(x: byte)
    ensures XorAll([x]) == x
  {
    assert [x][..0] == [];
    XorZero(x);
  }

  /** The checksum of a concatenation combines the checksums of the parts. */
  lemma {:induction false} XorAllAppend(a: seq<byte>, b: seq<byte>)
    ensures XorAll(a + b) == Xor(XorAll(a), XorAll(b))
    decreases |b|
  {
    if b == [] {
      assert a + b == a;
      XorZero(XorAll(a));
    } else {
      var b' := b[..|b| - 1];
      var x := b[|b| - 1];
      assert (a + b)[..|a + b| - 1] == a + b';
      XorAllAppend(a, b');
      XorAssociates(XorAll(a), XorAll(b'), x);
    }
  }

  /** Changing any single byte changes the checksum. */
  lemma XorAllSingleChange(s: seq<byte>, j: nat, v: byte)
    requires j < |s| && v != s[j]
    ensures XorAll(s[j := v]) != XorAll(s)
  {
    var a, c := s[..j], s[j + 1..];
    assert s == a + [s[j]] + c;
    assert s[j := v] == a + [v] + c;
    XorAllAppend(a + [s[j]], c);
    XorAllAppend(a + [v], c);
    XorAllAppend(a, [s[j]]);
    XorAllAppend(a, [v]);
    XorAllOne(s[j]);
    XorAllOne(v);
    if XorAll(s[j := v]) == XorAll(s) {
      XorCancel(Xor(XorAll(a), v), Xor(XorAll(a), s[j]), XorAll(c));
      XorCommutes(XorAll(a), v);
      XorCommutes(XorAll(a), s[j]);
      XorCancel(v, s[j], XorAll(a));
      assert false;
    }
  }

  /**
    CalculateChecksum: the exclusive or of the `length` bytes that start at
    `data[from]` (a pointer into an array is the array and an offset).
   */
  method CalculateChecksum(data: array<byte>, from: nat, length: u16) returns (checksum: byte)
    requires from + length <= data.Length
    ensures checksum == XorAll(data[from..from + length])
  {
    checksum := 0;
    var i := 0;
    while i < length
      invariant 0 <= i <= length
      invariant checksum == XorAll(data[from..from + i])
    {
      assert data[from..from + i + 1][..i] == data[from..from + i];
      checksum := Xor(checksum, data[from + i]);
      i := i + 1;
    }
  }

  // ---------------------------------------------------------------------
  // Packet_t and what goes on the wire
  // ---------------------------------------------------------------------

  /** Packet_t, as the 68 bytes of its memory: start, type, length, data[0..63], checksum. */
  class Packet {
    const bytes: array<byte>

    constructor (contents: seq<byte>)
      requires |contents| == PACKET_SIZE
      ensures Valid() && fresh(bytes) && bytes[..] == contents
    {
      bytes := new byte[PACKET_SIZE](i requires 0 <= i < PACKET_SIZE => contents[i]);
    }

    predicate Valid()
      reads this
    {
      bytes.Length == PACKET_SIZE
    }
  }

  /** The frame a correct sender transmits for a packet of type `kind` carrying `payload`. */
  function Frame(kind: byte, payload: seq<byte>): seq<byte>
    requires |payload| <= DATA_SIZE
  {
    [START_BYTE, kind, |payload|] + payload + [XorAll([kind, |payload|] + payload)]
  }

  /** A struct image with the checksum that UART2_SendPacket stores: XOR of type, length and data[0..length-1]. */
  function WithChecksum(st: seq<byte>): (r: seq<byte>)
    requires |st| == PACKET_SIZE && st[2] <= DATA_SIZE
    ensures |r| == PACKET_SIZE && r[..CHECKSUM_OFFSET] == st[..CHECKSUM_OFFSET]
    ensures r[CHECKSUM_OFFSET] == XorAll(st[1..st[2] + 3])
  {
    st[CHECKSUM_OFFSET := XorAll(st[1..st[2] + 3])]
  }

  /** The bytes UART2_SendPacket puts on the wire: the first length+4 bytes of the struct. */
  function WireAsWritten(st: seq<byte>): (w: seq<byte>)
    requires |st| == PACKET_SIZE && st[2] <= DATA_SIZE
    ensures |w| == st[2] + 4
    ensures w[..st[2] + 3] == st[..st[2] + 3]
    ensures st[2] < DATA_SIZE ==> w[st[2] + 3] == st[st[2] + 3]
    ensures st[2] == DATA_SIZE ==> w[st[2] + 3] == XorAll(st[1..st[2] + 3])
  {
    WithChecksum(st)[..st[2] + 4]
  }

  /** The bytes a sender that ends the frame with the checksum puts on the wire. */
  function FramedWire(st: seq<byte>): (w: seq<byte>)
    requires |st| == PACKET_SIZE && st[2] <= DATA_SIZE
    ensures |w| == st[2] + 4
    ensures w[..st[2] + 3] == st[..st[2] + 3]
    ensures Xor(XorAll(w[1..st[2] + 3]), w[st[2] + 3]) == 0
  {
    var w := st[..st[2] + 3] + [XorAll(st[1..st[2] + 3])];
    assert w[1..st[2] + 3] == st[1..st[2] + 3];
    XorSelf(XorAll(st[1..st[2] + 3]));
    w
  }

  /** The corrected sender transmits exactly the frame of the struct's type and payload. */
  lemma FramedWireIsFrame(st: seq<byte>)
    requires |st| == PACKET_SIZE && st[2] <= DATA_SIZE && st[0] == START_BYTE
    ensures FramedWire(st) == Frame(st[1], st[3..st[2] + 3])
  {
    var n := st[2];
    assert st[1..n + 3] == [st[1], n] + st[3..n + 3];
    assert st[..n + 3] == [START_BYTE, st[1], n] + st[3..n + 3];
  }

  /**
    UART2_SendPacket's last byte on the wire is the struct byte at offset
    length+3: data[length] when length < 64, the checksum only when
    length == 64.
   */
  lemma WireAsWrittenLastByte(st: seq<byte>)
    requires |st| == PACKET_SIZE && st[2] <= DATA_SIZE
    ensures WireAsWritten(st)[..st[2] + 3] == FramedWire(st)[..st[2] + 3]
    ensures st[2] < DATA_SIZE ==> WireAsWritten(st)[st[2] + 3] == st[3 + st[2]]
    ensures st[2] == DATA_SIZE ==> WireAsWritten(st)[st[2] + 3] == XorAll(st[1..st[2] + 3])
  {
  }

  /** UART2_SendPacket transmits a correctly framed packet if and only if length is 64 or data[length] happens to equal the checksum. */
  lemma WireAsWrittenFramedIff(st: seq<byte>)
    requires |st| == PACKET_SIZE && st[2] <= DATA_SIZE
    ensures WireAsWritten(st) == FramedWire(st) <==> st[2] == DATA_SIZE || st[st[2] + 3] == XorAll(st[1..st[2] + 3])
  {
    var n := st[2];
    var w, fw := WireAsWritten(st), FramedWire(st);
    WireAsWrittenLastByte(st);
    assert w == w[..n + 3] + [w[n + 3]];
    assert fw == fw[..n + 3] + [fw[n + 3]];
    assert fw[n + 3] == XorAll(st[1..n + 3]);
  }

  lemma XorAllExamplePacket()
    ensures XorAll([1, 2, 4, 8]) == 0x0F
  {
    XorAllAppend([1, 2], [4, 8]);
    XorAllAppend([1], [2]);
    XorAllAppend([4], [8]);
    XorAllOne(1);
    XorAllOne(2);
    XorAllOne(4);
    XorAllOne(8);
    assert [1, 2] + [4, 8] == [1, 2, 4, 8];
    assert Xor(1, 2) == 3;
    assert Xor(4, 8) == 12;
    assert Xor(3, 12) == 0x0F;
  }

  /**
    A packet of type 1 carrying 0x04, 0x08 whose data[2] is 0: UART2_SendPacket
    ends the wire with 0x00 where the checksum 0x0F belongs.
   */
  lemma WireAsWrittenMissesChecksum(st: seq<byte>)
    requires |st| == PACKET_SIZE && st[..6] == [START_BYTE, 1, 2, 4, 8, 0]
    ensures WireAsWritten(st) == [START_BYTE, 1, 2, 4, 8, 0]
    ensures FramedWire(st) == [START_BYTE, 1, 2, 4, 8, 0x0F]
  {
    assert st[2] == st[..6][2] && st[5] == st[..6][5];
    assert st[..5] == [START_BYTE, 1, 2, 4, 8] by {
      assert st[..5] == st[..6][..5];
    }
    ExampleWireAsWritten(st, WireAsWritten(st));
    ExampleFramedWire(st, FramedWire(st));
  }

  lemma ExampleWireAsWritten(st: seq<byte>, w: seq<byte>)
    requires |st| == PACKET_SIZE && st[2] == 2 && st[5] == 0 && st[..5] == [START_BYTE, 1, 2, 4, 8]
    requires |w| == 6 && w[..5] == st[..5] && w[5] == st[5]
    ensures w == [START_BYTE, 1, 2, 4, 8, 0]
  {
    assert w == w[..5] + [w[5]];
  }

  lemma ExampleFramedWire(st: seq<byte>, w: seq<byte>)
    requires |st| == PACKET_SIZE && st[2] == 2 && st[..5] == [START_BYTE, 1, 2, 4, 8]
    requires |w| == 6 && w[..5] == st[..5] && Xor(XorAll(w[1..5]), w[5]) == 0
    ensures w == [START_BYTE, 1, 2, 4, 8, 0x0F]
  {
    assert w[1..5] == [1, 2, 4, 8] by {
      assert w[1..5] == w[..5][1..5];
    }
    XorAllExamplePacket();
    XorSelf(0x0F);
    XorCommutes(0x0F, w[5]);
    XorCommutes(0x0F, 0x0F);
    XorCancel(w[5], 0x0F, 0x0F);
    assert w == w[..5] + [w[5]];
  }

  // ---------------------------------------------------------------------
  // Receiver state machine (g_rxBuffer, g_rxIndex, g_rxFlag)
  // ---------------------------------------------------------------------

  datatype RxState = RxState(buf: seq<byte>, index: nat, flag: bool)

  /** The buffer holds 256 bytes and the index never passes its end. */
  predicate ValidRx(s: RxState)
  {
    |s.buf| == RX_BUFFER_SIZE && s.index <= RX_BUFFER_SIZE
  }

  /**
    USART2_IRQHandler on one received byte: the start byte rewinds the index;
    the byte is stored while there is room; the flag is raised when the
    index has reached the length byte plus four, and is never lowered here.
   */
  function Step(s: RxState, b: byte): (t: RxState)
    requires ValidRx(s)
    ensures ValidRx(t)
  {
    var i := if b == START_BYTE then 0 else s.index;
    var buf := if i < RX_BUFFER_SIZE then s.buf[i := b] else s.buf;
    var j := if i < RX_BUFFER_SIZE then i + 1 else i;
    RxState(buf, j, s.flag || (j >= 4 && buf[2] as int + 4 == j))
  }

  /** The interrupt handler run on each byte of `bs` in turn. */
  function Feed(s: RxState, bs: seq<byte>): (t: RxState)
    requires ValidRx(s)
    ensures ValidRx(t)
  {
    if bs == [] then s else Step(Feed(s, bs[..|bs| - 1]), bs[|bs| - 1])
  }

  /** Once raised, the flag stays raised however many bytes arrive; the index grows by at most one per byte. */
  lemma {:induction false} FeedKeepsFlag(s: RxState, bs: seq<byte>)
    requires ValidRx(s)
    ensures s.flag ==> Feed(s, bs).flag
    ensures Feed(s, bs).index <= s.index + |bs|
    decreases |bs|
  {
    if bs != [] {
      FeedKeepsFlag(s, bs[..|bs| - 1]);
    }
  }

  /**
    What one interrupt does: a start byte always lands at buf[0] with the
    index at 1; any other byte lands at buf[index] only while index < 256;
    no other cell changes; the flag is never cleared and is set exactly
    when the new index is at least 4 and equals buf[2] + 4.
   */
  lemma StepEffect(s: RxState, b: byte)
    requires ValidRx(s)
    ensures var t := Step(s, b);
      && (b == START_BYTE ==> t.index == 1 && t.buf[0] == START_BYTE)
      && (b != START_BYTE && s.index < RX_BUFFER_SIZE ==> t.index == s.index + 1 && t.buf[s.index] == b)
      && (b != START_BYTE && s.index == RX_BUFFER_SIZE ==> t.index == s.index && t.buf == s.buf)
      && (forall k :: 0 <= k < RX_BUFFER_SIZE && k != (if b == START_BYTE then 0 else s.index) ==> t.buf[k] == s.buf[k])
      && (s.flag ==> t.flag)
      && (t.flag <==> s.flag || (t.index >= 4 && t.buf[2] as int + 4 == t.index))
  {
  }

  /**
    A burst is a start byte followed by bytes other than the start byte,
    at most as many as the buffer holds.
   */
  predicate IsBurst(bs: seq<byte>)
  {
    1 <= |bs| <= RX_BUFFER_SIZE && bs[0] == START_BYTE
    && forall j :: 1 <= j < |bs| ==> bs[j] != START_BYTE
  }

  /**
    Feeding a burst from any receiver state leaves the burst at the front of
    the buffer and the rest of the buffer as it was, the index just past
    the burst, and the flag raised if it was already raised or once the
    burst reaches its length byte plus four bytes.
   */
  lemma {:induction false} FeedBurst(s: RxState, bs: seq<byte>)
    requires ValidRx(s) && IsBurst(bs)
    ensures Feed(s, bs) == RxState(bs + s.buf[|bs|..], |bs|, s.flag || (|bs| >= 3 && bs[2] + 4 <= |bs|))
    decreases |bs|
  {
    if |bs| == 1 {
      assert bs[..0] == [];
    } else {
      var init := bs[..|bs| - 1];
      assert IsBurst(init);
      FeedBurst(s, init);
      var t := Feed(s, init);
      var b := bs[|bs| - 1];
      assert t.buf[|init| := b] == bs + s.buf[|bs|..];
    }
  }

  /** A frame as the IRQ sees it: a burst whose length byte agrees with its size. */
  predicate IsFrameBurst(f: seq<byte>)
  {
    IsBurst(f) && |f| >= 4 && f[2] as int + 4 == |f|
  }

  /**
    Feeding a frame from any receiver state raises the flag on its last
    byte and leaves the frame at the front of the buffer.
   */
  lemma FrameRaisesFlag(s: RxState, f: seq<byte>)
    requires ValidRx(s) && IsFrameBurst(f)
    ensures Feed(s, f).flag && Feed(s, f).index == |f| && Feed(s, f).buf[..|f|] == f
  {
    FeedBurst(s, f);
  }

  /** While a frame is being fed, the flag keeps its old value until the frame's last byte. */
  lemma FrameFlagNotBefore(s: RxState, f: seq<byte>, k: nat)
    requires ValidRx(s) && IsFrameBurst(f) && 1 <= k < |f|
    ensures Feed(s, f[..k]).flag == s.flag
  {
    assert IsBurst(f[..k]);
    FeedBurst(s, f[..k]);
  }

  /** The frame a correct sender emits is a frame burst when no byte after the start byte is 0xAA. */
  lemma FrameIsBurst(kind: byte, payload: seq<byte>)
    requires |payload| <= DATA_SIZE
    requires forall j :: 1 <= j < |payload| + 4 ==> Frame(kind, payload)[j] != START_BYTE
    ensures IsFrameBurst(Frame(kind, payload))
  {
  }

  // ---------------------------------------------------------------------
  // Draining a packet (UART2_ReceivePacket)
  // ---------------------------------------------------------------------

  /**
    The struct image after the copy: start, type, length and payload from
    the buffer, data[length..63] as they were, and buf[3+length] as the
    checksum.
   */
  function Copied(buf: seq<byte>, st: seq<byte>): (c: seq<byte>)
    requires |buf| == RX_BUFFER_SIZE && |st| == PACKET_SIZE && buf[2] <= DATA_SIZE
    ensures |c| == PACKET_SIZE
    ensures forall j :: 0 <= j < PACKET_SIZE ==>
      c[j] == if j == CHECKSUM_OFFSET then buf[buf[2] + 3] else if j < buf[2] + 3 then buf[j] else st[j]
  {
    buf[..buf[2] + 3] + st[buf[2] + 3..CHECKSUM_OFFSET] + [buf[buf[2] + 3]]
  }

  datatype Drained = Drained(ok: bool, packet: seq<byte>, rx: RxState)

  /**
    UART2_ReceivePacket on receiver state `s` and struct image `st`, with a
    length above 64 rejected before anything is copied. Otherwise start,
    type, length, data[0..length-1] and the checksum byte buf[3+length] are
    copied, data[length..63] keep their old contents, and the call succeeds
    when that checksum equals the XOR of type, length and payload. The flag
    is cleared whenever it was set.
   */
  function Drain(s: RxState, st: seq<byte>): (d: Drained)
    requires ValidRx(s) && |st| == PACKET_SIZE
    ensures |d.packet| == PACKET_SIZE
    ensures d.rx == s.(flag := false)
    ensures !s.flag || s.buf[2] > DATA_SIZE ==> !d.ok && d.packet == st
    ensures s.flag && s.buf[2] <= DATA_SIZE ==>
      && d.packet[..s.buf[2] + 3] == s.buf[..s.buf[2] + 3]
      && d.packet[s.buf[2] + 3..CHECKSUM_OFFSET] == st[s.buf[2] + 3..CHECKSUM_OFFSET]
      && d.packet[CHECKSUM_OFFSET] == s.buf[s.buf[2] + 3]
      && (d.ok <==> XorAll(d.packet[1..d.packet[2] + 3]) == d.packet[CHECKSUM_OFFSET])
  {
    if !s.flag then Drained(false, st, s)
    else
      var n := s.buf[2];
      if n > DATA_SIZE then Drained(false, st, s.(flag := false))
      else
        var p := Copied(s.buf, st);
        assert p == s.buf[..n + 3] + st[n + 3..CHECKSUM_OFFSET] + [s.buf[n + 3]];
        assert p[1..n + 3] == s.buf[1..n + 3];
        Drained(XorAll(s.buf[1..n + 3]) == s.buf[n + 3], p, s.(flag := false))
  }

  /**
    With the flag raised and a length of at most 64, the drain succeeds
    exactly when buf[3+length] is the XOR of type, length and payload.
   */
  lemma DrainAcceptsIff(s: RxState, st: seq<byte>)
    requires ValidRx(s) && |st| == PACKET_SIZE && s.flag && s.buf[2] <= DATA_SIZE
    ensures Drain(s, st).ok <==> XorAll(s.buf[1..s.buf[2] + 3]) == s.buf[s.buf[2] + 3]
  {
    var d := Drain(s, st);
    var n := s.buf[2];
    assert d.packet[1..n + 3] == s.buf[1..n + 3] by {
      assert d.packet[..n + 3] == s.buf[..n + 3];
    }
  }

  /** With the flag raised and a length of at most 64, the drained struct holds start, type, length, payload and checksum byte of the buffer. */
  lemma DrainedFields(s: RxState, st: seq<byte>)
    requires ValidRx(s) && |st| == PACKET_SIZE && s.flag && s.buf[2] <= DATA_SIZE
    ensures var d := Drain(s, st);
      && d.packet[0] == s.buf[0]
      && d.packet[1..s.buf[2] + 3] == s.buf[1..s.buf[2] + 3]
      && d.packet[CHECKSUM_OFFSET] == s.buf[s.buf[2] + 3]
  {
    var d := Drain(s, st);
    var n := s.buf[2];
    SliceOfPrefix(d.packet, s.buf[..n + 3], 1, n + 3);
    SliceOfPrefix(s.buf, s.buf[..n + 3], 1, n + 3);
  }

  /**
    The first `k` rounds of the copy in UART2_ReceivePacket as written, with
    no bound on the length. `rx` is g_rxBuffer followed by whatever memory
    lies after it, `mem` the 68-byte struct image followed by whatever
    memory lies after it. Start, type and length land at offsets 0..2 and
    round i puts rx[3+i] at offset 3+i; nothing else changes.
   */
  function CopyRoundsAsWritten(rx: seq<byte>, mem: seq<byte>, k: nat): (m: seq<byte>)
    requires |rx| >= 3 && |rx| >= rx[2] as int + 4 && |mem| >= PACKET_SIZE && |mem| >= rx[2] as int + 3 && k <= rx[2]
    ensures |m| == |mem|
    ensures forall j :: 0 <= j < |m| ==> m[j] == if j < k + 3 then rx[j] else mem[j]
    decreases k
  {
    if k == 0 then mem[0 := rx[0]][1 := rx[1]][2 := rx[2]]
    else CopyRoundsAsWritten(rx, mem, k - 1)[k + 2 := rx[k + 2]]
  }

  /**
    The whole copy as written: all `length` rounds, then rx[3+length]
    stored into the checksum field at offset 67.
   */
  function CopyAsWritten(rx: seq<byte>, mem: seq<byte>): (m: seq<byte>)
    requires |rx| >= 3 && |rx| >= rx[2] as int + 4 && |mem| >= PACKET_SIZE && |mem| >= rx[2] as int + 3
    ensures |m| == |mem|
    ensures m[CHECKSUM_OFFSET] == rx[rx[2] as int + 3]
    ensures forall j :: 0 <= j < |m| && j != CHECKSUM_OFFSET ==> m[j] == if j < rx[2] as int + 3 then rx[j] else mem[j]
  {
    CopyRoundsAsWritten(rx, mem, rx[2])[CHECKSUM_OFFSET := rx[rx[2] as int + 3]]
  }

  /** Up to a length of 64 the unbounded copy is exactly the corrected one and stays in the struct. */
  lemma CopyAgreesInRange(buf: seq<byte>, st: seq<byte>)
    requires |buf| == RX_BUFFER_SIZE && |st| == PACKET_SIZE && buf[2] <= DATA_SIZE
    ensures CopyAsWritten(buf, st) == Copied(buf, st)
  {
  }

  /**
    A well-formed burst announcing 65 to 252 payload bytes raises the flag,
    and the copy as written then runs past data[63]: with length 65 its last
    round puts payload byte 65 into the checksum field (before the checksum
    store replaces it), and with length 66 or more it writes the frame's
    byte 68 into the first byte after the 68-byte struct, whatever was there.
   */
  lemma OversizeFrameOverflows(s: RxState, f: seq<byte>, mem: seq<byte>)
    requires ValidRx(s) && IsFrameBurst(f) && f[2] > DATA_SIZE
    requires |mem| >= PACKET_SIZE && |mem| >= f[2] + 3
    ensures Feed(s, f).flag && Feed(s, f).buf[2] == f[2]
    ensures f[2] == DATA_SIZE + 1 ==>
      CopyRoundsAsWritten(Feed(s, f).buf, mem, f[2])[CHECKSUM_OFFSET] == f[CHECKSUM_OFFSET]
    ensures f[2] > DATA_SIZE + 1 ==> CopyAsWritten(Feed(s, f).buf, mem)[PACKET_SIZE] == f[PACKET_SIZE]
    ensures f[2] > DATA_SIZE + 1 && mem[PACKET_SIZE] != f[PACKET_SIZE] ==>
      CopyAsWritten(Feed(s, f).buf, mem)[PACKET_SIZE] != mem[PACKET_SIZE]
  {
    FrameRaisesFlag(s, f);
    var buf := Feed(s, f).buf;
    assert buf[CHECKSUM_OFFSET] == f[CHECKSUM_OFFSET] && buf[2] == f[2];
    if f[2] > DATA_SIZE + 1 {
      assert buf[PACKET_SIZE] == f[PACKET_SIZE];
    }
    CopyPastData(buf, mem);
  }

  lemma CopyPastData(buf: seq<byte>, mem: seq<byte>)
    requires |buf| == RX_BUFFER_SIZE && DATA_SIZE < buf[2] as int <= RX_BUFFER_SIZE - 4
    requires |mem| >= PACKET_SIZE && |mem| >= buf[2] as int + 3
    ensures buf[2] == DATA_SIZE + 1 ==> CopyRoundsAsWritten(buf, mem, buf[2])[CHECKSUM_OFFSET] == buf[CHECKSUM_OFFSET]
    ensures buf[2] > DATA_SIZE + 1 ==> CopyAsWritten(buf, mem)[PACKET_SIZE] == buf[PACKET_SIZE]
  {
  }

  /** Such a frame exists: 0xAA, type 1, length 65, 65 zero bytes and a checksum byte. */
  lemma OversizeFrameExists()
    ensures IsFrameBurst([START_BYTE, 1, 65] + seq(65, _ => 0) + [0x40])
  {
  }

  /**
    The corrected drain rejects an oversize length and leaves the struct
    untouched; every accepted packet lies within the struct.
   */
  lemma DrainStaysInStruct(s: RxState, st: seq<byte>)
    requires ValidRx(s) && |st| == PACKET_SIZE
    ensures Drain(s, st).ok ==> s.buf[2] <= DATA_SIZE
    ensures s.buf[2] > DATA_SIZE ==> Drain(s, st).packet == st
  {
  }

  /** The fields of a frame, by position. */
  lemma FrameShape(kind: byte, payload: seq<byte>)
    requires |payload| <= DATA_SIZE
    ensures var f := Frame(kind, payload);
      && |f| == |payload| + 4 && f[0] == START_BYTE && f[2] == |payload|
      && f[1..|payload| + 3] == [kind, |payload|] + payload
      && f[|payload| + 3] == XorAll([kind, |payload|] + payload)
  {
    var f := Frame(kind, payload);
    assert f[1..|payload| + 3] == [kind, |payload|] + payload;
  }

  lemma SliceOfPrefix(a: seq<byte>, b: seq<byte>, lo: nat, hi: nat)
    requires |b| <= |a| && a[..|b|] == b && lo <= hi <= |b|
    ensures a[lo..hi] == b[lo..hi]
  {
    forall i | 0 <= i < hi - lo
      ensures a[lo..hi][i] == b[lo..hi][i]
    {
      assert b[lo + i] == a[..|b|][lo + i];
    }
  }

  /** What the receiver holds after a correctly framed packet. */
  lemma FrameReceived(s: RxState, kind: byte, payload: seq<byte>)
    requires ValidRx(s) && |payload| <= DATA_SIZE
    requires forall j :: 1 <= j < |payload| + 4 ==> Frame(kind, payload)[j] != START_BYTE
    ensures var r := Feed(s, Frame(kind, payload));
      && r.flag && r.buf[0] == START_BYTE && r.buf[2] == |payload|
      && r.buf[1..|payload| + 3] == [kind, |payload|] + payload
      && r.buf[|payload| + 3] == XorAll([kind, |payload|] + payload)
  {
    var f := Frame(kind, payload);
    var n := |payload|;
    FrameShape(kind, payload);
    FrameIsBurst(kind, payload);
    FrameRaisesFlag(s, f);
    var r := Feed(s, f);
    SliceOfPrefix(r.buf, f, 1, n + 3);
    assert r.buf[n + 3] == f[n + 3] && r.buf[0] == f[0] && r.buf[2] == f[2] by {
      assert r.buf[..n + 4] == f;
    }
  }

  /**
    End to end: a frame emitted by the corrected sender, fed from any
    receiver state, is drained successfully into any struct, with its type,
    length, payload and checksum.
   */
  lemma FrameDelivered(s: RxState, kind: byte, payload: seq<byte>, st: seq<byte>)
    requires ValidRx(s) && |st| == PACKET_SIZE && |payload| <= DATA_SIZE
    requires forall j :: 1 <= j < |payload| + 4 ==> Frame(kind, payload)[j] != START_BYTE
    ensures var d := Drain(Feed(s, Frame(kind, payload)), st);
      && d.ok
      && d.packet[0] == START_BYTE && d.packet[1] == kind && d.packet[2] == |payload|
      && d.packet[3..3 + |payload|] == payload
      && d.packet[CHECKSUM_OFFSET] == XorAll([kind, |payload|] + payload)
  {
    var n := |payload|;
    var r := Feed(s, Frame(kind, payload));
    FrameReceived(s, kind, payload);
    DrainAcceptsIff(r, st);
    DrainedFields(r, st);
    var d := Drain(r, st);
    assert d.packet[1..n + 3] == [kind, n] + payload;
    assert d.packet[3..3 + n] == d.packet[1..n + 3][2..];
  }

  /** A frame with its type, one payload byte or its checksum changed no longer carries a matching checksum. */
  lemma CorruptedFrameMismatch(kind: byte, payload: seq<byte>, j: nat, v: byte)
    requires |payload| <= DATA_SIZE
    requires 1 <= j < |payload| + 4 && j != 2 && v != Frame(kind, payload)[j]
    ensures var g := Frame(kind, payload)[j := v];
      XorAll(g[1..|payload| + 3]) != g[|payload| + 3]
  {
    var f := Frame(kind, payload);
    var g := f[j := v];
    var n := |payload|;
    var body := f[1..n + 3];
    assert body == [kind, n] + payload;
    assert f[n + 3] == XorAll(body);
    if j < n + 3 {
      assert g[1..n + 3] == body[j - 1 := v];
      XorAllSingleChange(body, j - 1, v);
    } else {
      assert g[1..n + 3] == body;
    }
  }

  /**
    Corrupting the type, one payload byte or the checksum of a frame into
    any byte other than 0xAA makes the drain reject it.
   */
  lemma SingleCorruptionRejected(s: RxState, kind: byte, payload: seq<byte>, st: seq<byte>, j: nat, v: byte)
    requires ValidRx(s) && |st| == PACKET_SIZE && |payload| <= DATA_SIZE
    requires forall k :: 1 <= k < |payload| + 4 ==> Frame(kind, payload)[k] != START_BYTE
    requires 1 <= j < |payload| + 4 && j != 2 && v != START_BYTE && v != Frame(kind, payload)[j]
    ensures !Drain(Feed(s, Frame(kind, payload)[j := v]), st).ok
  {
    var g := Frame(kind, payload)[j := v];
    var n := |payload|;
    CorruptedFrameIsBurst(kind, payload, j, v);
    FrameRaisesFlag(s, g);
    var r := Feed(s, g);
    SliceOfPrefix(r.buf, g, 1, n + 3);
    assert r.buf[n + 3] == g[n + 3] && r.buf[2] == g[2] by {
      assert r.buf[..n + 4] == g;
    }
    CorruptedFrameMismatch(kind, payload, j, v);
    DrainAcceptsIff(r, st);
  }

  lemma CorruptedFrameIsBurst(kind: byte, payload: seq<byte>, j: nat, v: byte)
    requires |payload| <= DATA_SIZE
    requires forall k :: 1 <= k < |payload| + 4 ==> Frame(kind, payload)[k] != START_BYTE
    requires 1 <= j < |payload| + 4 && j != 2 && v != START_BYTE
    ensures IsFrameBurst(Frame(kind, payload)[j := v])
  {
    var f := Frame(kind, payload);
    var g := f[j := v];
    forall k | 1 <= k < |g|
      ensures g[k] != START_BYTE
    {
      assert g[k] == v || g[k] == f[k];
    }
  }

  lemma XorAllExampleFrame()
    ensures XorAll([1, 2, 0, 0]) == 3
  {
    XorAllAppend([1, 2], [0, 0]);
    XorAllAppend([1], [2]);
    XorAllAppend([0], [0]);
    XorAllOne(1);
    XorAllOne(2);
    XorAllOne(0);
    assert [1, 2] + [0, 0] == [1, 2, 0, 0];
    assert Xor(1, 2) == 3;
    XorZero(0);
    XorZero(3);
  }

  lemma XorAllExampleCorrupted()
    ensures XorAll([1, 1, 0]) == 0
  {
    XorAllAppend([1, 1], [0]);
    XorAllAppend([1], [1]);
    XorAllOne(1);
    XorAllOne(0);
    assert [1, 1] + [0] == [1, 1, 0];
    XorSelf(1);
    XorZero(0);
  }

  /** The frame of a packet of type 1 carrying two zero bytes. */
  lemma ExampleFrame()
    ensures Frame(1, [0, 0]) == [START_BYTE, 1, 2, 0, 0, 3]
  {
    var body: seq<byte> := [1, 2, 0, 0];
    assert [1, 2] + [0, 0] == body;
    XorAllExampleFrame();
  }

  /** A buffer starting AA 01 01 00 00 announces one payload byte, and its checksum byte matches. */
  lemma CorruptedBufferChecks(buf: seq<byte>)
    requires |buf| >= 6 && buf[..6] == [START_BYTE, 1, 1, 0, 0, 3]
    ensures buf[1] == 1 && buf[2] == 1 && buf[3] == 0
    ensures XorAll(buf[1..4]) == buf[4]
  {
    assert buf[1] == buf[..6][1] && buf[2] == buf[..6][2];
    assert buf[3] == buf[..6][3] && buf[4] == buf[..6][4];
    assert buf[1..4] == [buf[1], buf[2], buf[3]];
    XorAllExampleCorrupted();
  }

  /**
    Corrupting the length byte is not detected: the frame of ExampleFrame
    received with its length byte turned into 01 is drained successfully as
    a packet of type 1 carrying the single byte 00.
   */
  lemma LengthCorruptionAccepted(s: RxState, st: seq<byte>)
    requires ValidRx(s) && |st| == PACKET_SIZE
    ensures var d := Drain(Feed(s, [START_BYTE, 1, 1, 0, 0, 3]), st);
      d.ok && d.packet[1] == 1 && d.packet[2] == 1 && d.packet[3] == 0
  {
    var g: seq<byte> := [START_BYTE, 1, 1, 0, 0, 3];
    assert IsBurst(g);
    FeedBurst(s, g);
    var r := Feed(s, g);
    assert r.flag && r.buf[..6] == g;
    CorruptedBufferChecks(r.buf);
    DrainAcceptsIff(r, st);
    DrainedFields(r, st);
  }

  // ---------------------------------------------------------------------
  // The driver's state and calls
  // ---------------------------------------------------------------------

  /** The module state of DRIVER/UART2.c and the bytes it has written to the transmit line. */
  class Port {
    /** g_rxBuffer */
    const rxBuffer: array<byte>
    /** g_rxIndex */
    var rxIndex: nat
    /** g_rxFlag */
    var rxFlag: bool
    /** Every byte handed to USART_SendData so far. */
    var tx: seq<byte>

    /** The state after reset: zeroed buffer, index 0, flag clear, nothing sent. */
    constructor ()
      ensures Valid() && fresh(rxBuffer)
      ensures Receiver() == RxState(seq(RX_BUFFER_SIZE, _ => 0), 0, false) && tx == []
    {
      rxBuffer := new byte[RX_BUFFER_SIZE](_ => 0);
      rxIndex := 0;
      rxFlag := false;
      tx := [];
    }

    predicate Valid()
      reads this
    {
      rxBuffer.Length == RX_BUFFER_SIZE && rxIndex <= RX_BUFFER_SIZE
    }

    /** The receive state as the pure state machine sees it. */
    function Receiver(): (s: RxState)
      reads this, rxBuffer
      requires Valid()
      ensures ValidRx(s)
    {
      RxState(rxBuffer[..], rxIndex, rxFlag)
    }

    /** USART2_IRQHandler for a receive interrupt that delivered `b`. */
    method IrqHandler(b: byte)
      requires Valid()
      modifies this`rxIndex, this`rxFlag, rxBuffer
      ensures Valid() && Receiver() == Step(old(Receiver()), b)
    {
      if b == START_BYTE {
        rxIndex := 0;
      }
      if rxIndex < RX_BUFFER_SIZE {
        rxBuffer[rxIndex] := b;
        rxIndex := rxIndex + 1;
      }
      if rxIndex >= 4 && rxBuffer[2] as int + 4 == rxIndex {
        rxFlag := true;
      }
    }

    /** UART2_SendByte. */
    method SendByte(b: byte)
      modifies this`tx
      ensures tx == old(tx) + [b]
    {
      tx := tx + [b];
    }

    /** UART2_SendData: data[0..length-1] in index order. */
    method SendData(data: array<byte>, length: u16)
      requires length <= data.Length
      modifies this`tx
      ensures tx == old(tx) + data[..length]
    {
      var i := 0;
      while i < length
        invariant 0 <= i <= length
        invariant tx == old(tx) + data[..i]
      {
        SendByte(data[i]);
        assert data[..i + 1] == data[..i] + [data[i]];
        i := i + 1;
      }
    }

    /**
      UART2_SendPacket as written: stores the checksum in the struct, then
      sends the first length+4 bytes of the struct, so the checksum is not
      the last byte sent unless length is 64.
     */
    method SendPacket(p: Packet)
      requires p.Valid() && p.bytes[2] <= DATA_SIZE
      modifies p.bytes, this`tx
      ensures p.bytes[..] == WithChecksum(old(p.bytes[..]))
      ensures tx == old(tx) + WireAsWritten(old(p.bytes[..]))
    {
      var n := p.bytes[2];
      var checksum := CalculateChecksum(p.bytes, 1, n + 2);
      p.bytes[CHECKSUM_OFFSET] := checksum;
      SendData(p.bytes, n + 4);
    }

    /**
      The corrected sender: stores the checksum like UART2_SendPacket, then
      sends start, type, length and data[0..length-1] followed by the
      checksum.
     */
    method SendFramedPacket(p: Packet)
      requires p.Valid() && p.bytes[2] <= DATA_SIZE
      modifies p.bytes, this`tx
      ensures p.bytes[..] == WithChecksum(old(p.bytes[..]))
      ensures tx == old(tx) + FramedWire(old(p.bytes[..]))
    {
      var n := p.bytes[2];
      var checksum := CalculateChecksum(p.bytes, 1, n + 2);
      p.bytes[CHECKSUM_OFFSET] := checksum;
      SendData(p.bytes, n + 3);
      SendByte(checksum);
    }

    /**
      UART2_ReceivePacket, with a length above 64 rejected before the copy
      (the source copies it unchecked).
     */
    method ReceivePacket(p: Packet) returns (ok: bool)
      requires Valid() && p.Valid() && p.bytes != rxBuffer
      modifies p.bytes, this`rxFlag
      ensures Valid()
      ensures ok == Drain(old(Receiver()), old(p.bytes[..])).ok
      ensures p.bytes[..] == Drain(old(Receiver()), old(p.bytes[..])).packet
      ensures Receiver() == Drain(old(Receiver()), old(p.bytes[..])).rx
    {
      if !rxFlag {
        return false;
      }
      var n := rxBuffer[2];
      if n > DATA_SIZE {
        rxFlag := false;
        return false;
      }
      CopyFrame(p);
      var checksum := CalculateChecksum(p.bytes, 1, n + 2);
      assert p.bytes[1..n + 3] == rxBuffer[1..n + 3];
      ok := checksum == p.bytes[CHECKSUM_OFFSET];
      rxFlag := false;
    }

    /** The copy part of UART2_ReceivePacket: start, type, length, payload and checksum byte into the struct. */
    method CopyFrame(p: Packet)
      requires Valid() && p.Valid() && p.bytes != rxBuffer && rxBuffer[2] <= DATA_SIZE
      modifies p.bytes
      ensures p.bytes[..] == Copied(rxBuffer[..], old(p.bytes[..]))
    {
      var n := rxBuffer[2];
      ghost var st := p.bytes[..];
      p.bytes[0] := rxBuffer[0];
      p.bytes[1] := rxBuffer[1];
      p.bytes[2] := n;
      var i := 0;
      while i < n
        invariant 0 <= i <= n
        invariant forall k :: 0 <= k < 3 + i ==> p.bytes[k] == rxBuffer[k]
        invariant forall k :: 3 + i <= k < PACKET_SIZE ==> p.bytes[k] == st[k]
      {
        p.bytes[3 + i] := rxBuffer[3 + i];
        i := i + 1;
      }
      p.bytes[CHECKSUM_OFFSET] := rxBuffer[3 + n];
      assert p.bytes[..] == Copied(rxBuffer[..], st) by {
        var c := Copied(rxBuffer[..], st);
        forall k | 0 <= k < PACKET_SIZE
          ensures p.bytes[k] == c[k]
        {
          if k < n + 3 {
            assert c[k] == rxBuffer[k];
          } else if k < CHECKSUM_OFFSET {
            assert c[k] == st[k];
          }
        }
      }
    }
  }
}
