/**
 The hand-written WebSocket client of the smoke script (core/scripts/smoke_linux_e2e.py):
 frames as sections 5.2 and 5.3 of RFC 6455 lay them out, over a stream cut anywhere.
 */
module WebSocketFrames {
  import opened Text

  newtype byte = n: int | 0 <= n < 256

  /** `a ^ b` on the lowest `width` bits: each bit is set when the two differ. */
  function XorBits(a: nat, b: nat, width: nat): nat {
    if width == 0 then 0
    else (if a % 2 == b % 2 then 0 else 1) + 2 * XorBits(a / 2, b / 2, width - 1)
  }

  function PowerOfTwo(width: nat): nat {
    if width == 0 then 1 else 2 * PowerOfTwo(width - 1)
  }

  lemma {:induction false} XorBitsFit(a: nat, b: nat, width: nat)
    ensures XorBits(a, b, width) < PowerOfTwo(width)
  {
    if width > 0 {
      XorBitsFit(a / 2, b / 2, width - 1);
    }
  }

  lemma {:induction false} XorBitsTwice(a: nat, b: nat, width: nat)
    requires a < PowerOfTwo(width)
    ensures XorBits(XorBits(a, b, width), b, width) == a
  {
    if width > 0 {
      var once := XorBits(a, b, width);
      assert once % 2 == (if a % 2 == b % 2 then 0 else 1) && once / 2 == XorBits(a / 2, b / 2, width - 1);
      XorBitsTwice(a / 2, b / 2, width - 1);
    }
  }

  lemma ByteWidth()
    ensures PowerOfTwo(8) == 256
  {
    assert PowerOfTwo(4) == 16;
  }

  /** `a ^ b` of two bytes. */
  function Xor(a: byte, b: byte): byte {
    XorBitsFit(a as int, b as int, 8);
    ByteWidth();
    XorBits(a as int, b as int, 8) as byte
  }

  /** `bytes(b ^ mask[i % 4] for i, b in enumerate(payload))`. */
  function Masked(payload: seq<byte>, mask: seq<byte>): (out: seq<byte>)
    requires |mask| == 4
    ensures |out| == |payload|
  {
    seq(|payload|, i requires 0 <= i < |payload| => Xor(payload[i], mask[i % 4]))
  }

  lemma MaskedTwice(payload: seq<byte>, mask: seq<byte>)
    requires |mask| == 4
    ensures Masked(Masked(payload, mask), mask) == payload
  {
    var out := Masked(Masked(payload, mask), mask);
    forall i | 0 <= i < |payload| ensures out[i] == payload[i] {
      assert Xor(Xor(payload[i], mask[i % 4]), mask[i % 4]) == payload[i] by {
        ByteWidth();
        XorBitsTwice(payload[i] as int, mask[i % 4] as int, 8);
      }
    }
  }

  /** `n` in `width` bytes, the most significant first: `struct.pack("!H")` and `struct.pack("!Q")`. */
  function Packed(n: nat, width: nat): (out: seq<byte>)
    ensures |out| == width
  {
    if width == 0 then [] else Packed(n / 256, width - 1) + [(n % 256) as byte]
  }

  function Unpacked(bytes: seq<byte>): nat {
    if bytes == [] then 0 else 256 * Unpacked(bytes[..|bytes| - 1]) + bytes[|bytes| - 1] as int
  }

  function Power256(width: nat): nat {
    if width == 0 then 1 else 256 * Power256(width - 1)
  }

  lemma {:induction false} UnpackPacked(n: nat, width: nat)
    requires n < Power256(width)
    ensures Unpacked(Packed(n, width)) == n
    decreases width
  {
    if width > 0 {
      UnpackPacked(n / 256, width - 1);
      var out := Packed(n, width);
      assert out[..|out| - 1] == Packed(n / 256, width - 1);
    }
  }

  // ----------------------------------------------------------------- sending

  const TEXT: byte := 1

  /** The final bit and an opcode; the mask bit and a length below 128. */
  function FirstByte(opcode: byte): byte
    requires opcode < 16
  {
    128 + opcode
  }

  function LengthByte(n: nat): byte
    requires n < 128
  {
    (128 + n) as byte
  }

  /** A masked frame's header: one of three length forms. */
  function Header(opcode: byte, n: nat, mask: seq<byte>): seq<byte>
    requires opcode < 16
  {
    [FirstByte(opcode)]
    + (if n < 126 then [LengthByte(n)]
       else if n < 65536 then [LengthByte(126)] + Packed(n, 2)
       else [LengthByte(127)] + Packed(n, 8))
    + mask
  }

  function Frame(opcode: byte, payload: seq<byte>, mask: seq<byte>): seq<byte>
    requires opcode < 16 && |mask| == 4
  {
    Header(opcode, |payload|, mask) + Masked(payload, mask)
  }

  /** What eight bytes of length can say. */
  predicate Sendable(payload: seq<byte>) {
    |payload| < 0x1_0000_0000_0000_0000
  }

  // ----------------------------------------------------------------- reading

  datatype Read = Read(opcode: byte, payload: seq<byte>, rest: seq<byte>)

  /** A length in its form, and what follows it. */
  function ReadLength(bytes: seq<byte>, form: nat): Option<(nat, seq<byte>)> {
    var width := if form == 126 then 2 else if form == 127 then 8 else 0;
    if |bytes| < width then None
    else Some((if width == 0 then form else Unpacked(bytes[..width]), bytes[width..]))
  }

  /** `_read_frame` on the bytes to come; None when they end before the frame does. */
  function ReadFrame(bytes: seq<byte>): Option<Read> {
    if |bytes| < 2 then None
    else
      var opcode, masked := bytes[0] % 16, bytes[1] >= 128;
      match ReadLength(bytes[2..], (bytes[1] % 128) as int)
      case None => None
      case Some((length, body)) =>
        if |body| < (if masked then 4 else 0) then None
        else
          var mask := if masked then body[..4] else [];
          var data := if masked then body[4..] else body;
          if |data| < length then None
          else Some(Read(opcode, if masked then Masked(data[..length], mask) else data[..length], data[length..]))
  }

  lemma ReadHeader(opcode: byte, payload: seq<byte>, mask: seq<byte>, rest: seq<byte>)
    requires opcode < 16 && |mask| == 4 && Sendable(payload)
    ensures var bytes := Frame(opcode, payload, mask) + rest;
            && |bytes| >= 2 && bytes[0] % 16 == opcode && bytes[1] >= 128
            && ReadLength(bytes[2..], (bytes[1] % 128) as int)
               == Some((|payload|, mask + (Masked(payload, mask) + rest)))
  {
    hide Masked, Packed;
    var n, body := |payload|, Masked(payload, mask) + rest;
    var bytes := Frame(opcode, payload, mask) + rest;
    assert Power256(2) == 65536 && Power256(8) == 0x1_0000_0000_0000_0000 by {
      assert Power256(4) == 0x1_0000_0000;
      assert Power256(6) == 0x1_0000_0000_0000;
    }
    if n < 126 {
      assert bytes == [FirstByte(opcode), LengthByte(n)] + (mask + body);
      assert bytes[2..] == mask + body;
    } else if n < 65536 {
      UnpackPacked(n, 2);
      assert bytes == [FirstByte(opcode), LengthByte(126)] + (Packed(n, 2) + (mask + body));
      assert bytes[2..] == Packed(n, 2) + (mask + body);
    } else {
      UnpackPacked(n, 8);
      assert bytes == [FirstByte(opcode), LengthByte(127)] + (Packed(n, 8) + (mask + body));
      assert bytes[2..] == Packed(n, 8) + (mask + body);
    }
  }

  /**
   Reading what was sent gives the opcode and the payload back, in all three length forms, and takes
   exactly that frame.
   */
  lemma FrameRoundTrip(opcode: byte, payload: seq<byte>, mask: seq<byte>, rest: seq<byte>)
    requires opcode < 16 && |mask| == 4 && Sendable(payload)
    ensures ReadFrame(Frame(opcode, payload, mask) + rest) == Some(Read(opcode, payload, rest))
  {
    hide Frame, ReadLength, Masked;
    ReadHeader(opcode, payload, mask, rest);
    var sent := Masked(payload, mask);
    var body := mask + (sent + rest);
    assert body[..4] == mask && body[4..] == sent + rest;
    assert (sent + rest)[..|payload|] == sent && (sent + rest)[|payload|..] == rest;
    MaskedTwice(payload, mask);
  }

  /** A message to send, with the mask drawn for it. */
  datatype Message = Message(payload: seq<byte>, mask: seq<byte>)

  predicate Good(m: Message) {
    |m.mask| == 4 && Sendable(m.payload)
  }

  function Frames(messages: seq<Message>): seq<byte>
    requires forall i | 0 <= i < |messages| :: Good(messages[i])
  {
    if messages == [] then []
    else
      var m := messages[0];
      assert Good(m);
      Frame(TEXT, m.payload, m.mask) + Frames(messages[1..])
  }

  /** The frames at the head of a stream, one by one. */
  function ReadFrames(bytes: seq<byte>, n: nat): Option<seq<Read>> {
    if n == 0 then Some([])
    else
      match ReadFrame(bytes)
      case None => None
      case Some(r) =>
        match ReadFrames(r.rest, n - 1)
        case None => None
        case Some(more) => Some([r] + more)
  }

  /** Frames sent one after another are read one by one, each whole. */
  lemma {:induction false} FramesOneByOne(messages: seq<Message>, rest: seq<byte>)
    requires forall i | 0 <= i < |messages| :: Good(messages[i])
    ensures var r := ReadFrames(Frames(messages) + rest, |messages|);
            && r.Some? && |r.value| == |messages|
            && (forall i | 0 <= i < |messages| ::
               r.value[i].opcode == TEXT && r.value[i].payload == messages[i].payload)
            && (messages != [] ==> r.value[|messages| - 1].rest == rest)
  {
    hide Frame, ReadFrame;
    if messages == [] {
    } else {
      var m, more := messages[0], Frames(messages[1..]) + rest;
      assert Frames(messages) + rest == Frame(TEXT, m.payload, m.mask) + more;
      FrameRoundTrip(TEXT, m.payload, m.mask, more);
      FramesOneByOne(messages[1..], rest);
      var r := ReadFrames(Frames(messages) + rest, |messages|);
      var tail := ReadFrames(more, |messages| - 1);
      assert r == Some([Read(TEXT, m.payload, more)] + tail.value);
    }
  }

  // ------------------------------------------------------------- the client

  /** A connected socket: bytes still to come, given in chunks of any size, and bytes sent. */
  class Socket {
    var incoming: seq<byte>
    var sent: seq<byte>

    constructor (incoming: seq<byte>)
      ensures this.incoming == incoming && sent == []
    {
      this.incoming, sent := incoming, [];
    }

    /** `recv(n)`: at least one byte and at most `n`, however the network cuts them; none once closed. */
    method Recv(n: nat) returns (chunk: seq<byte>)
      requires n > 0
      modifies this`incoming
      ensures |chunk| <= n && chunk + incoming == old(incoming) && (chunk == [] <==> old(incoming) == [])
    {
      if incoming == [] {
        return [];
      }
      var k: nat :| 1 <= k <= n && k <= |incoming|;
      chunk := incoming[..k];
      incoming := incoming[k..];
    }

    method SendAll(bytes: seq<byte>)
      modifies this`sent
      ensures sent == old(sent) + bytes
    {
      sent := sent + bytes;
    }
  }

  class Client {
    const socket: Socket

    constructor (socket: Socket)
      ensures this.socket == socket
    {
      this.socket := socket;
    }

    /** `send_text`, with the mask drawn for it; false where the length does not fit its field. */
    method SendText(payload: seq<byte>, mask: seq<byte>) returns (ok: bool)
      requires |mask| == 4
      modifies socket`sent
      ensures ok <==> Sendable(payload)
      ensures socket.sent == old(socket.sent) + if ok then Frame(TEXT, payload, mask) else []
    {
      var n := |payload|;
      if n >= 0x1_0000_0000_0000_0000 {
        return false;
      }
      var header: seq<byte> := [FirstByte(TEXT)];
      if n < 126 {
        header := header + [LengthByte(n)];
      } else if n < 65536 {
        header := header + [LengthByte(126)];
        header := header + Packed(n, 2);
      } else {
        header := header + [LengthByte(127)];
        header := header + Packed(n, 8);
      }
      header := header + mask;
      assert header == Header(TEXT, n, mask);
      socket.SendAll(header + Masked(payload, mask));
      ok := true;
    }

    /** `_read_exact`: chunk after chunk until there are enough; None when the stream ends first. */
    method ReadExact(n: nat) returns (bytes: Option<seq<byte>>)
      modifies socket`incoming
      ensures bytes.Some? <==> n <= |old(socket.incoming)|
      ensures bytes.Some? ==> bytes.value == old(socket.incoming)[..n] && socket.incoming == old(socket.incoming)[n..]
    {
      var buf: seq<byte> := [];
      while |buf| < n
        invariant |buf| <= n && buf + socket.incoming == old(socket.incoming)
      {
        var chunk := socket.Recv(n - |buf|);
        if chunk == [] {
          return None;
        }
        assert (buf + chunk) + socket.incoming == buf + (chunk + socket.incoming);
        buf := buf + chunk;
      }
      bytes := Some(buf);
    }

    /** `_read_frame`: the frame the next bytes hold, whatever chunks they come in. */
    method NextFrame() returns (opcode: byte, payload: seq<byte>, ok: bool)
      modifies socket`incoming
      ensures match ReadFrame(old(socket.incoming))
              case None => !ok
              case Some(r) => ok && opcode == r.opcode && payload == r.payload && socket.incoming == r.rest
    {
      hide Masked, Unpacked;
      opcode, payload, ok := 0, [], false;
      ghost var bytes := socket.incoming;
      var hdr := ReadExact(2);
      if hdr.None? {
        return;
      }
      assert hdr.value[0] == bytes[0] && hdr.value[1] == bytes[1];
      var code := hdr.value[0] % 16;
      var length: nat := (hdr.value[1] % 128) as int;
      var masked := hdr.value[1] >= 128;
      if length == 126 {
        var field := ReadExact(2);
        if field.None? {
          return;
        }
        length := Unpacked(field.value);
      } else if length == 127 {
        var field := ReadExact(8);
        if field.None? {
          return;
        }
        length := Unpacked(field.value);
      }
      assert ReadLength(bytes[2..], (bytes[1] % 128) as int) == Some((length, socket.incoming));
      var mask: seq<byte> := [];
      if masked {
        var four := ReadExact(4);
        if four.None? {
          return;
        }
        mask := four.value;
      }
      var data := ReadExact(length);
      if data.None? {
        return;
      }
      opcode, ok := code, true;
      payload := if masked then Masked(data.value, mask) else data.value;
    }
  }
}
