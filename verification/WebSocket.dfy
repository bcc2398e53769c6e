/** The server side of RFC 6455, sections 5.2 to 5.5 (internal/ws/conn.go). */
module WebSocket {
  import opened Wrappers
  import opened Bytes

  const CONTINUATION: Byte := 0x0
  const TEXT: Byte := 0x1
  const BINARY: Byte := 0x2
  const CLOSE: Byte := 0x8
  const PING: Byte := 0x9
  const PONG: Byte := 0xA

  /** The cap on one assembled client message: 64 MiB. */
  const MAX_MESSAGE: nat := 0x400_0000

  datatype Error =
    | EndOfStream | RsvBits | FragmentedControl | OversizedControl | FrameTooLarge | Unmasked
    | DataWhileFragmented | ContinuationWithoutStart | MessageTooLarge | UnknownOpcode(op: Byte)

  datatype Frame = Frame(fin: bool, op: Byte, payload: seq<Byte>)

  datatype Message = Message(op: Byte, payload: seq<Byte>)

  // ---- masking ----

  function TwoTo(k: nat): nat
  {
    if k == 0 then 1 else 2 * TwoTo(k - 1)
  }

  /** Exclusive or of the lowest k bits. */
  function XorBits(a: nat, b: nat, k: nat): (r: nat)
    ensures r < TwoTo(k)
  {
    if k == 0 then 0 else 2 * XorBits(a / 2, b / 2, k - 1) + (if a % 2 == b % 2 then 0 else 1)
  }

  lemma {:induction false} XorBitsTwice(a: nat, b: nat, k: nat)
    requires a < TwoTo(k)
    ensures XorBits(XorBits(a, b, k), b, k) == a
  {
    if k > 0 {
      var x := XorBits(a / 2, b / 2, k - 1);
      var r := XorBits(a, b, k);
      XorBitsTwice(a / 2, b / 2, k - 1);
      assert r / 2 == x && r % 2 == if a % 2 == b % 2 then 0 else 1;
    }
  }

  lemma Bits8()
    ensures TwoTo(8) == 256
  {
    assert TwoTo(4) == 16;
  }

  function Xor(a: Byte, b: Byte): Byte
  {
    Bits8();
    XorBits(a, b, 8)
  }

  function MaskedFrom(payload: seq<Byte>, mask: seq<Byte>): (r: seq<Byte>)
    requires |mask| == 4
    ensures |r| == |payload|
  {
    seq(|payload|, i requires 0 <= i < |payload| => Xor(payload[i], mask[i % 4]))
  }

  /** Masking twice is not masking. */
  lemma MaskTwice(payload: seq<Byte>, mask: seq<Byte>)
    requires |mask| == 4
    ensures MaskedFrom(MaskedFrom(payload, mask), mask) == payload
  {
    forall i | 0 <= i < |payload| ensures MaskedFrom(MaskedFrom(payload, mask), mask)[i] == payload[i] {
      XorTwice(payload[i], mask[i % 4]);
    }
  }

  lemma XorTwice(a: Byte, b: Byte)
    ensures Xor(Xor(a, b), b) == a
  {
    Bits8();
    XorBitsTwice(a, b, 8);
  }

  method Unmask(payload: array<Byte>, mask: seq<Byte>)
    requires |mask| == 4
    modifies payload
    ensures payload[..] == MaskedFrom(old(payload[..]), mask)
  {
    var i := 0;
    while i < payload.Length
      invariant 0 <= i <= payload.Length
      invariant forall j :: 0 <= j < i ==> payload[j] == Xor(old(payload[j]), mask[j % 4])
      invariant forall j :: i <= j < payload.Length ==> payload[j] == old(payload[j])
    {
      payload[i] := Xor(payload[i], mask[i % 4]);
      i := i + 1;
    }
  }

  // ---- reading one frame ----

  predicate IsControl(op: Byte)
  {
    op >= 0x8
  }

  /** The payload length, and how many bytes after the header said so; None when they are not there. */
  function Length(s: seq<Byte>): Option<(nat, nat)>
    requires |s| >= 2
  {
    var short := s[1] % 0x80;
    if short == 126 then (if |s| < 4 then None else Some((FromBytes(s[2..4]), 2)))
    else if short == 127 then (if |s| < 10 then None else Some((FromBytes(s[2..10]), 8)))
    else Some((short, 0))
  }

  /** One client frame and what follows it. */
  function Decode(s: seq<Byte>): (r: Result<(Frame, seq<Byte>), Error>)
    ensures r.Success? ==> |r.value.1| < |s| && |r.value.0.payload| <= MAX_MESSAGE
  {
    if |s| < 2 then Failure(EndOfStream)
    else if s[0] / 16 % 8 != 0 then Failure(RsvBits)
    else
      var fin, op := s[0] >= 0x80, s[0] % 16;
      if IsControl(op) && !fin then Failure(FragmentedControl)
      else if Length(s) == None then Failure(EndOfStream)
      else
        var (length, ext) := Length(s).value;
        var at := 2 + ext;
        if IsControl(op) && length > 125 then Failure(OversizedControl)
        else if length > MAX_MESSAGE then Failure(FrameTooLarge)
        else if s[1] < 0x80 then Failure(Unmasked)
        else if |s| < at + 4 + length then Failure(EndOfStream)
        else
          Success((Frame(fin, op, MaskedFrom(s[at + 4..at + 4 + length], s[at..at + 4])), s[at + 4 + length..]))
  }

  // ---- what a client sends ----

  /** The three ways to write a length; a longer one than needed is understood too. */
  datatype Form = Short | Medium | Long

  datatype Wire = Wire(fin: bool, op: Byte, payload: seq<Byte>, mask: seq<Byte>, form: Form)

  function Size(form: Form): nat
  {
    match form
    case Short => 0
    case Medium => 2
    case Long => 8
  }

  /** A frame RFC 6455 allows a client to send, within the server's cap. */
  ghost predicate LegalWire(w: Wire)
  {
    && w.op < 16 && |w.mask| == 4 && |w.payload| <= MAX_MESSAGE
    && (IsControl(w.op) ==> w.fin && |w.payload| <= 125)
    && (w.form == Short ==> |w.payload| <= 125)
    && (w.form == Medium ==> |w.payload| <= 0xFFFF)
  }

  function FirstByte(fin: bool, op: Byte): Byte
    requires op < 16
  {
    (if fin then 0x80 else 0x00) + op
  }

  function LengthBytes(n: nat, form: Form, masked: Byte): seq<Byte>
    requires (form == Short ==> n <= 125) && (masked == 0x80 || masked == 0x00)
  {
    match form
    case Short => [masked + n]
    case Medium => [masked + 126] + ToBytes(n, 2)
    case Long => [masked + 127] + ToBytes(n, 8)
  }

  function EncodeClient(w: Wire): seq<Byte>
    requires w.op < 16 && |w.mask| == 4 && (w.form == Short ==> |w.payload| <= 125)
  {
    [FirstByte(w.fin, w.op)] + LengthBytes(|w.payload|, w.form, 0x80) + w.mask + MaskedFrom(w.payload, w.mask)
  }

  lemma HeaderBits(fin: bool, op: Byte)
    requires op < 16
    ensures var b := FirstByte(fin, op); b % 16 == op && b / 16 % 8 == 0 && (b >= 0x80 <==> fin)
  {
  }

  lemma Powers()
    ensures Power(2) == 0x1_0000 && Power(8) == 0x1_0000_0000_0000_0000
  {
    assert Power(1) == 256 && Power(2) == 256 * 256;
    assert Power(4) == Power(2) * 0x1_0000;
    assert Power(6) == Power(4) * 0x1_0000;
    assert Power(8) == Power(6) * 0x1_0000;
  }

  /** The length comes back from all three forms. */
  lemma LengthBack(first: Byte, n: nat, form: Form, masked: Byte, rest: seq<Byte>)
    requires masked == 0x80 || masked == 0x00
    requires (form == Short ==> n <= 125) && (form == Medium ==> n < 0x1_0000)
             && (form == Long ==> n < 0x1_0000_0000_0000_0000)
    ensures var s := [first] + LengthBytes(n, form, masked) + rest;
            && |LengthBytes(n, form, masked)| == 1 + Size(form)
            && Length(s) == Some((n, Size(form))) && (s[1] >= 0x80 <==> masked == 0x80)
  {
    hide FromBytes, ToBytes, Power;
    var s := [first] + LengthBytes(n, form, masked) + rest;
    Powers();
    match form {
      case Short =>
      case Medium =>
        BytesBack(n, 2);
        assert s[2..4] == ToBytes(n, 2);
      case Long =>
        BytesBack(n, 8);
        assert s[2..10] == ToBytes(n, 8);
    }
  }

  /** Reading a legal client frame gives back its parts and consumes exactly the frame. */
  lemma DecodeInverts(w: Wire, rest: seq<Byte>)
    requires LegalWire(w)
    ensures Decode(EncodeClient(w) + rest) == Success((Frame(w.fin, w.op, w.payload), rest))
  {
    hide MaskedFrom, LengthBytes, FirstByte, Length;
    var n, at := |w.payload|, 2 + Size(w.form);
    var first, masked := FirstByte(w.fin, w.op), MaskedFrom(w.payload, w.mask);
    var s := EncodeClient(w) + rest;
    var tail := w.mask + masked + rest;
    assert s == [first] + LengthBytes(n, w.form, 0x80) + tail;
    HeaderBits(w.fin, w.op);
    LengthBack(first, n, w.form, 0x80, tail);
    assert s[at..] == tail;
    TailParts(s, at, w.mask, masked, rest);
    MaskTwice(w.payload, w.mask);
  }

  lemma TailParts(s: seq<Byte>, at: nat, mask: seq<Byte>, masked: seq<Byte>, rest: seq<Byte>)
    requires at <= |s| && |mask| == 4 && s[at..] == mask + masked + rest
    ensures |s| == at + 4 + |masked| + |rest|
    ensures s[at..at + 4] == mask && s[at + 4..at + 4 + |masked|] == masked && s[at + 4 + |masked|..] == rest
  {
    var t := s[at..];
    assert s[at..at + 4] == t[..4];
    assert s[at + 4..at + 4 + |masked|] == t[4..4 + |masked|];
    assert s[at + 4 + |masked|..] == t[4 + |masked|..];
  }

  // ---- what the server sends ----

  function FormOf(n: nat): Form
  {
    if n <= 125 then Short else if n <= 0xFFFF then Medium else Long
  }

  /** A server frame is whole, not masked, and writes its length the shortest way. */
  function EncodeServer(op: Byte, payload: seq<Byte>): seq<Byte>
    requires op < 16
  {
    [FirstByte(true, op)] + LengthBytes(|payload|, FormOf(|payload|), 0x00) + payload
  }

  /** A client's reading of one server frame, after section 5.2. */
  function DecodeServer(s: seq<Byte>): Option<(Frame, seq<Byte>)>
  {
    if |s| < 2 || s[0] / 16 % 8 != 0 || s[1] >= 0x80 || Length(s) == None then None
    else
      var (length, ext) := Length(s).value;
      if |s| < 2 + ext + length then None
      else Some((Frame(s[0] >= 0x80, s[0] % 16, s[2 + ext..2 + ext + length]), s[2 + ext + length..]))
  }

  /** A server frame is read back whole; its length could not be written shorter. */
  lemma ServerFrameReads(op: Byte, payload: seq<Byte>, rest: seq<Byte>)
    requires op < 16 && |payload| < 0x1_0000_0000_0000_0000
    ensures DecodeServer(EncodeServer(op, payload) + rest) == Some((Frame(true, op, payload), rest))
    ensures forall form :: (form == Short ==> |payload| <= 125) && (form == Medium ==> |payload| <= 0xFFFF) ==>
            Size(FormOf(|payload|)) <= Size(form)
  {
    hide LengthBytes, FirstByte, Length;
    var n := |payload|;
    var form := FormOf(n);
    var first, at := FirstByte(true, op), 2 + Size(form);
    var s, tail := EncodeServer(op, payload) + rest, payload + rest;
    assert s == [first] + LengthBytes(n, form, 0x00) + tail;
    HeaderBits(true, op);
    LengthBack(first, n, form, 0x00, tail);
    assert s[at..] == tail;
    assert s[at..at + n] == tail[..n] && s[at + n..] == tail[n..];
  }

  // ---- reading one message ----

  /**
   * What a read leaves: its result, the bytes not read yet, the bytes it sent, and whether a close frame has gone out.
   */
  datatype Served = Served(result: Result<Message, Error>, rest: seq<Byte>, sent: seq<Byte>, closeSent: bool)

  /** The echo of a close frame is cut to the size of a control frame. */
  function Echo(payload: seq<Byte>): seq<Byte>
  {
    EncodeServer(CLOSE, if |payload| > 125 then payload[..125] else payload)
  }

  /**
   * The next message: fragments are put together, pings answered, a
   * close echoed once. `begun` is the fragmented message under way.
   */
  function Serve(s: seq<Byte>, begun: Option<Message>, closeSent: bool): (r: Served)
    requires begun.Some? ==> |begun.value.payload| <= MAX_MESSAGE
    ensures r.result.Success? ==> |r.result.value.payload| <= MAX_MESSAGE
    decreases |s|
  {
    var d := Decode(s);
    if d.Failure? then Served(Failure(d.error), [], [], closeSent)
    else
      var (f, rest) := d.value;
      if f.op == PING then
        var r := Serve(rest, begun, closeSent);
        r.(sent := EncodeServer(PONG, f.payload) + r.sent)
      else if f.op == PONG then Serve(rest, begun, closeSent)
      else if f.op == CLOSE then
        Served(Success(Message(CLOSE, f.payload)), rest, if closeSent then [] else Echo(f.payload), true)
      else if f.op == TEXT || f.op == BINARY then
        if begun.Some? then Served(Failure(DataWhileFragmented), rest, [], closeSent)
        else if f.fin then Served(Success(Message(f.op, f.payload)), rest, [], closeSent)
        else Serve(rest, Some(Message(f.op, f.payload)), closeSent)
      else if f.op == CONTINUATION then
        if begun == None then Served(Failure(ContinuationWithoutStart), rest, [], closeSent)
        else
          var data := begun.value.payload + f.payload;
          if |data| > MAX_MESSAGE then Served(Failure(MessageTooLarge), rest, [], closeSent)
          else if f.fin then Served(Success(Message(begun.value.op, data)), rest, [], closeSent)
          else Serve(rest, Some(Message(begun.value.op, data)), closeSent)
      else Served(Failure(UnknownOpcode(f.op)), rest, [], closeSent)
  }

  /** One connection, with the bytes still to come and those written so far. */
  class Conn {
    var input: seq<Byte>
    var sent: seq<Byte>
    var closeSent: bool

    constructor (input: seq<Byte>)
      ensures this.input == input && sent == [] && !closeSent
    {
      this.input, sent, closeSent := input, [], false;
    }

    /** io.ReadFull. */
    method ReadFull(n: nat) returns (r: Option<seq<Byte>>)
      modifies this`input
      ensures n <= |old(input)| ==> r == Some(old(input)[..n]) && input == old(input)[n..]
      ensures n > |old(input)| ==> r == None && input == []
    {
      if n > |input| {
        input := [];
        return None;
      }
      r := Some(input[..n]);
      input := input[n..];
    }

    /** The extended length, if the header `s` starts with calls for one. */
    method ReadLength(short: nat, ghost s: seq<Byte>) returns (r: Option<nat>)
      requires |s| >= 2 && input == s[2..] && short == s[1] % 0x80
      modifies this`input
      ensures var l := Length(s);
              if l == None then r == None
              else r == Some(l.value.0) && 2 + l.value.1 <= |s| && input == s[2 + l.value.1..]
    {
      hide FromBytes;
      if short == 126 {
        var ext := ReadFull(2);
        if ext == None {
          return None;
        }
        assert ext.value == s[2..4] && input == s[4..];
        return Some(FromBytes(ext.value));
      }
      if short == 127 {
        var ext := ReadFull(8);
        if ext == None {
          return None;
        }
        assert ext.value == s[2..10] && input == s[10..];
        return Some(FromBytes(ext.value));
      }
      return Some(short);
    }

    method ReadFrame() returns (r: Result<Frame, Error>)
      modifies this`input
      ensures var d := Decode(old(input));
              if d.Failure? then r == Failure(d.error) else r == Success(d.value.0) && input == d.value.1
    {
      hide Length, MaskedFrom;
      ghost var s := input;
      var hdr := ReadFull(2);
      if hdr == None {
        return Failure(EndOfStream);
      }
      var b0, b1 := hdr.value[0], hdr.value[1];
      var fin := b0 >= 0x80;
      if b0 / 16 % 8 != 0 {
        return Failure(RsvBits);
      }
      var op := b0 % 16;
      var masked := b1 >= 0x80;
      var length: nat := b1 % 0x80;
      if IsControl(op) && !fin {
        return Failure(FragmentedControl);
      }
      var extended := ReadLength(length, s);
      if extended == None {
        return Failure(EndOfStream);
      }
      length := extended.value;
      ghost var at := 2 + Length(s).value.1;
      if IsControl(op) && length > 125 {
        return Failure(OversizedControl);
      }
      if length > MAX_MESSAGE {
        return Failure(FrameTooLarge);
      }
      if !masked {
        return Failure(Unmasked);
      }
      var mask := ReadFull(4);
      if mask == None {
        return Failure(EndOfStream);
      }
      var data := ReadFull(length);
      if data == None {
        return Failure(EndOfStream);
      }
      assert mask.value == s[at..at + 4] && data.value == s[at + 4..at + 4 + length] && input == s[at + 4 + length..];
      var payload := UnmaskCopy(data.value, mask.value);
      r := Success(Frame(fin, op, payload));
    }

    method WriteFrame(op: Byte, payload: seq<Byte>)
      requires op < 16 && |payload| < 0x1_0000_0000_0000_0000
      modifies this`sent
      ensures sent == old(sent) + EncodeServer(op, payload)
    {
      hide ToBytes, LengthBytes, FirstByte;
      var n := |payload|;
      var hdr: seq<Byte>;
      if n <= 125 {
        hdr := [FirstByte(true, op)] + LengthBytes(n, Short, 0x00);
      } else if n <= 0xFFFF {
        hdr := [FirstByte(true, op)] + LengthBytes(n, Medium, 0x00);
      } else {
        hdr := [FirstByte(true, op)] + LengthBytes(n, Long, 0x00);
      }
      sent := sent + hdr;
      sent := sent + payload;
      assert old(sent) + hdr + payload == old(sent) + (hdr + payload);
    }

    /** The next message from the client. */
    method Read() returns (r: Result<Message, Error>)
      modifies this
      ensures var v := Serve(old(input), None, old(closeSent));
              && r == v.result && sent == old(sent) + v.sent && closeSent == v.closeSent
              && (r.Success? ==> input == v.rest)
    {
      hide Decode, EncodeServer;
      var begun: Option<Message> := None;
      ghost var pongs: seq<Byte> := [];
      assert [] + Serve(input, None, closeSent).sent == Serve(input, None, closeSent).sent;
      while true
        invariant begun.Some? ==> |begun.value.payload| <= MAX_MESSAGE
        invariant closeSent == old(closeSent) && sent == old(sent) + pongs
        invariant var v, w := Serve(old(input), None, old(closeSent)), Serve(input, begun, closeSent);
                  v == w.(sent := pongs + w.sent)
        decreases |input|
      {
        ghost var s := input;
        ghost var w := Serve(s, begun, closeSent);
        var frame := ReadFrame();
        assert pongs + [] == pongs && old(sent) + pongs + [] == old(sent) + pongs;
        if frame.Failure? {
          return Failure(frame.error);
        }
        var f := frame.value;
        if f.op == PING {
          WriteFrame(PONG, f.payload);
          PongNext(old(sent), pongs, EncodeServer(PONG, f.payload), Serve(input, begun, closeSent).sent);
          pongs := pongs + EncodeServer(PONG, f.payload);
        } else if f.op == PONG {
        } else if f.op == CLOSE {
          if !closeSent {
            WriteFrame(CLOSE, if |f.payload| > 125 then f.payload[..125] else f.payload);
            assert old(sent) + pongs + Echo(f.payload) == old(sent) + (pongs + Echo(f.payload));
            closeSent := true;
          }
          return Success(Message(CLOSE, f.payload));
        } else if f.op == TEXT || f.op == BINARY {
          if begun.Some? {
            return Failure(DataWhileFragmented);
          }
          if f.fin {
            return Success(Message(f.op, f.payload));
          }
          begun := Some(Message(f.op, f.payload));
        } else if f.op == CONTINUATION {
          if begun == None {
            return Failure(ContinuationWithoutStart);
          }
          var data := begun.value.payload + f.payload;
          if |data| > MAX_MESSAGE {
            return Failure(MessageTooLarge);
          }
          if f.fin {
            return Success(Message(begun.value.op, data));
          }
          begun := Some(Message(begun.value.op, data));
        } else {
          return Failure(UnknownOpcode(f.op));
        }
      }
    }
  }

  lemma PongNext(sent: seq<Byte>, pongs: seq<Byte>, pong: seq<Byte>, more: seq<Byte>)
    ensures sent + pongs + pong == sent + (pongs + pong) && pongs + (pong + more) == pongs + pong + more
  {
  }

  /** The payload is unmasked in place, in a buffer of its own. */
  method UnmaskCopy(data: seq<Byte>, mask: seq<Byte>) returns (payload: seq<Byte>)
    requires |mask| == 4
    ensures payload == MaskedFrom(data, mask)
  {
    hide MaskedFrom;
    var buffer := new Byte[|data|](i requires 0 <= i < |data| => data[i]);
    assert buffer[..] == data;
    Unmask(buffer, mask);
    payload := buffer[..];
  }

  // ---- a client's message, in any legal fragmentation ----

  /** Frames that make up one message, with control frames in between; `begun` says that its first fragment has come. */
  ghost predicate LegalMessage(ws: seq<Wire>, begun: bool)
  {
    ws != [] && LegalWire(ws[0]) &&
    var w, more := ws[0], ws[1..];
    if w.op == PING || w.op == PONG then LegalMessage(more, begun)
    else
      && (if begun then w.op == CONTINUATION else w.op == TEXT || w.op == BINARY)
      && (if w.fin then more == [] else LegalMessage(more, true))
  }

  ghost function EncodeAll(ws: seq<Wire>): seq<Byte>
    requires forall w <- ws :: LegalWire(w)
  {
    if ws == [] then []
    else
      assert LegalWire(ws[0]);
      EncodeClient(ws[0]) + EncodeAll(ws[1..])
  }

  /** The payload of the fragments. */
  function DataOf(ws: seq<Wire>): seq<Byte>
  {
    if ws == [] then []
    else (if ws[0].op == PING || ws[0].op == PONG then [] else ws[0].payload) + DataOf(ws[1..])
  }

  /** One pong for each ping, in order. */
  function PongsFor(ws: seq<Wire>): seq<Byte>
  {
    if ws == [] then []
    else (if ws[0].op == PING then EncodeServer(PONG, ws[0].payload) else []) + PongsFor(ws[1..])
  }

  /** The op of the first fragment. */
  function OpOf(ws: seq<Wire>): Byte
  {
    if ws == [] then TEXT
    else if ws[0].op == PING || ws[0].op == PONG then OpOf(ws[1..])
    else ws[0].op
  }

  lemma {:induction false} LegalWires(ws: seq<Wire>, begun: bool)
    requires LegalMessage(ws, begun)
    ensures forall w <- ws :: LegalWire(w)
  {
    hide LegalWire;
    var w, more := ws[0], ws[1..];
    assert ws == [w] + more;
    if more != [] {
      LegalWires(more, begun || !(w.op == PING || w.op == PONG));
    }
  }

  /**
   * However a message is cut and whatever control frames lie in
   * between, it is read whole, and every ping is answered in order.
   */
  lemma {:induction false} ReadReassembles(ws: seq<Wire>, begun: Option<Message>, closeSent: bool, rest: seq<Byte>)
    requires LegalMessage(ws, begun.Some?)
    requires (if begun.Some? then |begun.value.payload| else 0) + |DataOf(ws)| <= MAX_MESSAGE
    ensures (LegalWires(ws, begun.Some?);
             var m := if begun.Some? then Message(begun.value.op, begun.value.payload + DataOf(ws))
                 else Message(OpOf(ws), DataOf(ws));
             Serve(EncodeAll(ws) + rest, begun, closeSent) == Served(Success(m), rest, PongsFor(ws), closeSent))
    decreases |ws|
  {
    hide Decode, EncodeServer, EncodeClient, LegalWire;
    LegalWires(ws, begun.Some?);
    var w, more := ws[0], ws[1..];
    var s := EncodeAll(ws) + rest;
    WireShape(w);
    assert s == EncodeClient(w) + (EncodeAll(more) + rest);
    DecodeInverts(w, EncodeAll(more) + rest);
    NothingMore();
    if w.op == PING || w.op == PONG {
      ReadReassembles(more, begun, closeSent, rest);
      assert [] + DataOf(more) == DataOf(more) && [] + PongsFor(more) == PongsFor(more);
    } else {
      var data := if begun.Some? then begun.value.payload + w.payload else w.payload;
      assert [] + PongsFor(more) == PongsFor(more);
      if w.fin {
        assert w.payload + [] == w.payload && [] + rest == rest;
      } else {
        ReadReassembles(more, Some(Message(if begun.Some? then begun.value.op else w.op, data)), closeSent, rest);
        if begun.Some? {
          assert begun.value.payload + (w.payload + DataOf(more)) == data + DataOf(more);
        }
      }
    }
  }

  lemma WireShape(w: Wire)
    requires LegalWire(w)
    ensures w.op < 16 && |w.mask| == 4 && (w.form == Short ==> |w.payload| <= 125)
  {
  }

  lemma NothingMore()
    ensures DataOf([]) == [] && PongsFor([]) == []
  {
  }
}
