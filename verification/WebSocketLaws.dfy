/** Which bytes a read accepts, and how it ends on those it does not (internal/ws/conn.go). */
module WebSocketLaws {
  import opened Wrappers
  import opened Bytes
  import opened WebSocket

  // ---- masking, bit by bit ----

  predicate Bit(n: nat, k: nat)
  {
    if k == 0 then n % 2 == 1 else Bit(n / 2, k - 1)
  }

  lemma {:induction false} XorBit(a: nat, b: nat, n: nat, k: nat)
    requires k < n
    ensures Bit(XorBits(a, b, n), k) <==> Bit(a, k) != Bit(b, k)
  {
    if k > 0 {
      XorBit(a / 2, b / 2, n - 1, k - 1);
    }
  }

  /** Masking turns over exactly the bits the mask byte of the position has. */
  lemma MaskedBits(payload: seq<Byte>, mask: seq<Byte>, i: nat, k: nat)
    requires |mask| == 4 && i < |payload| && k < 8
    ensures Bit(MaskedFrom(payload, mask)[i], k) <==> Bit(payload[i], k) != Bit(mask[i % 4], k)
  {
    XorBit(payload[i], mask[i % 4], 8, k);
  }

  // ---- which bytes are a frame ----

  lemma {:induction false} SpelledBelow(s: seq<Byte>)
    ensures FromBytes(s) < Power(|s|)
  {
    if s != [] {
      SpelledBelow(s[..|s| - 1]);
    }
  }

  lemma BytesSpelled(s: seq<Byte>)
    ensures ToBytes(FromBytes(s), |s|) == s
  {
    SpelledBelow(s);
    BytesBack(FromBytes(s), |s|);
    BytesInjective(ToBytes(FromBytes(s), |s|), s);
  }

  /** The length was written in one of the three forms. */
  lemma LengthOnly(s: seq<Byte>) returns (form: Form)
    requires |s| >= 2 && Length(s).Some?
    ensures var (n, ext) := Length(s).value;
            && ext == Size(form) && 2 + ext <= |s|
            && (form == Short ==> n <= 125) && (form == Medium ==> n <= 0xFFFF)
            && s[1..2 + ext] == LengthBytes(n, form, if s[1] >= 0x80 then 0x80 else 0x00)
  {
    hide FromBytes, ToBytes, Power;
    var short := s[1] % 0x80;
    Powers();
    if short == 126 {
      BytesSpelled(s[2..4]);
      SpelledBelow(s[2..4]);
      form := Medium;
    } else if short == 127 {
      BytesSpelled(s[2..10]);
      form := Long;
    } else {
      form := Short;
    }
  }

  lemma FirstByteOf(b: Byte)
    requires b / 16 % 8 == 0
    ensures b == FirstByte(b >= 0x80, b % 16)
  {
  }

  /** Whatever is taken for a frame is the encoding of a legal one. */
  lemma DecodeOnly(s: seq<Byte>) returns (w: Wire)
    requires Decode(s).Success?
    ensures LegalWire(w)
    ensures s == EncodeClient(w) + Decode(s).value.1 && Decode(s).value.0 == Frame(w.fin, w.op, w.payload)
  {
    hide Length, LengthBytes, FirstByte, MaskedFrom;
    var form := LengthOnly(s);
    FirstByteOf(s[0]);
    var (n, ext) := Length(s).value;
    var at := 2 + ext;
    var mask, masked := s[at..at + 4], s[at + 4..at + 4 + n];
    w := Wire(s[0] >= 0x80, s[0] % 16, MaskedFrom(masked, mask), mask, form);
    MaskTwice(masked, mask);
    assert s[..1] == [s[0]];
    FiveParts(s, at, n);
  }

  lemma FiveParts(s: seq<Byte>, at: nat, n: nat)
    requires 1 <= at && at + 4 + n <= |s|
    ensures s == s[..1] + s[1..at] + s[at..at + 4] + s[at + 4..at + 4 + n] + s[at + 4 + n..]
  {
  }

  /** Bytes are read as a frame if and only if they begin with the encoding of that frame, whatever its length form. */
  lemma DecodeExactly(s: seq<Byte>, f: Frame, rest: seq<Byte>)
    ensures Decode(s) == Success((f, rest)) <==>
            exists w :: LegalWire(w) && f == Frame(w.fin, w.op, w.payload) && s == EncodeClient(w) + rest
  {
    hide Decode, EncodeClient;
    if Decode(s) == Success((f, rest)) {
      var w := DecodeOnly(s);
    }
    forall w | LegalWire(w) && f == Frame(w.fin, w.op, w.payload)
      ensures s == EncodeClient(w) + rest ==> Decode(s) == Success((f, rest))
    {
      DecodeInverts(w, rest);
    }
  }

  // ---- what is refused ----

  /** The bytes of a frame that may break the rules: reserved bits, a mask or none. */
  function EncodeAny(reserved: nat, masked: bool, w: Wire): seq<Byte>
    requires reserved < 8 && w.op < 16 && |w.mask| == 4 && (w.form == Short ==> |w.payload| <= 125)
  {
    [16 * reserved + FirstByte(w.fin, w.op)] + LengthBytes(|w.payload|, w.form, if masked then 0x80 else 0x00)
    + (if masked then w.mask + MaskedFrom(w.payload, w.mask) else w.payload)
  }

  /** The length form has room for the payload. */
  predicate Fits(w: Wire)
  {
    && (w.form == Short ==> |w.payload| <= 125) && (w.form == Medium ==> |w.payload| <= 0xFFFF)
    && (w.form == Long ==> |w.payload| < 0x1_0000_0000_0000_0000)
  }

  lemma ReservedBits(reserved: nat, fin: bool, op: Byte)
    requires reserved < 8 && op < 16
    ensures var b := 16 * reserved + FirstByte(fin, op);
            b < 256 && b % 16 == op && b / 16 % 8 == reserved && (b >= 0x80 <==> fin)
  {
    var high := if fin then 8 else 0;
    assert 16 * reserved + FirstByte(fin, op) == 16 * (high + reserved) + op;
  }

  /** A frame is refused for the first rule it breaks, and read when it breaks none. */
  lemma FirstBroken(reserved: nat, masked: bool, w: Wire, rest: seq<Byte>)
    requires reserved < 8 && w.op < 16 && |w.mask| == 4 && Fits(w)
    ensures var d := Decode(EncodeAny(reserved, masked, w) + rest);
            if reserved != 0 then d == Failure(RsvBits)
            else if IsControl(w.op) && !w.fin then d == Failure(FragmentedControl)
            else if IsControl(w.op) && |w.payload| > 125 then d == Failure(OversizedControl)
            else if |w.payload| > MAX_MESSAGE then d == Failure(FrameTooLarge)
            else if !masked then d == Failure(Unmasked)
            else LegalWire(w) && d == Success((Frame(w.fin, w.op, w.payload), rest))
  {
    hide LengthBytes, Length, MaskedFrom, FirstByte;
    var s := EncodeAny(reserved, masked, w) + rest;
    var tail := (if masked then w.mask + MaskedFrom(w.payload, w.mask) else w.payload) + rest;
    var flag := if masked then 0x80 else 0x00;
    ReservedBits(reserved, w.fin, w.op);
    var first := 16 * reserved + FirstByte(w.fin, w.op);
    assert s == [first] + LengthBytes(|w.payload|, w.form, flag) + tail;
    LengthBack(first, |w.payload|, w.form, flag, tail);
    if reserved == 0 && masked && LegalWire(w) {
      assert s == EncodeClient(w) + rest;
      DecodeInverts(w, rest);
    }
  }

  /** A stream that breaks off inside a legal frame has ended too early. */
  lemma CutShort(w: Wire, n: nat)
    requires LegalWire(w) && n < |EncodeClient(w)|
    ensures Decode(EncodeClient(w)[..n]) == Failure(EndOfStream)
  {
    hide LengthBytes, Length, MaskedFrom, FirstByte;
    var s, t := EncodeClient(w), EncodeClient(w)[..n];
    var tail := w.mask + MaskedFrom(w.payload, w.mask);
    var first := FirstByte(w.fin, w.op);
    assert s == [first] + LengthBytes(|w.payload|, w.form, 0x80) + tail;
    HeaderBits(w.fin, w.op);
    LengthBack(first, |w.payload|, w.form, 0x80, tail);
    if n >= 2 {
      LengthCut(s, n);
    }
  }

  lemma LengthCut(s: seq<Byte>, n: nat)
    requires 2 <= n <= |s| && Length(s).Some?
    ensures Length(s[..n]) == if n < 2 + Length(s).value.1 then None else Length(s)
  {
    hide FromBytes;
    if n >= 4 { assert s[..n][2..4] == s[2..4]; }
    if n >= 10 { assert s[..n][2..10] == s[2..10]; }
  }

  // ---- how a read goes on and how it ends ----

  /** Frames that leave a message unfinished: control frames, and fragments that are not the last. */
  ghost predicate Pending(ws: seq<Wire>, begun: bool)
  {
    ws == [] || (LegalWire(ws[0]) &&
                 var w, more := ws[0], ws[1..];
                 if w.op == PING || w.op == PONG then Pending(more, begun)
                 else
                   && !w.fin && (if begun then w.op == CONTINUATION else w.op == TEXT || w.op == BINARY)
                   && Pending(more, true))
  }

  lemma {:induction false} PendingWires(ws: seq<Wire>, begun: bool)
    requires Pending(ws, begun)
    ensures forall w <- ws :: LegalWire(w)
  {
    if ws != [] {
      assert ws == [ws[0]] + ws[1..];
      PendingWires(ws[1..], begun || !(ws[0].op == PING || ws[0].op == PONG));
    }
  }

  function Sum(begun: Option<Message>): nat
  {
    if begun.Some? then |begun.value.payload| else 0
  }

  predicate HasData(ws: seq<Wire>)
  {
    exists w <- ws :: w.op != PING && w.op != PONG
  }

  /** The message under way behind further frames. */
  function Grown(begun: Option<Message>, ws: seq<Wire>): Option<Message>
  {
    if begun.Some? then Some(Message(begun.value.op, begun.value.payload + DataOf(ws)))
    else if HasData(ws) then Some(Message(OpOf(ws), DataOf(ws)))
    else None
  }

  lemma HasDataSplit(w: Wire, ws: seq<Wire>)
    ensures HasData([w] + ws) == ((w.op != PING && w.op != PONG) || HasData(ws))
  {
    if HasData(ws) {
      var v :| v in ws && v.op != PING && v.op != PONG;
      assert v in [w] + ws;
    }
    assert w in [w] + ws;
  }

  lemma {:induction false} NoData(ws: seq<Wire>)
    requires !HasData(ws)
    ensures DataOf(ws) == []
  {
    if ws != [] {
      assert ws == [ws[0]] + ws[1..];
      HasDataSplit(ws[0], ws[1..]);
      NoData(ws[1..]);
    }
  }

  /** One frame that leaves the message unfinished. */
  lemma GoesOnOnce(w: Wire, begun: Option<Message>, closeSent: bool, more: seq<Byte>)
    requires Pending([w], begun.Some?) && Sum(begun) + |DataOf([w])| <= MAX_MESSAGE
    ensures var b := Grown(begun, [w]);
            && LegalWire(w) && Sum(b) == Sum(begun) + |DataOf([w])|
            && b.Some? == (begun.Some? || (w.op != PING && w.op != PONG))
            && var v := Serve(more, b, closeSent);
               Serve(EncodeClient(w) + more, begun, closeSent) == v.(sent := PongsFor([w]) + v.sent)
  {
    hide Decode, EncodeServer, EncodeClient, LegalWire;
    assert LegalWire([w][0]);
    WireShape(w);
    DecodeInverts(w, more);
    NothingMore();
    assert [w] == [w] + [];
    HasDataSplit(w, []);
    assert OpOf([w]) == if w.op == PING || w.op == PONG then OpOf([w][1..]) else w.op;
    assert DataOf([w]) == if w.op == PING || w.op == PONG then [] else w.payload;
    assert PongsFor([w]) == if w.op == PING then EncodeServer(PONG, w.payload) else [];
    if begun.Some? {
      assert begun.value.payload + [] == begun.value.payload;
    }
    var v := Serve(more, Grown(begun, [w]), closeSent);
    assert [] + v.sent == v.sent;
  }

  /** Frames that leave a message unfinished only add to what is under way, and every ping is answered in order. */
  lemma {:induction false} GoesOn(ws: seq<Wire>, begun: Option<Message>, closeSent: bool, more: seq<Byte>)
    requires Pending(ws, begun.Some?) && Sum(begun) + |DataOf(ws)| <= MAX_MESSAGE
    ensures (PendingWires(ws, begun.Some?);
             var b := Grown(begun, ws);
             && Sum(b) <= MAX_MESSAGE
             && var v := Serve(more, b, closeSent);
                Serve(EncodeAll(ws) + more, begun, closeSent) == v.(sent := PongsFor(ws) + v.sent))
  {
    hide Decode, EncodeServer, EncodeClient, LegalWire, Serve, HasData;
    PendingWires(ws, begun.Some?);
    NothingMore();
    if ws == [] {
      Nothing(begun, more);
      var v := Serve(more, begun, closeSent);
      assert [] + v.sent == v.sent;
    } else {
      var w, ws' := ws[0], ws[1..];
      assert ws == [w] + ws';
      One(w, begun.Some?);
      DataSplit(w, ws');
      GoesOnOnce(w, begun, closeSent, EncodeAll(ws') + more);
      var b := Grown(begun, [w]);
      GoesOn(ws', b, closeSent, more);
      GrownSplit(w, ws', begun);
      WireShape(w);
      var v := Serve(more, Grown(begun, ws), closeSent);
      assert EncodeAll(ws) + more == EncodeClient(w) + (EncodeAll(ws') + more);
      assert PongsFor([w]) + (PongsFor(ws') + v.sent) == PongsFor(ws) + v.sent;
    }
  }

  lemma One(w: Wire, begun: bool)
    requires LegalWire(w)
    ensures Pending([w], begun) <==>
            || w.op == PING || w.op == PONG
            || (!w.fin && if begun then w.op == CONTINUATION else w.op == TEXT || w.op == BINARY)
  {
    hide LegalWire;
    assert [w][1..] == [];
  }

  lemma DataSplit(w: Wire, ws: seq<Wire>)
    ensures DataOf([w] + ws) == DataOf([w]) + DataOf(ws) && PongsFor([w] + ws) == PongsFor([w]) + PongsFor(ws)
  {
    hide EncodeServer;
    NothingMore();
    assert ([w] + ws)[1..] == ws;
  }

  lemma GrownSplit(w: Wire, ws: seq<Wire>, begun: Option<Message>)
    ensures Grown(Grown(begun, [w]), ws) == Grown(begun, [w] + ws)
  {
    DataSplit(w, ws);
    HasDataSplit(w, ws);
    HasDataSplit(w, []);
    assert [w] + [] == [w];
    NothingMore();
    assert ([w] + ws)[1..] == ws && [w][1..] == [];
    assert !HasData([]);
    if !HasData(ws) { NoData(ws); }
    if begun.Some? {
      var p := begun.value.payload;
      assert p + DataOf([w]) + DataOf(ws) == p + (DataOf([w]) + DataOf(ws));
    } else if w.op == PING || w.op == PONG {
      assert DataOf([w]) == [] && [] + DataOf(ws) == DataOf(ws);
    }
  }

  lemma Nothing(begun: Option<Message>, more: seq<Byte>)
    ensures Grown(begun, []) == begun && EncodeAll([]) + more == more
  {
    if begun.Some? {
      assert begun.value.payload + [] == begun.value.payload;
    }
  }

  /** How the read of one more frame ends, if it ends: `begun` is the message under way. */
  ghost predicate Ends(begun: Option<Message>, w: Wire)
  {
    || w.op !in {PING, PONG, TEXT, BINARY, CONTINUATION}
    || (w.op == CONTINUATION && (begun == None || w.fin || Sum(begun) + |w.payload| > MAX_MESSAGE))
    || ((w.op == TEXT || w.op == BINARY) && (begun.Some? || w.fin))
  }

  /** The message or the error it ends with. */
  function Ending(begun: Option<Message>, w: Wire): Result<Message, Error>
  {
    if w.op == CLOSE then Success(Message(CLOSE, w.payload))
    else if w.op !in {TEXT, BINARY, CONTINUATION} then Failure(UnknownOpcode(w.op))
    else if w.op == CONTINUATION && begun == None then Failure(ContinuationWithoutStart)
    else if w.op != CONTINUATION && begun.Some? then Failure(DataWhileFragmented)
    else if Sum(begun) + |w.payload| > MAX_MESSAGE then Failure(MessageTooLarge)
    else Success(if begun.Some? then Message(begun.value.op, begun.value.payload + w.payload)
          else Message(w.op, w.payload))
  }

  /**
   * A read that gets pending frames and one that ends it: the result, the pongs, and
   * the close frame sent back whole, unless one has gone out before.
   */
  lemma ReadEnds(ws: seq<Wire>, w: Wire, begun: Option<Message>, closeSent: bool, rest: seq<Byte>)
    requires Pending(ws, begun.Some?) && Sum(begun) + |DataOf(ws)| <= MAX_MESSAGE
    requires LegalWire(w) && Ends(Grown(begun, ws), w)
    ensures (PendingWires(ws, begun.Some?);
             Serve(EncodeAll(ws) + EncodeClient(w) + rest, begun, closeSent)
             == Served(Ending(Grown(begun, ws), w), rest,
                       PongsFor(ws) + (if w.op == CLOSE && !closeSent then EncodeServer(CLOSE, w.payload) else []),
                       closeSent || w.op == CLOSE))
  {
    hide Decode, EncodeServer, EncodeClient, LegalWire, Grown, Pending;
    PendingWires(ws, begun.Some?);
    WireShape(w);
    var more := EncodeClient(w) + rest;
    assert EncodeAll(ws) + EncodeClient(w) + rest == EncodeAll(ws) + more;
    GoesOn(ws, begun, closeSent, more);
    DecodeInverts(w, rest);
    ControlFits(w);
  }

  lemma ControlFits(w: Wire)
    requires LegalWire(w)
    ensures w.op == CLOSE ==> |w.payload| <= 125
    ensures |w.payload| <= MAX_MESSAGE
  {
  }

  /** A read whose next frame is none: its error, and the pongs. */
  lemma ReadBreaks(ws: seq<Wire>, begun: Option<Message>, closeSent: bool, tail: seq<Byte>)
    requires Pending(ws, begun.Some?) && Sum(begun) + |DataOf(ws)| <= MAX_MESSAGE && Decode(tail).Failure?
    ensures (PendingWires(ws, begun.Some?);
             Serve(EncodeAll(ws) + tail, begun, closeSent)
             == Served(Failure(Decode(tail).error), [], PongsFor(ws), closeSent))
  {
    hide Decode, EncodeServer, EncodeClient, LegalWire, Grown, Pending;
    PendingWires(ws, begun.Some?);
    GoesOn(ws, begun, closeSent, tail);
    assert PongsFor(ws) + [] == PongsFor(ws);
  }

  /** These are pending frames, and behind them a frame that ends the read or bytes that are no frame. */
  ghost predicate Cuts(s: seq<Byte>, begun: Option<Message>, ws: seq<Wire>, tail: seq<Byte>)
  {
    && Pending(ws, begun.Some?) && Sum(begun) + |DataOf(ws)| <= MAX_MESSAGE
    && (PendingWires(ws, begun.Some?); s == EncodeAll(ws) + tail)
    && (Decode(tail).Failure? || exists w, rest ::
          LegalWire(w) && Ends(Grown(begun, ws), w) && tail == EncodeClient(w) + rest)
  }

  /** Whatever bytes come in can be cut like this, so ReadEnds and ReadBreaks say of all bytes what is read. */
  lemma {:induction false} EveryRead(s: seq<Byte>, begun: Option<Message>) returns (ws: seq<Wire>, tail: seq<Byte>)
    requires Sum(begun) <= MAX_MESSAGE
    ensures Cuts(s, begun, ws, tail)
    decreases |s|
  {
    hide *;
    ws, tail := [], s;
    if Decode(s).Failure? {
      CutsNothing(s, begun);
    } else {
      var w := DecodeOnly(s);
      var more := Decode(s).value.1;
      WireShape(w);
      if Ends(begun, w) {
        CutsEnd(s, begun, w, more);
      } else {
        Stays(w, begun);
        GoesOnOnce(w, begun, false, more);
        var ws', tail' := EveryRead(more, Grown(begun, [w]));
        CutsMore(s, begun, w, more, ws', tail');
        ws, tail := [w] + ws', tail';
      }
    }
  }

  lemma CutsNothing(s: seq<Byte>, begun: Option<Message>)
    requires Sum(begun) <= MAX_MESSAGE && Decode(s).Failure?
    ensures Cuts(s, begun, [], s)
  {
    hide Decode;
    NothingMore();
    Nothing(begun, s);
  }

  lemma CutsEnd(s: seq<Byte>, begun: Option<Message>, w: Wire, rest: seq<Byte>)
    requires Sum(begun) <= MAX_MESSAGE && LegalWire(w) && Ends(begun, w) && s == EncodeClient(w) + rest
    ensures Cuts(s, begun, [], s)
  {
    hide Decode, LegalWire, EncodeClient;
    NothingMore();
    Nothing(begun, s);
  }

  lemma CutsMore(s: seq<Byte>, begun: Option<Message>, w: Wire, more: seq<Byte>, ws: seq<Wire>, tail: seq<Byte>)
    requires LegalWire(w) && Pending([w], begun.Some?) && s == EncodeClient(w) + more
    requires Cuts(more, Grown(begun, [w]), ws, tail) && Sum(Grown(begun, [w])) == Sum(begun) + |DataOf([w])|
    requires Grown(begun, [w]).Some? == (begun.Some? || (w.op != PING && w.op != PONG))
    ensures Cuts(s, begun, [w] + ws, tail)
  {
    hide Decode, LegalWire, EncodeClient, EncodeAll, Grown, Ends, Pending, DataOf;
    WireShape(w);
    GrownSplit(w, ws, begun);
    DataSplit(w, ws);
    Joined(w, ws, begun.Some?);
    assert EncodeClient(w) + (EncodeAll(ws) + tail) == EncodeClient(w) + EncodeAll(ws) + tail;
  }

  lemma Stays(w: Wire, begun: Option<Message>)
    requires LegalWire(w) && !Ends(begun, w) && Sum(begun) <= MAX_MESSAGE
    ensures Pending([w], begun.Some?) && Sum(begun) + |DataOf([w])| <= MAX_MESSAGE
  {
    One(w, begun.Some?);
    ControlFits(w);
    NothingMore();
    assert [w][1..] == [];
    assert DataOf([w]) == if w.op == PING || w.op == PONG then [] else w.payload;
  }

  lemma Joined(w: Wire, ws: seq<Wire>, begun: bool)
    requires Pending([w], begun) && Pending(ws, begun || !(w.op == PING || w.op == PONG))
    ensures Pending([w] + ws, begun) && LegalWire(w)
    ensures forall v <- [w] + ws :: LegalWire(v)
    ensures (forall v <- ws :: LegalWire(v)) && EncodeAll([w] + ws) == EncodeClient(w) + EncodeAll(ws)
  {
    hide LegalWire, EncodeClient;
    assert LegalWire([w][0]);
    assert ([w] + ws)[1..] == ws;
    PendingWires([w] + ws, begun);
    PendingWires(ws, begun || !(w.op == PING || w.op == PONG));
    WireShape(w);
  }
}
