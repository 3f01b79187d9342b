/**
 The WebSocket client of the UI checks: framing as in sections 5.2 to 5.5 of RFC 6455.
 Texts are byte strings. The socket delivers its bytes in pieces of any size.
 */
module WebSocket {
  import opened Wrappers

  type Byte = b: int | 0 <= b < 256

  type Mask = m: seq<Byte> | |m| == 4 witness [0, 0, 0, 0]

  const CONTINUATION := 0
  const TEXT := 1
  const CLOSE := 8
  const PING := 9
  const PONG := 10

  // Bits.

  function Xor(a: nat, b: nat, bits: nat): nat {
    if bits == 0 then 0 else 2 * Xor(a / 2, b / 2, bits - 1) + XorBit(a, b)
  }

  function XorBit(a: nat, b: nat): (bit: nat)
    ensures bit < 2
  {
    (a % 2 + b % 2) % 2
  }

  function Power2(n: nat): nat {
    if n == 0 then 1 else 2 * Power2(n - 1)
  }

  lemma {:induction false} XorBound(a: nat, b: nat, bits: nat)
    ensures Xor(a, b, bits) < Power2(bits)
  {
    if bits > 0 { XorBound(a / 2, b / 2, bits - 1); }
  }

  lemma XorPair(half: nat, bit: nat, b: nat, bits: nat)
    requires bit < 2 && bits > 0
    ensures Xor(2 * half + bit, b, bits) == 2 * Xor(half, b / 2, bits - 1) + XorBit(bit, b)
  {
    var a := 2 * half + bit;
    assert a / 2 == half && a % 2 == bit;
  }

  lemma HalfBound(a: nat, bits: nat)
    requires bits > 0 && a < Power2(bits)
    ensures a / 2 < Power2(bits - 1)
  {}

  lemma BitTwice(a: nat, b: nat)
    ensures XorBit(XorBit(a, b), b) == a % 2
  {}

  lemma {:induction false} XorTwice(a: nat, b: nat, bits: nat)
    requires a < Power2(bits)
    ensures Xor(Xor(a, b, bits), b, bits) == a
  {
    if bits > 0 {
      hide Power2, XorBit;
      HalfBound(a, bits);
      XorTwice(a / 2, b / 2, bits - 1);
      XorPair(Xor(a / 2, b / 2, bits - 1), XorBit(a, b), b, bits);
      BitTwice(a, b);
    } else {
      assert Power2(0) == 1;
    }
  }

  lemma EightBits()
    ensures Power2(8) == 256
  {
    assert Power2(4) == 16;
  }

  function XorByte(a: Byte, b: Byte): Byte {
    EightBits();
    XorBound(a, b, 8);
    Xor(a, b, 8)
  }

  function Masked(data: seq<Byte>, mask: Mask): (r: seq<Byte>)
    ensures |r| == |data|
  {
    seq(|data|, i requires 0 <= i < |data| => XorByte(data[i], mask[i % 4]))
  }

  lemma MaskTwice(data: seq<Byte>, mask: Mask)
    ensures Masked(Masked(data, mask), mask) == data
  {
    forall i | 0 <= i < |data| ensures Masked(Masked(data, mask), mask)[i] == data[i] {
      EightBits();
      XorTwice(data[i], mask[i % 4], 8);
    }
  }

  /** Network byte order. */
  function ToBytes(n: nat, width: nat): (r: seq<Byte>)
    ensures |r| == width
  {
    if width == 0 then [] else ToBytes(n / 256, width - 1) + [n % 256]
  }

  function FromBytes(s: seq<Byte>): nat {
    if s == [] then 0 else FromBytes(s[..|s| - 1]) * 256 + s[|s| - 1]
  }

  function Capacity(width: nat): nat {
    if width == 0 then 1 else 256 * Capacity(width - 1)
  }

  lemma {:induction false} BytesRoundTrip(n: nat, width: nat)
    requires n < Capacity(width)
    ensures FromBytes(ToBytes(n, width)) == n
  {
    if width > 0 {
      BytesRoundTrip(n / 256, width - 1);
      assert ToBytes(n, width)[..width - 1] == ToBytes(n / 256, width - 1);
    }
  }

  lemma Capacities()
    ensures Capacity(2) == 0x1_0000 && Capacity(8) == 0x1_0000_0000_0000_0000
  {
    assert Capacity(4) == 0x1_0000_0000;
    assert Capacity(6) == 0x1_0000_0000_0000;
  }

  // Frames.

  datatype Frame = Frame(fin: bool, opcode: nat, payload: seq<Byte>)

  /** Seven bits, or an announced two or eight bytes more. */
  datatype Form = Short | Medium | Long

  datatype Sent = Sent(frame: Frame, mask: Option<Mask>, form: Form)

  predicate FormFits(form: Form, n: nat) {
    match form
    case Short => n <= 125
    case Medium => n < 0x1_0000
    case Long => n < 0x1_0000_0000_0000_0000
  }

  predicate Sendable(s: Sent) {
    s.frame.opcode < 16 && FormFits(s.form, |s.frame.payload|)
  }

  function Marker(form: Form, n: nat): nat
    requires FormFits(form, n)
    ensures Marker(form, n) < 128
  {
    match form case Short => n case Medium => 126 case Long => 127
  }

  function Extension(form: Form): nat {
    match form case Short => 0 case Medium => 2 case Long => 8
  }

  function Head(s: Sent): (r: seq<Byte>)
    requires Sendable(s)
    ensures |r| == 2 + Extension(s.form)
  {
    var n := |s.frame.payload|;
    [(if s.frame.fin then 128 else 0) + s.frame.opcode, (if s.mask.Some? then 128 else 0) + Marker(s.form, n)]
    + ToBytes(n, Extension(s.form))
  }

  function Body(s: Sent): seq<Byte> {
    if s.mask.Some? then s.mask.value + Masked(s.frame.payload, s.mask.value) else s.frame.payload
  }

  function Wire(s: Sent): seq<Byte>
    requires Sendable(s)
  {
    Head(s) + Body(s)
  }

  function MinimalForm(n: nat): Form {
    if n < 126 then Short else if n < 0x1_0000 then Medium else Long
  }

  // Reading.

  function ExtensionAfter(second: Byte): nat {
    if second % 128 == 126 then 2 else if second % 128 == 127 then 8 else 0
  }

  function LengthOf(s: seq<Byte>): nat
    requires |s| >= 2 && |s| >= 2 + ExtensionAfter(s[1])
  {
    var ext := ExtensionAfter(s[1]);
    if ext == 0 then s[1] % 128 else FromBytes(s[2..2 + ext])
  }

  function KeyLength(second: Byte): nat {
    if second >= 128 then 4 else 0
  }

  function Unmask(second: Byte, key: seq<Byte>, data: seq<Byte>): seq<Byte>
    requires |key| == KeyLength(second)
  {
    if second >= 128 then Masked(data, key) else data
  }

  /** The first frame of a stream and what follows it, once it is all there. */
  function ReadFrame(s: seq<Byte>): (r: Option<(Frame, seq<Byte>)>)
    ensures r.Some? ==> |r.value.1| < |s|
  {
    if |s| < 2 || |s| < 2 + ExtensionAfter(s[1]) then None
    else
      var key := 2 + ExtensionAfter(s[1]);
      var data := key + KeyLength(s[1]);
      var end := data + LengthOf(s);
      if |s| < end then None
      else Some((Frame(s[0] >= 128, s[0] % 16, Unmask(s[1], s[key..data], s[data..end])), s[end..]))
  }

  lemma HeadReads(s: Sent, tail: seq<Byte>)
    requires Sendable(s)
    ensures var t := Head(s) + tail;
      (t[0] >= 128 <==> s.frame.fin) && t[0] % 16 == s.frame.opcode && (t[1] >= 128 <==> s.mask.Some?)
      && ExtensionAfter(t[1]) == Extension(s.form) && LengthOf(t) == |s.frame.payload|
  {
    var n, ext := |s.frame.payload|, Extension(s.form);
    Capacities();
    if ext > 0 {
      BytesRoundTrip(n, ext);
      assert (Head(s) + tail)[2..2 + ext] == ToBytes(n, ext);
    }
  }

  /** Whatever the length form and the mask, a frame is read back and nothing more is taken. */
  lemma FrameRoundTrip(s: Sent, rest: seq<Byte>)
    requires Sendable(s)
    ensures ReadFrame(Wire(s) + rest) == Some((s.frame, rest))
  {
    hide *;
    var stream := Wire(s) + rest;
    WireParts(s, rest);
    HeadReads(s, Body(s) + rest);
    BodyReads(s, stream, 2 + Extension(s.form), rest);
    Reads(s, stream, rest);
  }

  lemma WireParts(s: Sent, rest: seq<Byte>)
    requires Sendable(s)
    ensures Wire(s) + rest == Head(s) + (Body(s) + rest)
    ensures |Wire(s) + rest| >= 2 + Extension(s.form) && (Wire(s) + rest)[2 + Extension(s.form)..] == Body(s) + rest
  {
    hide Head, Body, Sendable, Extension;
  }

  lemma Reads(s: Sent, stream: seq<Byte>, rest: seq<Byte>)
    requires s.frame.opcode < 16 && |stream| >= 2 + Extension(s.form) && ExtensionAfter(stream[1]) == Extension(s.form)
    requires (stream[0] >= 128 <==> s.frame.fin) && stream[0] % 16 == s.frame.opcode
    requires (stream[1] >= 128 <==> s.mask.Some?)
    requires LengthOf(stream) == |s.frame.payload| && BodyAt(s, stream, 2 + Extension(s.form), rest)
    ensures ReadFrame(stream) == Some((s.frame, rest))
  {
    hide LengthOf, ExtensionAfter, Masked, Extension;
  }

  /** From position `key` on, the stream holds the body of the frame and then `rest`. */
  predicate BodyAt(s: Sent, stream: seq<Byte>, key: nat, rest: seq<Byte>) {
    var data := key + if s.mask.Some? then 4 else 0;
    var end := data + |s.frame.payload|;
    end <= |stream| && stream[end..] == rest
    && (s.mask.Some? ==>
       stream[key..data] == s.mask.value && Masked(stream[data..end], s.mask.value) == s.frame.payload)
    && (s.mask.None? ==> stream[data..end] == s.frame.payload)
  }

  lemma BodyReads(s: Sent, stream: seq<Byte>, key: nat, rest: seq<Byte>)
    requires key <= |stream| && stream[key..] == Body(s) + rest
    ensures BodyAt(s, stream, key, rest)
  {
    hide Masked;
    var data := key + if s.mask.Some? then 4 else 0;
    var end := data + |s.frame.payload|;
    assert stream[end..] == stream[key..][end - key..];
    assert stream[key..data] == stream[key..][..data - key];
    assert stream[data..end] == stream[key..][data - key..end - key];
    if s.mask.Some? {
      MaskTwice(s.frame.payload, s.mask.value);
      assert stream[data..end] == Masked(s.frame.payload, s.mask.value);
    }
  }

  /** Three parts make a frame; together they are what the reader takes from the stream. */
  lemma ReadTakes(s: seq<Byte>)
    requires ReadFrame(s).Some?
    ensures var (f, rest) := ReadFrame(s).value;
      |s| == 2 + ExtensionAfter(s[1]) + KeyLength(s[1]) + |f.payload| + |rest|
      && (ExtensionAfter(s[1]) == 0 ==> |f.payload| == s[1] % 128)
  {}

  // The bytes on the wire.

  /** The binary digit of weight two to the `k`. */
  predicate Bit(a: nat, k: nat) {
    if k == 0 then a % 2 == 1 else Bit(a / 2, k - 1)
  }

  /** The digit to the base 256, counted from the last. */
  function Digit(n: nat, k: nat): nat {
    if k == 0 then n % 256 else Digit(n / 256, k - 1)
  }

  lemma {:induction false} XorBits(a: nat, b: nat, bits: nat, k: nat)
    requires k < bits
    ensures Bit(Xor(a, b, bits), k) <==> Bit(a, k) != Bit(b, k)
  {
    if k > 0 {
      hide XorBit;
      XorBits(a / 2, b / 2, bits - 1, k - 1);
      assert Xor(a, b, bits) / 2 == Xor(a / 2, b / 2, bits - 1);
    }
  }

  /** Masking sets a bit exactly where one of the two bytes has it and the other has not, and
      the four bytes of the mask take turns. */
  lemma MaskedBits(data: seq<Byte>, mask: Mask, i: nat, k: nat)
    requires i < |data| && k < 8
    ensures Bit(Masked(data, mask)[i], k) <==> Bit(data[i], k) != Bit(mask[i % 4], k)
  {
    XorBits(data[i], mask[i % 4], 8, k);
  }

  /** The most significant byte comes first. */
  lemma {:induction false} BytesAt(n: nat, width: nat, i: nat)
    requires i < width
    ensures ToBytes(n, width)[i] == Digit(n, width - 1 - i)
  {
    if i < width - 1 { BytesAt(n / 256, width - 1, i); }
  }

  /** How far the announced length reaches. */
  function Offset(n: nat): nat {
    if n <= 125 then 2 else if n <= 65535 then 4 else 10
  }

  /** The second byte of a masked frame: its length, or which longer field holds it. */
  function SecondByte(n: nat): nat {
    if n <= 125 then 128 + n else if n <= 65535 then 254 else 255
  }

  /** A text goes out as a final text frame that announces its length in the shortest way, most
      significant byte first, then the mask, then the masked text. */
  lemma TextWire(data: seq<Byte>, mask: Mask)
    requires |data| < 0x1_0000_0000_0000_0000
    ensures var n, w := |data|, Wire(Sent(Frame(true, TEXT, data), Some(mask), MinimalForm(|data|)));
      && |w| == Offset(n) + 4 + n
      && w[0] == 0x81 && w[1] == SecondByte(n)
      && (forall i :: 2 <= i < Offset(n) ==> w[i] == Digit(n, Offset(n) - 1 - i))
      && w[Offset(n)..Offset(n) + 4] == mask
      && (forall i, k :: 0 <= i < n && 0 <= k < 8 ==>
            (Bit(w[Offset(n) + 4 + i], k) <==> Bit(data[i], k) != Bit(mask[i % 4], k)))
  {
    hide Bit, Masked, ToBytes;
    var n, w := |data|, Wire(Sent(Frame(true, TEXT, data), Some(mask), MinimalForm(|data|)));
    forall i | 2 <= i < Offset(n) ensures w[i] == Digit(n, Offset(n) - 1 - i) {
      BytesAt(n, Offset(n) - 2, i - 2);
    }
    forall i, k | 0 <= i < n && 0 <= k < 8
      ensures Bit(w[Offset(n) + 4 + i], k) <==> Bit(data[i], k) != Bit(mask[i % 4], k)
    {
      MaskedBits(data, mask, i, k);
      assert w[Offset(n) + 4 + i] == Masked(data, mask)[i];
    }
  }

  /** A pong goes out as a final pong frame whose length byte has the mask bit added in by `or`;
      no pong goes out for 256 bytes and more. */
  lemma PongWire(mask: Mask, data: seq<Byte>)
    ensures PongBytes(mask, data).Some? <==> |data| <= 255
    ensures |data| <= 255 ==>
      var w := PongBytes(mask, data).value;
      && |w| == 6 + |data| && w[0] == 0x8A && w[2..6] == mask
      && (forall k :: 0 <= k < 8 ==> (Bit(w[1], k) <==> k == 7 || Bit(|data|, k)))
      && (forall i, k :: 0 <= i < |data| && 0 <= k < 8 ==>
            (Bit(w[6 + i], k) <==> Bit(data[i], k) != Bit(mask[i % 4], k)))
  {
    hide Masked;
    if |data| <= 255 {
      var w := PongBytes(mask, data).value;
      forall k | 0 <= k < 8 ensures Bit(w[1], k) <==> k == 7 || Bit(|data|, k) {
        OrTop(|data|, k);
      }
      hide Bit;
      forall i, k | 0 <= i < |data| && 0 <= k < 8
        ensures Bit(w[6 + i], k) <==> Bit(data[i], k) != Bit(mask[i % 4], k)
      {
        MaskedBits(data, mask, i, k);
        assert w[6 + i] == Masked(data, mask)[i];
      }
    }
  }

  lemma OrTop(n: nat, k: nat)
    requires n < 256 && k < 8
    ensures Bit(if n >= 128 then n else 128 + n, k) <==> k == 7 || Bit(n, k)
  {
    if n < 128 { TopBit(n, 7, k); } else { SeventhBit(n, 7); }
  }

  lemma {:induction false} TopBit(n: nat, top: nat, k: nat)
    requires n < Power2(top) && k <= top
    ensures Bit(Power2(top) + n, k) <==> k == top || Bit(n, k)
  {
    if top > 0 {
      assert (Power2(top) + n) / 2 == Power2(top - 1) + n / 2;
      if k > 0 { TopBit(n / 2, top - 1, k - 1); }
    }
  }

  lemma {:induction false} SeventhBit(n: nat, top: nat)
    requires Power2(top) <= n < 2 * Power2(top)
    ensures Bit(n, top)
  {
    if top > 0 { SeventhBit(n / 2, top - 1); }
  }

  // Pongs.

  /** The second byte of a pong ors the mask bit into the length. */
  function PongBytes(mask: Mask, data: seq<Byte>): Option<seq<Byte>> {
    if |data| >= 256 then None
    else Some([128 + PONG, if |data| >= 128 then |data| else 128 + |data|] + mask + Masked(data, mask))
  }

  /** A pong is a frame with the ping's payload exactly when the payload obeys the limit on
      control frames; beyond it the peer reads something else, or nothing is sent. */
  lemma PongReadableIff(mask: Mask, data: seq<Byte>)
    ensures PongBytes(mask, data).Some? && ReadFrame(PongBytes(mask, data).value) == Some((Frame(true, PONG, data), []))
      <==> |data| <= 125
  {
    hide ReadFrame, Masked;
    if |data| <= 125 {
      PongIsWire(mask, data);
      var sent := Sent(Frame(true, PONG, data), Some(mask), Short);
      assert Wire(sent) + [] == Wire(sent);
      FrameRoundTrip(sent, []);
    } else if |data| < 256 {
      var pong := PongBytes(mask, data).value;
      if ReadFrame(pong).Some? { ReadTakes(pong); }
    }
  }

  lemma PongIsWire(mask: Mask, data: seq<Byte>)
    requires |data| <= 125
    ensures PongBytes(mask, data) == Some(Wire(Sent(Frame(true, PONG, data), Some(mask), Short)))
  {
    var sent := Sent(Frame(true, PONG, data), Some(mask), Short);
    assert ToBytes(|data|, 0) == [];
    assert Head(sent) == [128 + PONG, 128 + |data|];
    assert Wire(sent) == [128 + PONG, 128 + |data|] + mask + Masked(data, mask);
  }

  // Messages.

  datatype End = Text(data: seq<Byte>, rest: seq<Byte>) | Closed | Eof | PongTooLong

  /** How receiving ends, and the payloads that were answered with a pong on the way. */
  datatype Received = Received(end: End, pongs: seq<seq<Byte>>)

  predicate IsData(f: Frame) {
    f.opcode == TEXT || f.opcode == CONTINUATION
  }

  function Recv(stream: seq<Byte>, parts: seq<Byte>): Received
    decreases |stream|
  {
    match ReadFrame(stream)
    case None => Received(Eof, [])
    case Some((f, rest)) =>
      if f.opcode == CLOSE then Received(Closed, [])
      else if f.opcode == PING then
        if |f.payload| >= 256 then Received(PongTooLong, [])
        else
          var later := Recv(rest, parts);
          Received(later.end, [f.payload] + later.pongs)
      else if !IsData(f) then Recv(rest, parts)
      else if f.fin then Received(Text(parts + f.payload, rest), [])
      else Recv(rest, parts + f.payload)
  }

  function WireAll(ss: seq<Sent>): seq<Byte>
    requires forall s :: s in ss ==> Sendable(s)
  {
    if ss == [] then [] else Wire(ss[0]) + WireAll(ss[1..])
  }

  /** A frame that does not end the message: an unfinished fragment, a ping, or one to skip. */
  predicate Continues(f: Frame) {
    if f.opcode == 9 then |f.payload| <= 125
    else if f.opcode == 0 || f.opcode == 1 then !f.fin
    else f.opcode != 8
  }

  function DataOf(ss: seq<Sent>): seq<Byte> {
    if ss == [] then [] else DataPart(ss[0].frame) + DataOf(ss[1..])
  }

  function PingsOf(ss: seq<Sent>): seq<seq<Byte>> {
    if ss == [] then [] else PingPart(ss[0].frame) + PingsOf(ss[1..])
  }

  function DataPart(f: Frame): seq<Byte> {
    if f.opcode == 0 || f.opcode == 1 then f.payload else []
  }

  function PingPart(f: Frame): seq<seq<Byte>> {
    if f.opcode == 9 then [f.payload] else []
  }

  /** Any fragmentation into frames of any length form, masked or not, with pings and
      other control frames in between, ending in the final fragment. */
  ghost predicate Message(ss: seq<Sent>) {
    ss != [] && (forall s :: s in ss ==> Sendable(s))
    && (forall i :: 0 <= i < |ss| - 1 ==> Continues(ss[i].frame))
    && ss[|ss| - 1].frame.opcode in {0, 1} && ss[|ss| - 1].frame.fin
  }

  /** The receiver returns exactly the text that was sent, takes exactly its frames from the
      stream, and answers every ping, in order and with its payload. */
  lemma {:induction false} MessageArrives(ss: seq<Sent>, parts: seq<Byte>, rest: seq<Byte>)
    requires Message(ss)
    ensures Recv(WireAll(ss) + rest, parts) == Received(Text(parts + DataOf(ss), rest), PingsOf(ss))
    decreases |ss|
  {
    MessageShape(ss);
    hide *;
    var first, others := ss[0], ss[1..];
    WireSplit(ss, rest);
    FrameRoundTrip(first, WireAll(others) + rest);
    DataSplit(ss, parts);
    if |ss| == 1 {
      NothingMore(others, rest);
      RecvLast(WireAll(ss) + rest, parts, first.frame, rest);
    } else {
      OthersMessage(ss);
      MessageArrives(others, parts + DataPart(first.frame), rest);
      RecvNext(WireAll(ss) + rest, parts, first.frame, WireAll(others) + rest);
    }
  }

  lemma MessageShape(ss: seq<Sent>)
    requires Message(ss)
    ensures ss != [] && Sendable(ss[0]) && (forall s :: s in ss ==> Sendable(s))
      && (forall s :: s in ss[1..] ==> Sendable(s))
    ensures if |ss| == 1 then IsData(ss[0].frame) && ss[0].frame.fin else Continues(ss[0].frame)
  {
    hide Sendable, Continues;
    assert ss[0] in ss;
  }

  /** What the client sends, in the shortest form and masked, any such receiver reads back. */
  lemma SentTextArrives(data: seq<Byte>, mask: Mask, rest: seq<Byte>)
    requires |data| < 0x1_0000_0000_0000_0000
    ensures Recv(Wire(Sent(Frame(true, TEXT, data), Some(mask), MinimalForm(|data|))) + rest, [])
      == Received(Text(data, rest), [])
  {
    hide Recv, ReadFrame, Head, Body;
    var s := Sent(Frame(true, TEXT, data), Some(mask), MinimalForm(|data|));
    FrameRoundTrip(s, rest);
    RecvLast(Wire(s) + rest, [], s.frame, rest);
    assert [] + data == data;
  }

  lemma WireSplit(ss: seq<Sent>, rest: seq<Byte>)
    requires ss != [] && forall s :: s in ss ==> Sendable(s)
    ensures WireAll(ss) + rest == Wire(ss[0]) + (WireAll(ss[1..]) + rest)
  {
    hide Wire, Sendable;
    assert ss[0] in ss;
  }

  lemma DataSplit(ss: seq<Sent>, parts: seq<Byte>)
    requires ss != []
    ensures parts + DataOf(ss) == parts + DataPart(ss[0].frame) + DataOf(ss[1..])
    ensures PingsOf(ss) == PingPart(ss[0].frame) + PingsOf(ss[1..])
  {
    hide DataPart, PingPart;
  }

  /** After the last frame. */
  lemma NothingMore(ss: seq<Sent>, rest: seq<Byte>)
    requires ss == []
    ensures WireAll(ss) + rest == rest && PingsOf(ss) == []
    ensures forall d: seq<Byte> :: d + DataOf(ss) == d
  {}

  lemma RecvLast(stream: seq<Byte>, parts: seq<Byte>, f: Frame, rest: seq<Byte>)
    requires ReadFrame(stream) == Some((f, rest)) && IsData(f) && f.fin
    ensures Recv(stream, parts) == Received(Text(parts + DataPart(f), rest), PingPart(f) + [])
  {
    hide ReadFrame;
  }

  lemma RecvNext(stream: seq<Byte>, parts: seq<Byte>, f: Frame, rest: seq<Byte>)
    requires ReadFrame(stream) == Some((f, rest)) && Continues(f)
    ensures var later := Recv(rest, parts + DataPart(f));
      Recv(stream, parts) == Received(later.end, PingPart(f) + later.pongs)
  {
    hide ReadFrame;
    assert parts + [] == parts;
    var later := Recv(rest, parts + DataPart(f));
    assert [] + later.pongs == later.pongs;
  }

  lemma OthersMessage(ss: seq<Sent>)
    requires Message(ss) && |ss| > 1
    ensures Message(ss[1..])
  {
    forall i | 0 <= i < |ss| - 2 ensures Continues(ss[1..][i].frame) {
      assert Continues(ss[i + 1].frame);
    }
  }

  function PongStream(random: nat -> Mask, drawn: nat, pongs: seq<seq<Byte>>): seq<Byte> {
    if pongs == [] then []
    else
      var n := |pongs| - 1;
      PongStream(random, drawn, pongs[..n])
      + match PongBytes(random(drawn + n), pongs[n]) { case Some(b) => b case None => [] }
  }

  /** The peer can read every answer: the pongs on the wire are frames, one per ping, same payload. */
  lemma {:induction false} PongsReadBack(random: nat -> Mask, drawn: nat, pongs: seq<seq<Byte>>)
    requires forall p :: p in pongs ==> |p| <= 125
    ensures PongStream(random, drawn, pongs) == WireAll(PongFrames(random, drawn, pongs))
  {
    hide Wire, PongBytes, Sendable, WireAll;
    if pongs == [] {
      assert WireAll([]) == [] by { NothingWired(); }
    } else {
      var n := |pongs| - 1;
      var front := PongFrames(random, drawn, pongs[..n]);
      PongsReadBack(random, drawn, pongs[..n]);
      PongIsWire(random(drawn + n), pongs[n]);
      WireAllAppend(front, PongFrame(random(drawn + n), pongs[n]));
    }
  }

  lemma NothingWired()
    ensures WireAll([]) == []
  {}

  function PongFrame(mask: Mask, data: seq<Byte>): (s: Sent)
    requires |data| <= 125
    ensures Sendable(s)
  {
    Sent(Frame(true, PONG, data), Some(mask), Short)
  }

  function PongFrames(random: nat -> Mask, drawn: nat, pongs: seq<seq<Byte>>): (ss: seq<Sent>)
    requires forall p :: p in pongs ==> |p| <= 125
    ensures forall s :: s in ss ==> Sendable(s)
  {
    if pongs == [] then []
    else
      var n := |pongs| - 1;
      PongFrames(random, drawn, pongs[..n]) + [PongFrame(random(drawn + n), pongs[n])]
  }

  lemma {:induction false} WireAllAppend(ss: seq<Sent>, s: Sent)
    requires (forall x :: x in ss ==> Sendable(x)) && Sendable(s)
    ensures WireAll(ss + [s]) == WireAll(ss) + Wire(s)
  {
    hide Wire, Sendable;
    if ss == [] {
      assert [s][1..] == [];
    } else {
      WireAllAppend(ss[1..], s);
      assert (ss + [s])[1..] == ss[1..] + [s];
    }
  }

  // The client.

  class WebSocketClient {
    /** What the peer has yet to deliver, and what this side has put on the wire. */
    var input: seq<Byte>
    var output: seq<Byte>
    const random: nat -> Mask
    var drawn: nat

    constructor (random: nat -> Mask, input: seq<Byte>)
      ensures this.random == random && this.input == input && output == [] && drawn == 0
    {
      this.random, this.input, output, drawn := random, input, [], 0;
    }

    method Urandom() returns (mask: Mask)
      modifies this`drawn
      ensures mask == random(old(drawn)) && drawn == old(drawn) + 1
    {
      mask := random(drawn);
      drawn := drawn + 1;
    }

    /** One socket read: some of what is there, nothing only at the end of the stream. */
    method SocketRecv(n: nat) returns (chunk: seq<Byte>)
      requires n > 0
      modifies this`input
      ensures |chunk| <= n && (chunk == [] <==> old(input) == []) && old(input) == chunk + input
    {
      if input == [] { return []; }
      var k: nat :| 1 <= k <= n && k <= |input|;
      chunk := input[..k];
      input := input[k..];
    }

    method RecvExact(n: nat) returns (r: Option<seq<Byte>>)
      modifies this`input
      ensures r.Some? <==> n <= |old(input)|
      ensures r.Some? ==> r.value == old(input)[..n] && input == old(input)[n..]
    {
      var data: seq<Byte> := [];
      var remaining := n;
      while remaining > 0
        invariant remaining >= 0 && remaining + |data| == n && old(input) == data + input
        decreases remaining
      {
        var chunk := SocketRecv(remaining);
        if chunk == [] { return None; }
        data := data + chunk;
        remaining := remaining - |chunk|;
      }
      assert old(input)[..n] == data && old(input)[n..] == input;
      return Some(data);
    }

    /** The loop over a payload: each byte against the mask's byte in turn. */
    method ApplyMask(data: seq<Byte>, mask: Mask) returns (r: seq<Byte>)
      ensures r == Masked(data, mask)
    {
      r := [];
      for i := 0 to |data|
        invariant r == Masked(data, mask)[..i]
      {
        r := r + [XorByte(data[i], mask[i % 4])];
      }
    }

    /** Refused only for a text longer than eight bytes can count. */
    method SendText(data: seq<Byte>) returns (ok: bool)
      modifies this`output, this`drawn
      ensures ok <==> |data| < 0x1_0000_0000_0000_0000
      ensures ok ==>
        output == old(output) + Wire(Sent(Frame(true, TEXT, data), Some(random(old(drawn))), MinimalForm(|data|)))
      ensures !ok ==> output == old(output)
    {
      var header: seq<Byte> := [0x81];
      var length := |data|;
      if length < 126 {
        header := header + [0x80 + length];
        assert ToBytes(length, 0) == [];
      } else if length < 0x1_0000 {
        header := header + [0x80 + 126] + ToBytes(length, 2);
      } else if length < 0x1_0000_0000_0000_0000 {
        header := header + [0x80 + 127] + ToBytes(length, 8);
      } else {
        return false;
      }
      ghost var sent := Sent(Frame(true, TEXT, data), Some(random(drawn)), MinimalForm(length));
      assert header == Head(sent);
      var mask := Urandom();
      var masked := ApplyMask(data, mask);
      output := output + (header + mask + masked);
      assert header + mask + masked == Wire(sent);
      return true;
    }

    method SendPong(data: seq<Byte>) returns (ok: bool)
      modifies this`output, this`drawn
      ensures ok <==> PongBytes(random(old(drawn)), data).Some?
      ensures ok ==> output == old(output) + PongBytes(random(old(drawn)), data).value && drawn == old(drawn) + 1
      ensures !ok ==> output == old(output) && drawn == old(drawn)
    {
      var length := |data|;
      if length >= 256 { return false; }
      var header: seq<Byte> := [0x8A, if length >= 128 then length else 0x80 + length];
      var mask := Urandom();
      var masked := ApplyMask(data, mask);
      output := output + (header + mask + masked);
      return true;
    }

    /** One frame off the stream, in the pieces the program asks for. */
    method RecvFrame() returns (r: Option<Frame>)
      modifies this`input
      ensures r.Some? <==> ReadFrame(old(input)).Some?
      ensures r.Some? ==> (r.value, input) == ReadFrame(old(input)).value
    {
      hide Masked, FromBytes, LengthOf, ExtensionAfter;
      ghost var s := input;
      var header := RecvHeader();
      if header.None? { return None; }
      var (first, second, length) := header.value;
      ghost var key := 2 + ExtensionAfter(second);
      var payload := RecvPayload(second, length);
      Slices(s, key, KeyLength(second), length);
      if payload.None? { return None; }
      return Some(Frame(first >= 128, first % 16, payload.value));
    }

    method RecvHeader() returns (r: Option<(Byte, Byte, nat)>)
      modifies this`input
      ensures var s := old(input);
        r.Some? <==> |s| >= 2 && |s| >= 2 + ExtensionAfter(s[1])
      ensures var s := old(input);
        r.Some? ==> r.value == (s[0], s[1], LengthOf(s)) && input == s[2 + ExtensionAfter(s[1])..]
    {
      hide FromBytes;
      ghost var s := input;
      var head := RecvExact(2);
      if head.None? { return None; }
      var length: nat := head.value[1] % 128;
      if length == 126 {
        var more := RecvExact(2);
        if more.None? { return None; }
        assert more.value == s[2..4] && input == s[4..];
        length := FromBytes(more.value);
      } else if length == 127 {
        var more := RecvExact(8);
        if more.None? { return None; }
        assert more.value == s[2..10] && input == s[10..];
        length := FromBytes(more.value);
      }
      return Some((head.value[0], head.value[1], length));
    }

    method RecvPayload(second: Byte, length: nat) returns (r: Option<seq<Byte>>)
      modifies this`input
      ensures r.Some? <==> |old(input)| >= KeyLength(second) + length
      ensures var s, key := old(input), KeyLength(second);
        r.Some? ==> r.value == Unmask(second, s[..key], s[key..key + length]) && input == s[key + length..]
    {
      hide Masked;
      ghost var s := input;
      var mask: Option<Mask> := None;
      if second >= 128 {
        var four := RecvExact(4);
        if four.None? { return None; }
        mask := Some(four.value);
      }
      ghost var key := KeyLength(second);
      assert input == s[key..];
      var payload: seq<Byte> := [];
      if length > 0 {
        var all := RecvExact(length);
        if all.None? { return None; }
        payload := all.value;
      }
      assert payload == s[key..key + length] && input == s[key + length..];
      if mask.Some? { payload := ApplyMask(payload, mask.value); }
      return Some(payload);
    }

    method RecvText() returns (end: End)
      modifies this`input, this`output, this`drawn
      ensures end == Recv(old(input), []).end
      ensures output == old(output) + PongStream(random, old(drawn), Recv(old(input), []).pongs)
      ensures end.Text? ==> input == end.rest
    {
      hide ReadFrame, PongBytes, Recv, PongStream;
      var parts: seq<Byte> := [];
      ghost var answered: seq<seq<Byte>> := [];
      ghost var whole := Recv(input, []);
      assert PongStream(random, drawn, []) == [] by { NoPongs(random, drawn); }
      while true
        invariant whole.end == Recv(input, parts).end
        invariant whole.pongs == answered + Recv(input, parts).pongs
        invariant output == old(output) + PongStream(random, old(drawn), answered) && drawn == old(drawn) + |answered|
        decreases |input|
      {
        ghost var before := Recv(input, parts);
        RecvUnfolds(input, parts);
        var got := RecvFrame();
        if got.None? || got.value.opcode == CLOSE {
          assert answered + [] == answered;
          return if got.None? then Eof else Closed;
        }
        var f := got.value;
        if f.opcode == PING {
          PongSentIff(random(drawn), f.payload);
          var ok := SendPong(f.payload);
          if !ok {
            assert answered + [] == answered;
            return PongTooLong;
          }
          OnePongMore(random, old(drawn), answered, f.payload);
          assert answered + ([f.payload] + Recv(input, parts).pongs) ==
            answered + [f.payload] + Recv(input, parts).pongs;
          answered := answered + [f.payload];
          continue;
        }
        if f.opcode == TEXT || f.opcode == CONTINUATION {
          parts := parts + f.payload;
          if f.fin {
            assert answered + [] == answered;
            return Text(parts, input);
          }
        }
      }
    }
  }

  lemma Slices(s: seq<Byte>, from: nat, key: nat, length: nat)
    requires from <= |s|
    ensures var t := s[from..];
      |s| >= from + key + length ==>
        t[..key] == s[from..from + key] && t[key..key + length] == s[from + key..from + key + length]
        && t[key + length..] == s[from + key + length..]
  {}

  lemma NoPongs(random: nat -> Mask, drawn: nat)
    ensures PongStream(random, drawn, []) == []
  {}

  lemma OnePongMore(random: nat -> Mask, drawn: nat, pongs: seq<seq<Byte>>, p: seq<Byte>)
    requires PongBytes(random(drawn + |pongs|), p).Some?
    ensures PongStream(random, drawn, pongs + [p]) ==
      PongStream(random, drawn, pongs) + PongBytes(random(drawn + |pongs|), p).value
  {
    hide PongBytes;
    assert (pongs + [p])[..|pongs|] == pongs;
  }

  /** What the rest of a stream contributes, by its first frame. */
  predicate Unfolds(r: Received, f: Frame, rest: seq<Byte>, parts: seq<Byte>) {
    if f.opcode == CLOSE then r == Received(Closed, [])
    else if f.opcode == PING then
      if |f.payload| >= 256 then r == Received(PongTooLong, [])
      else r == Received(Recv(rest, parts).end, [f.payload] + Recv(rest, parts).pongs)
    else if !IsData(f) then r == Recv(rest, parts)
    else if f.fin then r == Received(Text(parts + f.payload, rest), [])
    else r == Recv(rest, parts + f.payload)
  }

  lemma RecvUnfolds(stream: seq<Byte>, parts: seq<Byte>)
    ensures ReadFrame(stream).None? ==> Recv(stream, parts) == Received(Eof, [])
    ensures ReadFrame(stream).Some? ==>
      Unfolds(Recv(stream, parts), ReadFrame(stream).value.0, ReadFrame(stream).value.1, parts)
  {
    hide ReadFrame;
  }

  lemma PongSentIff(mask: Mask, data: seq<Byte>)
    ensures PongBytes(mask, data).Some? <==> |data| < 256
  {}
}
