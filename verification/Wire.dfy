/**
 * The messages between client and server (PP/src/defSerialization.c, PI/src/defSerialization.c)
 * and how the receiver cuts them out of the stream (PP/src/server_defs.c). Multi-byte fields are
 * in little-endian order; `None` stands for an access outside a block or for a failed receive.
 */
module Wire {
  import opened Options

  type byte = x: int | 0 <= x < 256
  type uint16 = x: int | 0 <= x < 0x1_0000
  type int32 = x: int | -0x8000_0000 <= x < 0x8000_0000

  /** The characters of a C string before its NUL. */
  type Text = s: seq<byte> | 0 !in s

  datatype Message = Message(kind: byte, text: Text)

  /** What the receiver ends up with: the data block still holds the NUL. */
  datatype Received = Received(kind: byte, data: seq<byte>)

  /** A message as the client sends it: the first one carries a priority. */
  datatype Frame = Plain(message: Message) | Prioritized(message: Message, priority: int32)

  datatype Delivery = Delivery(received: Received, priority: Option<int32>)

  function Truncate16(n: int): uint16 {
    n % 0x1_0000
  }

  function Bytes16(n: uint16): (s: seq<byte>)
    ensures |s| == 2
  {
    [n % 256, n / 256]
  }

  function Value16(low: byte, high: byte): uint16 {
    low + 256 * high
  }

  function Unsigned32(p: int32): (n: int)
    ensures 0 <= n < 0x1_0000_0000
  {
    if p < 0 then p + 0x1_0000_0000 else p
  }

  function Bytes32(p: int32): (s: seq<byte>)
    ensures |s| == 4
  {
    var n := Unsigned32(p);
    [n % 256, n / 256 % 256, n / 0x1_0000 % 256, n / 0x100_0000 % 256]
  }

  function Value32(s: seq<byte>): int32
    requires |s| == 4
  {
    var n: int := s[0] as int + 256 * s[1] as int + 0x1_0000 * s[2] as int + 0x100_0000 * s[3] as int;
    if n < 0x8000_0000 then n else n - 0x1_0000_0000
  }

  // ----- the format

  function FrameLength(f: Frame): nat {
    4 + |f.message.text| + if f.Prioritized? then 4 else 0
  }

  function Encode(f: Frame): seq<byte> {
    [f.message.kind] + Bytes16(Truncate16(FrameLength(f)))
    + (if f.Prioritized? then Bytes32(f.priority) else [])
    + f.message.text + [0]
  }

  function LengthField(block: seq<byte>): uint16
    requires |block| >= 3
  {
    Value16(block[1], block[2])
  }

  function Decode(block: seq<byte>, prioritized: bool): Option<Delivery> {
    var header := if prioritized then 7 else 3;
    if |block| < header then None
    else
      var length := Truncate16(LengthField(block) - header);
      if header + length > |block| then None
      else Some(Delivery(Received(block[0], block[header..header + length]),
                         if prioritized then Some(Value32(block[3..7])) else None))
  }

  /** What one receive leaves on the stream: the header is peeked, then `length` bytes are taken. */
  function Cut(stream: seq<byte>): Option<(seq<byte>, seq<byte>)> {
    if |stream| < 3 then None
    else
      var length := LengthField(stream);
      if length == 0 || length > |stream| then None
      else Some((stream[..length], stream[length..]))
  }

  /** Reads one message per element of `kinds`; true means readStreamPri, false readStream. */
  function ReadAll(stream: seq<byte>, kinds: seq<bool>): Option<seq<Delivery>> {
    if kinds == [] then (if stream == [] then Some([]) else None)
    else match Cut(stream)
      case None => None
      case Some((block, rest)) =>
        match (Decode(block, kinds[0]), ReadAll(rest, kinds[1..]))
        case (Some(first), Some(others)) => Some([first] + others)
        case _ => None
  }

  function Sent(frames: seq<Frame>): seq<byte> {
    if frames == [] then [] else Encode(frames[0]) + Sent(frames[1..])
  }

  function Kinds(frames: seq<Frame>): seq<bool> {
    if frames == [] then [] else [frames[0].Prioritized?] + Kinds(frames[1..])
  }

  function Delivered(f: Frame): Delivery {
    Delivery(Received(f.message.kind, f.message.text + [0]), if f.Prioritized? then Some(f.priority) else None)
  }

  function AllDelivered(frames: seq<Frame>): seq<Delivery> {
    if frames == [] then [] else [Delivered(frames[0])] + AllDelivered(frames[1..])
  }

  predicate Fits(f: Frame) {
    FrameLength(f) <= 0xFFFF
  }

  predicate AllFit(frames: seq<Frame>) {
    forall i :: 0 <= i < |frames| ==> Fits(frames[i])
  }

  // ----- the code

  method MemCpy(dst: array<byte>, to: nat, src: seq<byte>)
    requires to + |src| <= dst.Length
    modifies dst
    ensures dst[..to + |src|] == old(dst[..to]) + src
    ensures forall j :: to + |src| <= j < dst.Length ==> dst[j] == old(dst[j])
  {
    for i := 0 to |src|
      invariant forall j :: 0 <= j < dst.Length ==> dst[j] == if to <= j < to + i then src[j - to] else old(dst[j])
    {
      dst[to + i] := src[i];
    }
  }

  /** serialization; `ok` is false when the data does not fit the block that was allocated. */
  method Serialization(datos: Message) returns (ok: bool, length: uint16, data: array<byte>)
    ensures fresh(data)
    ensures ok <==> Fits(Plain(datos))
    ensures ok ==> data[..] == Encode(Plain(datos)) && length == data.Length
  {
    length := Truncate16(1 + 2 + |datos.text| + 1);
    data := new byte[length];
    var offset := 0;
    if length < 3 + |datos.text| + 1 {
      return false, length, data;
    }
    hide Bytes16, Bytes32, Truncate16;
    MemCpy(data, offset, [datos.kind]);
    offset := offset + 1;
    MemCpy(data, offset, Bytes16(length));
    offset := offset + 2;
    MemCpy(data, offset, datos.text + [0]);
    length := offset + |datos.text| + 1;
    assert data[..] == data[..length];
    ok := true;
  }

  /** serializationPri. */
  method SerializationPri(datos: Message, priority: int32) returns (ok: bool, length: uint16, data: array<byte>)
    ensures fresh(data)
    ensures ok <==> Fits(Prioritized(datos, priority))
    ensures ok ==> data[..] == Encode(Prioritized(datos, priority)) && length == data.Length
  {
    length := Truncate16(1 + 2 + 4 + |datos.text| + 1);
    data := new byte[length];
    var offset := 0;
    if length < 7 + |datos.text| + 1 {
      return false, length, data;
    }
    hide Bytes16, Bytes32, Truncate16;
    MemCpy(data, offset, [datos.kind]);
    offset := offset + 1;
    MemCpy(data, offset, Bytes16(length));
    offset := offset + 2;
    MemCpy(data, offset, Bytes32(priority));
    offset := offset + 4;
    MemCpy(data, offset, datos.text + [0]);
    length := offset + |datos.text| + 1;
    assert data[..] == data[..length];
    ok := true;
  }

  /** deserialization and deserializationPri of a received block. */
  method Deserialization(stream: array<byte>, prioritized: bool) returns (r: Option<Delivery>)
    ensures r == Decode(stream[..], prioritized)
  {
    var header := if prioritized then 7 else 3;
    if stream.Length < header {
      return None;
    }
    var kind := stream[0];
    var offset := 1;
    var length: uint16 := Value16(stream[offset], stream[offset + 1]);
    offset := offset + 2;
    var priority := None;
    if prioritized {
      priority := Some(Value32(stream[offset..offset + 4]));
      offset := offset + 4;
    }
    length := Truncate16(length - header);
    if offset + length > stream.Length {
      return None;
    }
    var data := new byte[length];
    MemCpy(data, 0, stream[offset..offset + length]);
    assert data[..] == stream[..][header..header + length];
    assert prioritized ==> stream[3..7] == stream[..][3..7];
    r := Some(Delivery(Received(kind, data[..]), priority));
  }

  // ----- round trips

  lemma RoundTrip16(n: uint16)
    ensures var s := Bytes16(n); Value16(s[0], s[1]) == n
  {
  }

  lemma RoundTrip32(p: int32)
    ensures Value32(Bytes32(p)) == p
  {
    var n := Unsigned32(p);
    var a, b, c, d := n % 256, n / 256 % 256, n / 0x1_0000 % 256, n / 0x100_0000 % 256;
    assert n == a + 256 * (n / 256);
    assert n / 256 == b + 256 * (n / 0x1_0000);
    assert n / 0x1_0000 == c + 256 * (n / 0x100_0000);
    assert n / 0x100_0000 == d;
  }

  /** The length field is the number of bytes produced exactly when that number fits 16 bits. */
  lemma LengthFieldExactlyWhen(f: Frame)
    ensures |Encode(f)| == FrameLength(f) >= 4
    ensures LengthField(Encode(f)) == |Encode(f)| <==> Fits(f)
  {
    RoundTrip16(Truncate16(FrameLength(f)));
    var s := Bytes16(Truncate16(FrameLength(f)));
    assert Encode(f)[1] == s[0] && Encode(f)[2] == s[1];
  }

  /** Decoding undoes encoding for both kinds of message. */
  lemma RoundTrip(f: Frame)
    requires Fits(f)
    ensures Decode(Encode(f), f.Prioritized?) == Some(Delivered(f))
  {
    LengthFieldExactlyWhen(f);
    var block := Encode(f);
    if f.Prioritized? {
      RoundTrip32(f.priority);
      assert block[3..7] == Bytes32(f.priority);
      assert block[7..7 + (|block| - 7)] == f.message.text + [0];
    } else {
      assert block[3..3 + (|block| - 3)] == f.message.text + [0];
    }
  }

  /** The receiver gets exactly the messages that were sent, in order, and nothing is left over. */
  lemma {:induction false} FramingRoundTrip(frames: seq<Frame>)
    requires AllFit(frames)
    ensures ReadAll(Sent(frames), Kinds(frames)) == Some(AllDelivered(frames))
  {
    if frames != [] {
      var f, rest := frames[0], Sent(frames[1..]);
      var stream := Encode(f) + rest;
      LengthFieldExactlyWhen(f);
      RoundTrip(f);
      assert stream[1] == Encode(f)[1] && stream[2] == Encode(f)[2];
      assert stream[..|Encode(f)|] == Encode(f) && stream[|Encode(f)|..] == rest;
      FramingRoundTrip(frames[1..]);
      assert Kinds(frames)[1..] == Kinds(frames[1..]);
    }
  }

  /** Different messages are delivered differently, so the texts themselves are recovered. */
  lemma DeliveredIsInjective(f: Frame, g: Frame)
    ensures Delivered(f) == Delivered(g) <==> f == g
  {
    if Delivered(f) == Delivered(g) {
      assert f.message.text == (f.message.text + [0])[..|f.message.text|];
      assert g.message.text == (g.message.text + [0])[..|g.message.text|];
    }
  }

  // ----- where every byte stands

  function Power256(k: nat): (p: nat)
    requires k < 4
    ensures p > 0
  {
    match k case 0 => 1 case 1 => 0x100 case 2 => 0x1_0000 case 3 => 0x100_0000
  }

  /** Where the text begins. */
  function Header(f: Frame): nat {
    if f.Prioritized? then 7 else 3
  }

  lemma PriorityBytes(p: int32, k: nat)
    requires k < 4
    ensures Bytes32(p)[k] == Unsigned32(p) / Power256(k) % 256
  {
  }

  /** The kind, the length with its low byte first, the priority with its low byte first, the text and a NUL. */
  lemma EveryByte(f: Frame, i: nat)
    requires Fits(f)
    ensures |Encode(f)| == Header(f) + |f.message.text| + 1
    ensures i < |Encode(f)| ==>
              Encode(f)[i] ==
                if i == 0 then f.message.kind
                else if i == 1 then FrameLength(f) % 256
                else if i == 2 then FrameLength(f) / 256
                else if i < Header(f) then Unsigned32(f.priority) / Power256(i - 3) % 256
                else if i < Header(f) + |f.message.text| then f.message.text[i - Header(f)]
                else 0
  {
    hide Bytes32;
    if 3 <= i < Header(f) {
      PriorityBytes(f.priority, i - 3);
    }
  }
}
