/** The 44-byte big-endian control packet. */
module ControlPackets {
  import opened Basics

  newtype word = x: int | 0 <= x < 0x1_0000_0000

  const PACKET_WORDS := 11
  const PACKET_SIZE := 44

  const WIDTH := 320
  const HEIGHT := 240
  const BYTES_PER_PIXEL := 3
  const FRAME_BYTES := 230400

  const REQ_SET_IMAGE: word := 0x06
  const REQ_PROBE: word := 0x0A
  const REQ_CLEAR_IMAGE: word := 0x13
  const REQ_SET_LED: word := 0x18

  datatype Packet = Packet(
    serverId: word,
    page: word,
    dataSize: word,
    headerError: word,
    headerInfo: word,
    request: word,
    param1: word,
    param2: word,
    param3: word,
    requestError: word,
    requestInfo: word)
  {
    function AsWords(): (ws: seq<word>)
      ensures |ws| == PACKET_WORDS
    {
      [serverId, page, dataSize, headerError, headerInfo, request, param1, param2, param3, requestError, requestInfo]
    }
  }

  function FromWords(ws: seq<word>): Packet
    requires |ws| == PACKET_WORDS
  {
    Packet(ws[0], ws[1], ws[2], ws[3], ws[4], ws[5], ws[6], ws[7], ws[8], ws[9], ws[10])
  }

  // ---------------------------------------------------------------- one word

  function ToBeBytes(w: word): (bs: seq<byte>)
    ensures |bs| == 4
  {
    var x := w as int;
    [(x / 0x100_0000) as byte, (x / 0x1_0000 % 0x100) as byte, (x / 0x100 % 0x100) as byte, (x % 0x100) as byte]
  }

  function FromBeBytes(b0: byte, b1: byte, b2: byte, b3: byte): word {
    (b0 as int * 0x100_0000 + b1 as int * 0x1_0000 + b2 as int * 0x100 + b3 as int) as word
  }

  lemma WordRoundTrip(w: word)
    ensures var bs := ToBeBytes(w); FromBeBytes(bs[0], bs[1], bs[2], bs[3]) == w
  {
    var x := w as int;
    assert x / 0x100 / 0x100 == x / 0x1_0000 && x / 0x1_0000 / 0x100 == x / 0x100_0000;
  }

  lemma BytesRoundTrip(b0: byte, b1: byte, b2: byte, b3: byte)
    ensures ToBeBytes(FromBeBytes(b0, b1, b2, b3)) == [b0, b1, b2, b3]
  {
    var x := FromBeBytes(b0, b1, b2, b3) as int;
    assert x / 0x100 == b0 as int * 0x1_0000 + b1 as int * 0x100 + b2 as int;
    assert x / 0x1_0000 == b0 as int * 0x100 + b1 as int;
    assert x / 0x100_0000 == b0 as int;
  }

  // ---------------------------------------------------------------- the whole packet

  function EncodeWords(ws: seq<word>): (raw: seq<byte>)
    ensures |raw| == 4 * |ws|
  {
    if ws == [] then [] else EncodeWords(ws[..|ws| - 1]) + ToBeBytes(ws[|ws| - 1])
  }

  function DecodeWords(raw: seq<byte>): (ws: seq<word>)
    requires |raw| % 4 == 0
    ensures 4 * |ws| == |raw|
  {
    if raw == [] then []
    else
      var n := |raw|;
      DecodeWords(raw[..n - 4]) + [FromBeBytes(raw[n - 4], raw[n - 3], raw[n - 2], raw[n - 1])]
  }

  lemma {:induction false} DecodeEncodeWords(ws: seq<word>)
    ensures DecodeWords(EncodeWords(ws)) == ws
  {
    if ws != [] {
      var init, last := ws[..|ws| - 1], ws[|ws| - 1];
      var raw := EncodeWords(ws);
      DecodeEncodeWords(init);
      WordRoundTrip(last);
      assert raw[..|raw| - 4] == EncodeWords(init) && raw[|raw| - 4..] == ToBeBytes(last);
      assert ws == init + [last];
    }
  }

  lemma EncodeSnoc(ws: seq<word>, w: word)
    ensures EncodeWords(ws + [w]) == EncodeWords(ws) + ToBeBytes(w)
  {
    assert (ws + [w])[..|ws|] == ws;
  }

  lemma SplitLastWord(raw: seq<byte>)
    requires |raw| >= 4
    ensures var n := |raw|; raw == raw[..n - 4] + [raw[n - 4], raw[n - 3], raw[n - 2], raw[n - 1]]
  {
  }

  lemma {:induction false} EncodeDecodeWords(raw: seq<byte>)
    requires |raw| % 4 == 0
    ensures EncodeWords(DecodeWords(raw)) == raw
  {
    if raw != [] {
      var n := |raw|;
      var init, last := raw[..n - 4], FromBeBytes(raw[n - 4], raw[n - 3], raw[n - 2], raw[n - 1]);
      EncodeDecodeWords(init);
      BytesRoundTrip(raw[n - 4], raw[n - 3], raw[n - 2], raw[n - 1]);
      EncodeSnoc(DecodeWords(init), last);
      SplitLastWord(raw);
    }
  }

  function Encode(p: Packet): (raw: seq<byte>)
    ensures |raw| == PACKET_SIZE
  {
    EncodeWords(p.AsWords())
  }

  function Decode(raw: seq<byte>): Option<Packet> {
    if |raw| != PACKET_SIZE then None else Some(FromWords(DecodeWords(raw)))
  }

  /** Every packet survives the wire. */
  lemma DecodeEncode(p: Packet)
    ensures Decode(Encode(p)) == Some(p)
  {
    DecodeEncodeWords(p.AsWords());
  }

  lemma WordsArePacket(ws: seq<word>)
    requires |ws| == PACKET_WORDS
    ensures FromWords(ws).AsWords() == ws
  {
  }

  /** Every 44-byte string is a packet, and every other length is refused. */
  lemma {:induction false} EncodeDecode(raw: seq<byte>)
    ensures Decode(raw).Some? <==> |raw| == PACKET_SIZE
    ensures |raw| == PACKET_SIZE ==> Encode(Decode(raw).value) == raw
  {
    if |raw| == PACKET_SIZE {
      EncodeDecodeWords(raw);
      WordsArePacket(DecodeWords(raw));
    }
  }

  /** The number four bytes stand for, most significant first. */
  function BigEndian(raw: seq<byte>, at: nat): nat
    requires at + 4 <= |raw|
  {
    ((raw[at] as nat * 256 + raw[at + 1] as nat) * 256 + raw[at + 2] as nat) * 256 + raw[at + 3] as nat
  }

  lemma {:induction false} WordAt(ws: seq<word>, k: nat)
    requires k < |ws|
    ensures BigEndian(EncodeWords(ws), 4 * k) == ws[k] as nat
  {
    var init, last := ws[..|ws| - 1], ws[|ws| - 1];
    var raw := EncodeWords(ws);
    assert raw == EncodeWords(init) + ToBeBytes(last);
    if k < |init| {
      WordAt(init, k);
    } else {
      WordRoundTrip(last);
    }
  }

  /** Every field lies big-endian at its own place in the 44 bytes. */
  lemma FieldsOnTheWire(p: Packet)
    ensures var raw := Encode(p);
            && BigEndian(raw, 0) == p.serverId as nat && BigEndian(raw, 4) == p.page as nat
            && BigEndian(raw, 8) == p.dataSize as nat && BigEndian(raw, 12) == p.headerError as nat
            && BigEndian(raw, 16) == p.headerInfo as nat && BigEndian(raw, 20) == p.request as nat
            && BigEndian(raw, 24) == p.param1 as nat && BigEndian(raw, 28) == p.param2 as nat
            && BigEndian(raw, 32) == p.param3 as nat && BigEndian(raw, 36) == p.requestError as nat
            && BigEndian(raw, 40) == p.requestInfo as nat
  {
    forall k: nat | k < PACKET_WORDS ensures BigEndian(EncodeWords(p.AsWords()), 4 * k) == p.AsWords()[k] as nat {
      WordAt(p.AsWords(), k);
    }
    var raw := Encode(p);
    assert BigEndian(raw, 4 * 0) == p.AsWords()[0] as nat && BigEndian(raw, 4 * 1) == p.AsWords()[1] as nat;
    assert BigEndian(raw, 4 * 2) == p.AsWords()[2] as nat && BigEndian(raw, 4 * 3) == p.AsWords()[3] as nat;
    assert BigEndian(raw, 4 * 4) == p.AsWords()[4] as nat && BigEndian(raw, 4 * 5) == p.AsWords()[5] as nat;
    assert BigEndian(raw, 4 * 6) == p.AsWords()[6] as nat && BigEndian(raw, 4 * 7) == p.AsWords()[7] as nat;
    assert BigEndian(raw, 4 * 8) == p.AsWords()[8] as nat && BigEndian(raw, 4 * 9) == p.AsWords()[9] as nat;
    assert BigEndian(raw, 4 * 10) == p.AsWords()[10] as nat;
  }

  // ---------------------------------------------------------------- the code

  method CopyFromSlice(out: array<byte>, start: nat, bytes: seq<byte>)
    requires start + |bytes| <= out.Length
    modifies out
    ensures out[..start + |bytes|] == old(out[..start]) + bytes
    ensures out[start + |bytes|..] == old(out[start + |bytes|..])
  {
    forall i | 0 <= i < |bytes| {
      out[start + i] := bytes[i];
    }
  }

  method ToBytes(p: Packet) returns (out: array<byte>)
    ensures fresh(out) && out[..] == Encode(p)
  {
    out := new byte[PACKET_SIZE](_ => 0);
    var words := p.AsWords();
    var index := 0;
    while index < |words|
      invariant 0 <= index <= |words|
      invariant out[..4 * index] == EncodeWords(words[..index])
    {
      var start := index * 4;
      CopyFromSlice(out, start, ToBeBytes(words[index]));
      EncodeSnoc(words[..index], words[index]);
      assert words[..index + 1] == words[..index] + [words[index]];
      index := index + 1;
    }
    assert words[..|words|] == words && out[..PACKET_SIZE] == out[..];
  }

  lemma DecodeNextWord(raw: seq<byte>, start: nat)
    requires start % 4 == 0 && start + 4 <= |raw|
    ensures DecodeWords(raw[..start + 4]) ==
            DecodeWords(raw[..start]) + [FromBeBytes(raw[start], raw[start + 1], raw[start + 2], raw[start + 3])]
  {
    var longer := raw[..start + 4];
    assert longer[..|longer| - 4] == raw[..start];
  }

  method FromBytes(raw: seq<byte>) returns (r: Option<Packet>)
    ensures r == Decode(raw)
  {
    if |raw| != PACKET_SIZE {
      return None;
    }
    var words := new word[PACKET_WORDS](_ => 0);
    var index := 0;
    while index < PACKET_WORDS
      invariant 0 <= index <= PACKET_WORDS
      invariant words[..index] == DecodeWords(raw[..4 * index])
    {
      var start := 4 * index;
      DecodeNextWord(raw, start);
      words[index] := FromBeBytes(raw[start], raw[start + 1], raw[start + 2], raw[start + 3]);
      index := index + 1;
      assert words[..index] == words[..index - 1] + [words[index - 1]];
    }
    assert raw[..PACKET_SIZE] == raw && words[..PACKET_WORDS] == words[..];
    r := Some(FromWords(words[..]));
  }

  // ---------------------------------------------------------------- requests and replies

  function Request(request: word, page: word, dataSize: word, param1: word, param2: word, param3: word): Packet {
    Packet(0, page, dataSize, 0, 0, request, param1, param2, param3, 0, 0)
  }

  function ProbePacket(): Packet { Request(REQ_PROBE, 0, 0, 0, 0, 0) }
  function SetImagePacket(page: word): Packet { Request(REQ_SET_IMAGE, page, FRAME_BYTES as word, 0, 0, 0) }
  function ClearImagePacket(page: word): Packet { Request(REQ_CLEAR_IMAGE, page, 0, 0, 0, 0) }

  /** Word 1 is the running flag; words 6 to 8 carry the gauge, the lamp and its state. */
  function SetLedPacket(page: word, index: word, on: bool): Packet {
    Request(REQ_SET_LED, 1, 0, page, index, if on then 1 else 0)
  }

  /** The layout on the wire, word by word. */
  lemma WordsOnTheWire(page: word, index: word, on: bool)
    ensures Encode(SetLedPacket(page, index, on)) ==
            EncodeWords([0, 1, 0, 0, 0, 0x18, page, index, if on then 1 else 0, 0, 0])
    ensures Encode(SetImagePacket(page)) == EncodeWords([0, page, 230400, 0, 0, 0x06, 0, 0, 0, 0, 0])
    ensures Encode(ClearImagePacket(page)) == EncodeWords([0, page, 0, 0, 0, 0x13, 0, 0, 0, 0, 0])
  {
  }

  lemma EncodeInjective(p: Packet, q: Packet)
    ensures Encode(p) == Encode(q) <==> p == q
  {
    DecodeEncode(p);
    DecodeEncode(q);
  }

  /** Different lamp orders are different on the wire, and none is mistaken for another request. */
  lemma LedPacketsDistinct(page: word, index: word, on: bool, page': word, index': word, on': bool, other: word)
    ensures Encode(SetLedPacket(page, index, on)) == Encode(SetLedPacket(page', index', on')) <==>
            page == page' && index == index' && on == on'
    ensures Encode(SetLedPacket(page, index, on)) != Encode(SetImagePacket(other))
    ensures Encode(SetLedPacket(page, index, on)) != Encode(ClearImagePacket(other))
    ensures Encode(SetLedPacket(page, index, on)) != Encode(ProbePacket())
  {
    EncodeInjective(SetLedPacket(page, index, on), SetLedPacket(page', index', on'));
    EncodeInjective(SetLedPacket(page, index, on), SetImagePacket(other));
    EncodeInjective(SetLedPacket(page, index, on), ClearImagePacket(other));
    EncodeInjective(SetLedPacket(page, index, on), ProbePacket());
  }

  datatype Problem = WrongRequest(r: word) | WrongPage(p: word) | WrongSize(s: word) | HeaderError(e: word) | RequestError(e: word)

  /** The reply to a frame is good exactly when no problem is found, and every problem found is real. */
  method ValidateSetImageReply(reply: Packet, page: word) returns (problems: seq<Problem>)
    ensures problems == [] <==>
            && reply.request == REQ_SET_IMAGE && reply.page == page && reply.dataSize == 0
            && reply.headerError == 0 && reply.requestError == 0
    ensures |problems| <= 5
    ensures WrongRequest(reply.request) in problems <==> reply.request != REQ_SET_IMAGE
    ensures WrongPage(reply.page) in problems <==> reply.page != page
    ensures WrongSize(reply.dataSize) in problems <==> reply.dataSize != 0
    ensures HeaderError(reply.headerError) in problems <==> reply.headerError != 0
    ensures RequestError(reply.requestError) in problems <==> reply.requestError != 0
  {
    problems := [];
    if reply.request != REQ_SET_IMAGE {
      problems := problems + [WrongRequest(reply.request)];
    }
    if reply.page != page {
      problems := problems + [WrongPage(reply.page)];
    }
    if reply.dataSize != 0 {
      problems := problems + [WrongSize(reply.dataSize)];
    }
    if reply.headerError != 0 {
      problems := problems + [HeaderError(reply.headerError)];
    }
    if reply.requestError != 0 {
      problems := problems + [RequestError(reply.requestError)];
    }
  }
}
