/**
 * One deadline covers a whole USB exchange: header, payload in packet-sized
 * chunks, and reply. Time is virtual: a transfer takes at most the timeout it
 * is given, and nothing else takes time.
 */
module UsbTransfers {
  import opened Basics
  import opened ControlPackets

  const NANOS_PER_MILLI := 1_000_000

  function Max1(n: nat): (r: nat)
    ensures r >= 1 && (n >= 1 ==> r == n)
  {
    if n == 0 then 1 else n
  }

  /** The chunks a payload is cut into. */
  function Chunks(data: seq<byte>, size: nat): seq<seq<byte>>
    requires size >= 1
    decreases |data|
  {
    if |data| <= size then (if data == [] then [] else [data])
    else [data[..size]] + Chunks(data[size..], size)
  }

  function Flatten(chunks: seq<seq<byte>>): seq<byte> {
    if chunks == [] then [] else chunks[0] + Flatten(chunks[1..])
  }

  /** The chunks are packet-sized, none is empty, and together they are the data. */
  lemma {:induction false} ChunksAreTheData(data: seq<byte>, size: nat)
    requires size >= 1
    ensures Flatten(Chunks(data, size)) == data
    ensures forall i :: 0 <= i < |Chunks(data, size)| ==> 1 <= |Chunks(data, size)[i]| <= size
    decreases |data|
  {
    if |data| > size {
      ChunksAreTheData(data[size..], size);
    } else if data != [] {
      assert [data][1..] == [];
      assert Flatten([data]) == data + Flatten([data][1..]);
    }
  }

  /** Every chunk but the last is a full packet. */
  lemma {:induction false} ChunksAreFull(data: seq<byte>, size: nat)
    requires size >= 1
    ensures forall i :: 0 <= i < |Chunks(data, size)| - 1 ==> |Chunks(data, size)[i]| == size
    decreases |data|
  {
    if |data| > size {
      ChunksAreFull(data[size..], size);
    }
  }

  /** Cutting off the next chunk. */
  lemma NextChunk(done: seq<seq<byte>>, rest: seq<byte>, size: nat)
    requires size >= 1 && rest != []
    ensures var chunk := if |rest| <= size then rest else rest[..size];
            done + Chunks(rest, size) == done + [chunk] + Chunks(rest[|chunk|..], size)
  {
    var chunk := if |rest| <= size then rest else rest[..size];
    assert Chunks(rest, size) == [chunk] + Chunks(rest[|chunk|..], size);
  }

  lemma {:induction false} FlattenConcat(a: seq<seq<byte>>, b: seq<seq<byte>>)
    ensures Flatten(a + b) == Flatten(a) + Flatten(b)
    decreases |a|
  {
    if a == [] {
      assert a + b == b;
    } else {
      assert (a + b)[0] == a[0] && (a + b)[1..] == a[1..] + b;
      FlattenConcat(a[1..], b);
    }
  }

  /** What is left before the deadline in whole milliseconds; less than one counts as exceeded. */
  function RemainingMillis(deadline: nat, now: nat): (r: Option<nat>)
    ensures r.Some? ==> r.value >= 1 && now + r.value * NANOS_PER_MILLI <= deadline
    ensures r.Some? <==> now + NANOS_PER_MILLI <= deadline
    ensures r.Some? ==> now + (r.value + 1) * NANOS_PER_MILLI > deadline
  {
    if deadline < now then None
    else
      var millis := (deadline - now) / NANOS_PER_MILLI;
      if millis > 0 then Some(millis) else None
  }

  /** What went out between two moments: the given bytes, in non-empty chunks no larger than a packet. */
  ghost predicate Sent(before: seq<seq<byte>>, after: seq<seq<byte>>, bytes: seq<byte>, size: nat) {
    && |before| <= |after| && after[..|before|] == before
    && Flatten(after[|before|..]) == bytes
    && forall i :: |before| <= i < |after| ==> 1 <= |after[i]| <= size
  }

  ghost predicate PacketSized(chunks: seq<seq<byte>>, size: nat) {
    forall i :: 0 <= i < |chunks| ==> 1 <= |chunks[i]| <= size
  }

  lemma SentTogether(before: seq<seq<byte>>, chunks: seq<seq<byte>>, size: nat)
    requires PacketSized(chunks, size)
    ensures Sent(before, before + chunks, Flatten(chunks), size)
  {
    assert (before + chunks)[|before|..] == chunks;
  }

  lemma {:induction false} SentInTwo(before: seq<seq<byte>>, header: seq<byte>, body: seq<byte>, size: nat)
    requires size >= 1
    ensures Sent(before, before + Chunks(header, size) + Chunks(body, size), header + body, size)
  {
    var first, second := Chunks(header, size), Chunks(body, size);
    FlattenConcat(first, second);
    ChunksAreTheData(header, size);
    ChunksAreTheData(body, size);
    SentTogether(before, first + second, size);
    assert before + first + second == before + (first + second);
  }

  /** A clean acknowledgement of a frame. */
  predicate Acknowledges(ack: Packet, page: word) {
    ack.request == REQ_SET_IMAGE && ack.page == page && ack.dataSize == 0 && ack.headerError == 0 && ack.requestError == 0
  }

  lemma PrefixSent(before: seq<seq<byte>>, done: seq<seq<byte>>, rest: seq<seq<byte>>)
    ensures (before + done)[|before|..] <= done + rest
  {
  }

  class UsbFipHandle {
    const timeout: nat
    const outPacketSize: nat
    var now: nat
    /** Every chunk of a completed bulk OUT transfer, every completed bulk IN transfer, every timeout passed to libusb. */
    var written: seq<seq<byte>>
    var received: seq<seq<byte>>
    var timeouts: seq<nat>
    /** Transfers that failed, or moved fewer bytes than a whole chunk or reply. */
    var shortfalls: nat

    constructor (timeout: nat, outPacketSize: nat)
      ensures this.timeout == timeout && this.outPacketSize == outPacketSize
      ensures written == [] && received == [] && timeouts == [] && shortfalls == 0
    {
      this.timeout, this.outPacketSize := timeout, outPacketSize;
      now, written, received, timeouts, shortfalls := 0, [], [], [], 0;
    }

    /** A bulk OUT transfer: it may fail, or send fewer bytes than asked. */
    method WriteBulk(chunk: seq<byte>, millis: nat) returns (sent: Option<nat>)
      modifies this`now, this`written, this`timeouts, this`shortfalls
      ensures old(now) <= now <= old(now) + millis * NANOS_PER_MILLI
      ensures timeouts == old(timeouts) + [millis]
      ensures written == if sent == Some(|chunk|) then old(written) + [chunk] else old(written)
      ensures shortfalls == old(shortfalls) + if sent == Some(|chunk|) then 0 else 1
    {
      Elapse(millis);
      var ok: bool := *;
      if !ok {
        shortfalls := shortfalls + 1;
        return None;
      }
      var n: int := *;
      if 0 <= n < |chunk| {
        shortfalls := shortfalls + 1;
        return Some(n);
      }
      written := written + [chunk];
      sent := Some(|chunk|);
    }

    method ReadBulk(millis: nat) returns (reply: Option<seq<byte>>)
      modifies this`now, this`received, this`timeouts, this`shortfalls
      ensures old(now) <= now <= old(now) + millis * NANOS_PER_MILLI
      ensures timeouts == old(timeouts) + [millis]
      ensures reply.Some? ==> |reply.value| <= PACKET_SIZE && received == old(received) + [reply.value]
      ensures shortfalls == old(shortfalls) + if reply.Some? && |reply.value| == PACKET_SIZE then 0 else 1
    {
      Elapse(millis);
      var ok: bool := *;
      if !ok {
        shortfalls := shortfalls + 1;
        return None;
      }
      var bytes: seq<byte> := *;
      reply := Some(if |bytes| <= PACKET_SIZE then bytes else bytes[..PACKET_SIZE]);
      received := received + [reply.value];
      if |reply.value| < PACKET_SIZE {
        shortfalls := shortfalls + 1;
      }
    }

    method Elapse(millis: nat)
      modifies this`now, this`timeouts
      ensures old(now) <= now <= old(now) + millis * NANOS_PER_MILLI
      ensures timeouts == old(timeouts) + [millis]
    {
      timeouts := timeouts + [millis];
      var spent: int := *;
      if 0 <= spent <= millis * NANOS_PER_MILLI {
        now := now + spent;
      }
    }

    /** The timeouts only grow, and every new one is at least a millisecond. */
    twostate predicate Granted()
      reads this`timeouts
    {
      && |old(timeouts)| <= |timeouts|
      && (forall i :: 0 <= i < |old(timeouts)| ==> timeouts[i] == old(timeouts)[i])
      && (forall i :: |old(timeouts)| <= i < |timeouts| ==> timeouts[i] >= 1)
    }

    /** An attempt ends well exactly when no transfer fell short and there was time for each. */
    twostate predicate Justified(ok: bool, deadline: nat)
      reads this`now, this`shortfalls
    {
      && old(shortfalls) <= shortfalls
      && (ok ==> shortfalls == old(shortfalls))
      && (!ok ==> shortfalls > old(shortfalls) || now + NANOS_PER_MILLI > deadline)
    }

    method WriteAll(data: seq<byte>, deadline: nat) returns (ok: bool)
      requires now <= deadline
      modifies this`now, this`written, this`timeouts, this`shortfalls
      ensures old(now) <= now <= deadline && Granted()
      ensures ok ==> written == old(written) + Chunks(data, Max1(outPacketSize))
      ensures Justified(ok, deadline)
      ensures old(written) <= written && written[|old(written)|..] <= Chunks(data, Max1(outPacketSize))
    {
      var size := Max1(outPacketSize);
      var rest := data;
      ghost var done: seq<seq<byte>> := [];
      while rest != []
        invariant old(now) <= now <= deadline && Granted()
        invariant written == old(written) + done && shortfalls == old(shortfalls)
        invariant done + Chunks(rest, size) == Chunks(data, size)
        decreases |rest|
      {
        var chunk := if |rest| <= size then rest else rest[..size];
        NextChunk(done, rest, size);
        rest := rest[|chunk|..];
        var millis := RemainingMillis(deadline, now);
        if millis == None {
          PrefixSent(old(written), done, [chunk] + Chunks(rest, size));
          return false;
        }
        var sent := WriteBulk(chunk, millis.value);
        if sent == None || sent.value != |chunk| {
          PrefixSent(old(written), done, [chunk] + Chunks(rest, size));
          return false;
        }
        done := done + [chunk];
      }
      ok := true;
    }

    method ReadReply(deadline: nat) returns (reply: Option<Packet>)
      requires now <= deadline
      modifies this`now, this`received, this`timeouts, this`shortfalls
      ensures old(now) <= now <= deadline && Granted() && Justified(reply.Some?, deadline)
      ensures reply.Some? ==> received == old(received) + [Encode(reply.value)]
    {
      var millis := RemainingMillis(deadline, now);
      if millis == None {
        return None;
      }
      var bytes := ReadBulk(millis.value);
      if bytes == None || |bytes.value| != PACKET_SIZE {
        return None;
      }
      EncodeDecode(bytes.value);
      reply := FromBytes(bytes.value);
    }

    /**
     * One exchange. It never runs past its start plus the timeout, never lets a
     * transfer wait for ever, and when it succeeds what went out is the header
     * followed by the payload, in packet-sized chunks, and what came in is the
     * reply and nothing else. It fails only when a transfer failed or fell short,
     * or when less than a millisecond was left.
     */
    method Transceive(packet: Packet, payload: Option<seq<byte>>) returns (reply: Option<Packet>)
      modifies this`now, this`written, this`received, this`timeouts, this`shortfalls
      ensures old(now) <= now <= old(now) + timeout && Granted() && Justified(reply.Some?, old(now) + timeout)
      ensures reply.Some? ==> received == old(received) + [Encode(reply.value)]
      ensures reply.Some? ==> Sent(old(written), written, Encode(packet) + (if payload.Some? then payload.value else []),
                                   Max1(outPacketSize))
    {
      var deadline := now + timeout;
      var header := ToBytes(packet);
      var ok := WriteAll(header[..], deadline);
      if !ok {
        return None;
      }
      if payload.Some? {
        ok := WriteAll(payload.value, deadline);
        if !ok {
          return None;
        }
      }
      SentInTwo(old(written), Encode(packet), if payload.Some? then payload.value else [], Max1(outPacketSize));
      assert written == old(written) + Chunks(Encode(packet), Max1(outPacketSize)) +
                        Chunks(if payload.Some? then payload.value else [], Max1(outPacketSize));
      reply := ReadReply(deadline);
    }

    /** Sends one frame; only a full-size frame with a clean acknowledgement succeeds. */
    method SendImage(frame: seq<byte>, page: word) returns (ok: bool)
      modifies this`now, this`written, this`received, this`timeouts, this`shortfalls
      ensures old(now) <= now <= old(now) + timeout && Granted()
      ensures ok ==> |frame| == FRAME_BYTES && Sent(old(written), written, Encode(SetImagePacket(page)) + frame, Max1(outPacketSize))
      ensures ok ==> exists ack :: received == old(received) + [Encode(ack)] && Acknowledges(ack, page)
      ensures |frame| != FRAME_BYTES ==> !ok && written == old(written) && now == old(now)
      ensures !ok && |frame| == FRAME_BYTES ==>
                || Justified(false, old(now) + timeout)
                || exists ack :: received == old(received) + [Encode(ack)] && !Acknowledges(ack, page)
    {
      if |frame| != FRAME_BYTES {
        return false;
      }
      var reply := Transceive(SetImagePacket(page), Some(frame));
      if reply == None {
        return false;
      }
      var problems := ValidateSetImageReply(reply.value, page);
      ok := problems == [];
    }
  }
}
