// SV2 frames on an encrypted connection: a sealed header, then the payload sealed chunk by chunk.
module FrameCodec {
  import opened Arith
  import opened Bytes
  import opened Hex

  const MAC_LEN := 16
  const FRAME_HEADER_LEN := 6
  const ENCRYPTED_HEADER_LEN := FRAME_HEADER_LEN + MAC_LEN
  const CHUNK_SIZE := 65535
  const PAYLOAD_PER_CHUNK := CHUNK_SIZE - MAC_LEN
  const MAX_FRAME_PAYLOAD := 0xFF_FFFF
  const CHANNEL_MSG_BIT := 0x8000
  const EXTENSION_TYPE_MINING := 0

  type Seal = (nat, seq<byte>) -> seq<byte>
  type Open = (nat, seq<byte>) -> Option<seq<byte>>

  /** What is asked of the transport cipher: opening undoes sealing under the same nonce, and sealing adds 16 bytes. */
  ghost predicate Aead(seal: Seal, open: Open) {
    forall n: nat, p: seq<byte> {:trigger seal(n, p)} :: |seal(n, p)| == |p| + MAC_LEN && open(n, seal(n, p)) == Some(p)
  }

  datatype Frame = Frame(extensionType: nat, msgType: byte, payload: seq<byte>)

  function Min(a: nat, b: nat): nat {
    if a < b then a else b
  }

  function ChunkCount(length: nat): nat {
    (length + PAYLOAD_PER_CHUNK - 1) / PAYLOAD_PER_CHUNK
  }

  function HeaderOf(f: Frame): (h: seq<byte>)
    ensures |h| == FRAME_HEADER_LEN
  {
    LE(f.extensionType, 2) + [f.msgType] + LE(|f.payload|, 3)
  }

  /** Each chunk under the next nonce. */
  function SealChunks(seal: Seal, nonce: nat, payload: seq<byte>): seq<byte>
    decreases |payload|
  {
    if payload == [] then []
    else
      var k := Min(PAYLOAD_PER_CHUNK, |payload|);
      seal(nonce, payload[..k]) + SealChunks(seal, nonce + 1, payload[k..])
  }

  function Written(seal: Seal, nonce: nat, f: Frame): seq<byte> {
    seal(nonce, HeaderOf(f)) + SealChunks(seal, nonce + 1, f.payload)
  }

  function NextNonce(nonce: nat, f: Frame): nat {
    nonce + 1 + ChunkCount(|f.payload|)
  }

  datatype Opened = Opened(payload: seq<byte>, nonce: nat)

  function Prepended(payload: seq<byte>, o: Option<Opened>): Option<Opened> {
    match o
    case None => None
    case Some(more) => Some(Opened(payload + more.payload, more.nonce))
  }

  lemma PrependedTwice(p: seq<byte>, q: seq<byte>, o: Option<Opened>)
    ensures Prepended(p, Prepended(q, o)) == Prepended(p + q, o)
    ensures p == [] ==> Prepended(p, o) == o
  {
    if o.Some? {
      assert p + (q + o.value.payload) == p + q + o.value.payload;
      assert p == [] ==> p + o.value.payload == o.value.payload;
    }
  }

  function OpenChunks(open: Open, nonce: nat, sealed: seq<byte>): Option<Opened>
    decreases |sealed|
  {
    if sealed == [] then Some(Opened([], nonce))
    else
      var k := Min(CHUNK_SIZE, |sealed|);
      match open(nonce, sealed[..k])
      case None => None
      case Some(p) => Prepended(p, OpenChunks(open, nonce + 1, sealed[k..]))
  }

  datatype Read = Read(frame: Frame, rest: seq<byte>, nonce: nat)

  /** One frame off the front of a byte stream; None when it is cut short or does not open. */
  function Parsed(open: Open, nonce: nat, stream: seq<byte>): Option<Read> {
    if |stream| < ENCRYPTED_HEADER_LEN then None
    else
      match open(nonce, stream[..ENCRYPTED_HEADER_LEN])
      case None => None
      case Some(h) =>
        if |h| != FRAME_HEADER_LEN then None
        else
          var ext, msg, length := FromLE(h[..2]) % CHANNEL_MSG_BIT, h[2], FromLE(h[3..]);
          var body := stream[ENCRYPTED_HEADER_LEN..];
          var sealedLen := length + ChunkCount(length) * MAC_LEN;
          if |body| < sealedLen then None
          else
            match OpenChunks(open, nonce + 1, body[..sealedLen])
            case None => None
            case Some(o) =>
              if |o.payload| != length then None
              else Some(Read(Frame(ext, msg, o.payload), body[sealedLen..], o.nonce))
  }

  predicate Fits(f: Frame) {
    f.extensionType < 0x1_0000 && |f.payload| <= MAX_FRAME_PAYLOAD
  }

  /** The frame as dispatch sees it, the channel bit masked off. */
  function Masked(f: Frame): Frame {
    f.(extensionType := f.extensionType % CHANNEL_MSG_BIT)
  }

  // ---- One frame ----

  lemma ChunkCountStep(length: nat)
    ensures length == 0 ==> ChunkCount(length) == 0
    ensures length > 0 ==> ChunkCount(length) == 1 + ChunkCount(length - Min(PAYLOAD_PER_CHUNK, length))
  {
  }

  lemma FirstChunk(seal: Seal, nonce: nat, payload: seq<byte>)
    requires payload != []
    ensures var k := Min(PAYLOAD_PER_CHUNK, |payload|);
            && SealChunks(seal, nonce, payload) == seal(nonce, payload[..k]) + SealChunks(seal, nonce + 1, payload[k..])
            && ChunkCount(|payload|) == 1 + ChunkCount(|payload[k..]|)
  {
    ChunkCountStep(|payload|);
  }

  lemma OneChunk(seal: Seal, out: seq<byte>, nonce: nat, payload: seq<byte>, k: nat)
    requires payload != [] && k == Min(PAYLOAD_PER_CHUNK, |payload|)
    ensures out + SealChunks(seal, nonce, payload) == out + seal(nonce, payload[..k]) + SealChunks(seal, nonce + 1, payload[k..])
    ensures ChunkCount(|payload|) == 1 + ChunkCount(|payload[k..]|)
  {
    FirstChunk(seal, nonce, payload);
    Assoc(out, seal(nonce, payload[..k]), SealChunks(seal, nonce + 1, payload[k..]));
  }

  lemma {:induction false} SealedLength(seal: Seal, open: Open, nonce: nat, payload: seq<byte>)
    requires Aead(seal, open)
    ensures |SealChunks(seal, nonce, payload)| == |payload| + ChunkCount(|payload|) * MAC_LEN
    ensures ChunkCount(|payload|) == (|payload| + 65518) / 65519 && MAC_LEN == 16
    decreases |payload|
  {
    ChunkCountStep(|payload|);
    if payload != [] {
      var k := Min(PAYLOAD_PER_CHUNK, |payload|);
      SealedLength(seal, open, nonce + 1, payload[k..]);
    }
  }

  /** The reader's first cut falls at the end of the writer's first chunk. */
  lemma FirstCut(seal: Seal, open: Open, nonce: nat, payload: seq<byte>)
    requires Aead(seal, open) && payload != []
    ensures var k := Min(PAYLOAD_PER_CHUNK, |payload|);
            var sealed, first := SealChunks(seal, nonce, payload), seal(nonce, payload[..k]);
            && Min(CHUNK_SIZE, |sealed|) == |first| <= |sealed|
            && sealed[..|first|] == first
            && sealed[|first|..] == SealChunks(seal, nonce + 1, payload[k..])
  {
    var k := Min(PAYLOAD_PER_CHUNK, |payload|);
    assert |seal(nonce, payload[..k])| == k + MAC_LEN;
    if |payload| <= PAYLOAD_PER_CHUNK {
      assert payload[k..] == [];
    }
  }

  /** A reader cutting the sealed payload every 65535 bytes cuts it where the writer did. */
  lemma {:induction false} ChunksRoundTrip(seal: Seal, open: Open, nonce: nat, payload: seq<byte>)
    requires Aead(seal, open)
    ensures OpenChunks(open, nonce, SealChunks(seal, nonce, payload))
         == Some(Opened(payload, nonce + ChunkCount(|payload|)))
    decreases |payload|
  {
    ChunkCountStep(|payload|);
    if payload != [] {
      var k := Min(PAYLOAD_PER_CHUNK, |payload|);
      FirstCut(seal, open, nonce, payload);
      assert |seal(nonce, payload[..k])| > 0;
      ChunksRoundTrip(seal, open, nonce + 1, payload[k..]);
      assert payload == payload[..k] + payload[k..];
    }
  }

  lemma HeaderFields(f: Frame)
    requires Fits(f)
    ensures var h := HeaderOf(f);
            FromLE(h[..2]) == f.extensionType && h[2] == f.msgType && FromLE(h[3..]) == |f.payload|
  {
    var h := HeaderOf(f);
    assert h[..2] == LE(f.extensionType, 2) && h[3..] == LE(|f.payload|, 3);
    LERoundTrip(f.extensionType, 2);
    LERoundTrip(|f.payload|, 3);
    SmallPowers();
  }

  lemma SmallPowers()
    ensures Pow256(2) == 0x1_0000 && Pow256(3) == 0x100_0000
  {
    assert Pow256(1) == 256;
  }

  /** A written frame is read back whole, leaving the bytes behind it and the two nonces in step. */
  lemma FrameRoundTrip(seal: Seal, open: Open, nonce: nat, f: Frame, rest: seq<byte>)
    requires Aead(seal, open) && Fits(f)
    ensures Parsed(open, nonce, Written(seal, nonce, f) + rest) == Some(Read(Masked(f), rest, NextNonce(nonce, f)))
  {
    var header, chunks := seal(nonce, HeaderOf(f)), SealChunks(seal, nonce + 1, f.payload);
    var stream := Written(seal, nonce, f) + rest;
    assert stream[..ENCRYPTED_HEADER_LEN] == header;
    HeaderFields(f);
    var body := stream[ENCRYPTED_HEADER_LEN..];
    assert body == chunks + rest;
    SealedLength(seal, open, nonce + 1, f.payload);
    assert body[..|chunks|] == chunks && body[|chunks|..] == rest;
    ChunksRoundTrip(seal, open, nonce + 1, f.payload);
  }

  // ---- Any number of frames ----

  function WrittenAll(seal: Seal, nonce: nat, fs: seq<Frame>): seq<byte>
    decreases |fs|
  {
    if fs == [] then [] else Written(seal, nonce, fs[0]) + WrittenAll(seal, NextNonce(nonce, fs[0]), fs[1..])
  }

  function NonceAfter(nonce: nat, fs: seq<Frame>): nat
    decreases |fs|
  {
    if fs == [] then nonce else NonceAfter(NextNonce(nonce, fs[0]), fs[1..])
  }

  datatype ReadAll = ReadAll(frames: seq<Frame>, rest: seq<byte>, nonce: nat)

  function ParsedAll(open: Open, nonce: nat, stream: seq<byte>, count: nat): Option<ReadAll>
    decreases count
  {
    if count == 0 then Some(ReadAll([], stream, nonce))
    else
      match Parsed(open, nonce, stream)
      case None => None
      case Some(r) =>
        match ParsedAll(open, r.nonce, r.rest, count - 1)
        case None => None
        case Some(all) => Some(ReadAll([r.frame] + all.frames, all.rest, all.nonce))
  }

  function MaskedAll(fs: seq<Frame>): (r: seq<Frame>)
    ensures |r| == |fs| && forall i :: 0 <= i < |fs| ==> r[i] == Masked(fs[i])
  {
    if fs == [] then [] else [Masked(fs[0])] + MaskedAll(fs[1..])
  }

  /** Frames come back in the order they were written, and both ends hold the same nonce. */
  lemma {:induction false} StreamRoundTrip(seal: Seal, open: Open, nonce: nat, fs: seq<Frame>, rest: seq<byte>)
    requires Aead(seal, open) && forall i :: 0 <= i < |fs| ==> Fits(fs[i])
    ensures ParsedAll(open, nonce, WrittenAll(seal, nonce, fs) + rest, |fs|)
         == Some(ReadAll(MaskedAll(fs), rest, NonceAfter(nonce, fs)))
    decreases |fs|
  {
    if fs == [] {
      assert WrittenAll(seal, nonce, fs) + rest == rest;
    } else {
      var more := WrittenAll(seal, NextNonce(nonce, fs[0]), fs[1..]) + rest;
      assert WrittenAll(seal, nonce, fs) + rest == Written(seal, nonce, fs[0]) + more;
      FrameRoundTrip(seal, open, nonce, fs[0], more);
      StreamRoundTrip(seal, open, NextNonce(nonce, fs[0]), fs[1..], rest);
    }
  }

  // ---- The codec ----

  /** One end of a connection: bytes sent, bytes not yet read, and a nonce per configured cipher. */
  class Codec {
    const seal: Seal
    const open: Open
    var outgoing: seq<byte>
    var incoming: seq<byte>
    var send: Option<nat>
    var recv: Option<nat>

    constructor (seal: Seal, open: Open, send: Option<nat>, recv: Option<nat>)
      ensures this.seal == seal && this.open == open && this.send == send && this.recv == recv
      ensures outgoing == [] && incoming == []
    {
      this.seal, this.open, this.send, this.recv := seal, open, send, recv;
      outgoing, incoming := [], [];
    }

    /** The payload loop of WriteFrame: one chunk after the other, a nonce each. */
    method WriteChunks(first: nat, payload: seq<byte>) returns (nonce: nat)
      modifies `outgoing
      ensures outgoing == old(outgoing) + SealChunks(seal, first, payload)
      ensures nonce == first + ChunkCount(|payload|)
    {
      nonce := first;
      var start: nat := 0;
      ghost var left := payload;
      assert payload[0..] == payload;
      while start < |payload|
        invariant start <= |payload| && left == payload[start..]
        invariant outgoing + SealChunks(seal, nonce, left) == old(outgoing) + SealChunks(seal, first, payload)
        invariant nonce + ChunkCount(|left|) == first + ChunkCount(|payload|)
      {
        var end := Min(start + PAYLOAD_PER_CHUNK, |payload|);
        ghost var k := end - start;
        assert left[..k] == payload[start..end] && left[k..] == payload[end..];
        OneChunk(seal, outgoing, nonce, left, k);
        outgoing := outgoing + seal(nonce, payload[start..end]);
        nonce := nonce + 1;
        start := end;
        left := payload[start..];
      }
      assert outgoing + [] == outgoing;
    }

    /** Refuses, writing nothing, when there is no cipher or the payload is over 24 bits long. */
    method WriteFrame(extType: nat, msgType: byte, payload: seq<byte>) returns (ok: bool)
      requires extType < 0x1_0000
      modifies `outgoing, `send
      ensures ok == (old(send).Some? && |payload| <= MAX_FRAME_PAYLOAD)
      ensures !ok ==> outgoing == old(outgoing) && send == old(send)
      ensures ok ==>
                var f := Frame(extType, msgType, payload);
                && Fits(f)
                && outgoing == old(outgoing) + Written(seal, old(send).value, f)
                && send == Some(NextNonce(old(send).value, f))
    {
      if send.None? || |payload| > MAX_FRAME_PAYLOAD {
        return false;
      }
      outgoing := outgoing + seal(send.value, LE(extType, 2) + [msgType] + LE(|payload|, 3));
      var nonce := WriteChunks(send.value + 1, payload);
      send := Some(nonce);
      ok := true;
    }

    /** A frame for an open channel carries the channel bit. */
    method WriteChannelFrame(msgType: byte, payload: seq<byte>) returns (ok: bool)
      modifies `outgoing, `send
      ensures ok == (old(send).Some? && |payload| <= MAX_FRAME_PAYLOAD)
      ensures !ok ==> outgoing == old(outgoing) && send == old(send)
      ensures ok ==>
                var f := Frame(EXTENSION_TYPE_MINING + CHANNEL_MSG_BIT, msgType, payload);
                && Masked(f) == Frame(EXTENSION_TYPE_MINING, msgType, payload)
                && outgoing == old(outgoing) + Written(seal, old(send).value, f)
                && send == Some(NextNonce(old(send).value, f))
    {
      ok := WriteFrame(EXTENSION_TYPE_MINING + CHANNEL_MSG_BIT, msgType, payload);
    }

    method OpenAll(nonce: nat, sealed: seq<byte>) returns (r: Option<Opened>)
      ensures r == OpenChunks(open, nonce, sealed)
    {
      var n, start: nat := nonce, 0;
      var payload: seq<byte> := [];
      ghost var left := sealed;
      assert sealed[0..] == sealed;
      PrependedTwice([], [], OpenChunks(open, nonce, sealed));
      while start < |sealed|
        invariant start <= |sealed| && left == sealed[start..]
        invariant OpenChunks(open, nonce, sealed) == Prepended(payload, OpenChunks(open, n, left))
      {
        var end := Min(start + CHUNK_SIZE, |sealed|);
        assert left[..end - start] == sealed[start..end] && left[end - start..] == sealed[end..];
        var chunk := open(n, sealed[start..end]);
        if chunk.None? {
          return None;
        }
        PrependedTwice(payload, chunk.value, OpenChunks(open, n + 1, sealed[end..]));
        payload := payload + chunk.value;
        n := n + 1;
        start := end;
        left := sealed[start..];
      }
      r := Some(Opened(payload, n));
      assert payload + [] == payload;
    }

    /** On an error the connection is given up, so nothing is promised about what is left of it. */
    method ReadFrame() returns (r: Option<Frame>)
      modifies `incoming, `recv
      ensures old(recv).None? ==> r == None
      ensures old(recv).Some? ==>
                match Parsed(open, old(recv).value, old(incoming))
                case None => r == None
                case Some(read) => r == Some(read.frame) && incoming == read.rest && recv == Some(read.nonce)
    {
      if recv.None? || |incoming| < ENCRYPTED_HEADER_LEN {
        return None;
      }
      var header := open(recv.value, incoming[..ENCRYPTED_HEADER_LEN]);
      if header.None? || |header.value| != FRAME_HEADER_LEN {
        return None;
      }
      var h := header.value;
      var extType := FromLE(h[..2]) % CHANNEL_MSG_BIT;
      var msgType := h[2];
      var payLen := FromLE(h[3..]);
      var body := incoming[ENCRYPTED_HEADER_LEN..];
      if payLen == 0 {
        ChunkCountStep(0);
        assert body[..0] == [] && body[0..] == body;
        incoming, recv := body, Some(recv.value + 1);
        return Some(Frame(extType, msgType, []));
      }
      var chunks := ChunkCount(payLen);
      var encryptedLen := payLen + chunks * MAC_LEN;
      if |body| < encryptedLen {
        return None;
      }
      var o := OpenAll(recv.value + 1, body[..encryptedLen]);
      if o.None? || |o.value.payload| != payLen {
        return None;
      }
      incoming, recv := body[encryptedLen..], Some(o.value.nonce);
      r := Some(Frame(extType, msgType, o.value.payload));
    }
  }
}
