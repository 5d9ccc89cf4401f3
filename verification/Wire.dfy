/** The binary frame of one log record: magic, type, length, payload, checksum. */
module Wire {
  import opened Core

  const MAGIC: uint32 := 0xC0FFEE01
  const RECORD_OVERHEAD := 13
  const MAX_PAYLOAD := 0x1_0000_0000 - 14

  const KIND_MESSAGE: byte := 1
  const KIND_TOMBSTONE: byte := 2

  datatype RecordMsg = RecordMsg(
    queue: Queue,
    payload: seq<byte>,
    headers: seq<Header>,
    retryCount: int32,
    enqueueTime: Instant)

  datatype Record = Record(kind: byte, id: string, msg: Option<RecordMsg>)

  /** The library functions the frame depends on: JSON in both directions, text validity and CRC-32. */
  datatype Codec = Codec(
    validText: string -> bool,
    marshal: Record -> seq<byte>,
    unmarshal: seq<byte> -> Option<Record>,
    checksum: seq<byte> -> uint32)

  /** JSON keeps exactly the records whose strings are valid text. */
  predicate WellFormed(c: Codec, rec: Record) {
    && c.validText(rec.id)
    && (rec.msg.Some? ==>
          && c.validText(rec.msg.value.queue)
          && forall i :: 0 <= i < |rec.msg.value.headers| ==>
               c.validText(rec.msg.value.headers[i].key) && c.validText(rec.msg.value.headers[i].value))
  }

  /** The one law assumed of the JSON library. Nothing is assumed of the checksum. */
  ghost predicate Lawful(c: Codec) {
    forall rec: Record :: WellFormed(c, rec) ==> c.unmarshal(c.marshal(rec)) == Some(rec)
  }

  predicate Encodable(c: Codec, rec: Record) {
    WellFormed(c, rec) && |c.marshal(rec)| <= MAX_PAYLOAD
  }

  // ---------------------------------------------------------------------------
  // Big-endian 32-bit words
  // ---------------------------------------------------------------------------

  function PutU32(n: uint32): (s: seq<byte>)
    ensures |s| == 4
  {
    [n / 0x100_0000, n / 0x1_0000 % 0x100, n / 0x100 % 0x100, n % 0x100]
  }

  function GetU32(s: seq<byte>): uint32
    requires |s| == 4
  {
    s[0] as int * 0x100_0000 + s[1] as int * 0x1_0000 + s[2] as int * 0x100 + s[3] as int
  }

  lemma GetPutU32(n: uint32)
    ensures GetU32(PutU32(n)) == n
  {
    assert n / 0x100 / 0x100 == n / 0x1_0000;
    assert n / 0x1_0000 / 0x100 == n / 0x100_0000;
  }

  function Add32(a: uint32, b: uint32): uint32 {
    if a + b < 0x1_0000_0000 then a + b else a + b - 0x1_0000_0000
  }

  // ---------------------------------------------------------------------------
  // Encoding
  // ---------------------------------------------------------------------------

  /** The bytes covered by the checksum: type, length (truncated to 32 bits) and payload. */
  function Body(kind: byte, payload: seq<byte>): seq<byte> {
    [kind] + PutU32(|payload| % 0x1_0000_0000) + payload
  }

  function Frame(c: Codec, rec: Record): (s: seq<byte>)
    ensures |s| == RECORD_OVERHEAD + |c.marshal(rec)|
  {
    var body := Body(rec.kind, c.marshal(rec));
    PutU32(MAGIC) + body + PutU32(c.checksum(body))
  }

  method CopyInto(buf: array<byte>, at: nat, data: seq<byte>)
    requires at + |data| <= buf.Length
    modifies buf
    ensures buf[at..at + |data|] == data
    ensures forall i :: 0 <= i < at || at + |data| <= i < buf.Length ==> buf[i] == old(buf[i])
  {
    for i := 0 to |data|
      invariant buf[at..at + i] == data[..i]
      invariant forall j :: 0 <= j < at || at + i <= j < buf.Length ==> buf[j] == old(buf[j])
    {
      buf[at + i] := data[i];
    }
  }

  /** The fields in place make up the frame. */
  lemma Assemble(s: seq<byte>, kind: byte, payload: seq<byte>)
    requires |s| >= 9 + |payload|
    requires s[4] == kind && s[5..9] == PutU32(|payload| % 0x1_0000_0000) && s[9..9 + |payload|] == payload
    ensures s[4..9 + |payload|] == Body(kind, payload)
  {
    var n := |payload|;
    assert s[4..9 + n] == [s[4]] + s[5..9] + s[9..9 + n];
  }

  /** Fills a fresh buffer field by field. */
  method Encode(c: Codec, rec: Record) returns (buf: array<byte>)
    ensures fresh(buf)
    ensures buf[..] == Frame(c, rec)
  {
    var payload := c.marshal(rec);
    var n := |payload|;
    buf := new byte[RECORD_OVERHEAD + n];
    CopyInto(buf, 0, PutU32(MAGIC));
    buf[4] := rec.kind;
    CopyInto(buf, 5, PutU32(n % 0x1_0000_0000));
    CopyInto(buf, 9, payload);
    Assemble(buf[..], rec.kind, payload);
    ghost var head := buf[..9 + n];
    assert head == PutU32(MAGIC) + Body(rec.kind, payload);
    var crc := c.checksum(buf[4..9 + n]);
    CopyInto(buf, 9 + n, PutU32(crc));
    assert buf[..] == buf[..9 + n] + buf[9 + n..];
  }

  // ---------------------------------------------------------------------------
  // Decoding
  // ---------------------------------------------------------------------------

  /** `Panic` is a slice expression whose bounds are out of order, which stops the process. */
  datatype Decoded = Torn | Panic | Ok(rec: Record, consumed: nat)

  /** Offsets past the header are 32-bit sums, so they wrap; `total` is computed in 64 bits and does not. */
  function Decode(c: Codec, buf: seq<byte>): (d: Decoded)
    ensures d.Ok? ==> RECORD_OVERHEAD <= d.consumed <= |buf|
  {
    if |buf| < RECORD_OVERHEAD then Torn
    else if GetU32(buf[0..4]) != MAGIC then Torn
    else
      var payloadLen := GetU32(buf[5..9]);
      var total := RECORD_OVERHEAD + payloadLen;
      if |buf| < total then Torn
      else
        var lo := Add32(9, payloadLen);
        var hi := Add32(13, payloadLen);
        if lo < 4 || hi < lo then Panic
        else if c.checksum(buf[4..lo]) != GetU32(buf[lo..hi]) then Torn
        else if lo < 9 then Panic
        else match c.unmarshal(buf[9..lo])
          case None => Torn
          case Some(rec) => Ok(rec, total)
  }

  /** The frame header claims a payload that starts a complete frame within the buffer. */
  ghost predicate ClaimsFrame(buf: seq<byte>) {
    |buf| >= RECORD_OVERHEAD && GetU32(buf[0..4]) == MAGIC && |buf| >= RECORD_OVERHEAD + GetU32(buf[5..9])
  }

  /**
   Exactly which buffers stop the process: complete frames whose length field lies in the last thirteen 32-bit
   values, with five of them escaping through a checksum mismatch on the wrapped range.
   */
  lemma DecodePanicsExactly(c: Codec, buf: seq<byte>)
    ensures Decode(c, buf).Panic? <==>
      && ClaimsFrame(buf)
      && var n := GetU32(buf[5..9]);
         || MAX_PAYLOAD < n < 0x1_0000_0000 - 5
         || (0x1_0000_0000 - 5 <= n
             && var w := n + 9 - 0x1_0000_0000; c.checksum(buf[4..w]) == GetU32(buf[w..w + 4]))
  {
    if ClaimsFrame(buf) {
      var n := GetU32(buf[5..9]);
      if n <= MAX_PAYLOAD {
        assert Add32(9, n) == 9 + n && Add32(13, n) == 13 + n;
      } else if n < 0x1_0000_0000 - 9 {
        assert Add32(13, n) < Add32(9, n);
      } else {
        assert Add32(9, n) == 9 + n - 0x1_0000_0000 && Add32(13, n) == 13 + n - 0x1_0000_0000;
      }
    }
  }

  /** The buffer starts with a complete frame: its length fits, its checksum matches and its payload unmarshals. */
  ghost predicate CompletesFrame(c: Codec, buf: seq<byte>) {
    && ClaimsFrame(buf)
    && var n := GetU32(buf[5..9]);
       n <= MAX_PAYLOAD && c.checksum(buf[4..9 + n]) == GetU32(buf[9 + n..13 + n]) && c.unmarshal(buf[9..9 + n]).Some?
  }

  /** Exactly which buffers decode. */
  lemma DecodesExactly(c: Codec, buf: seq<byte>)
    ensures Decode(c, buf).Ok? <==> CompletesFrame(c, buf)
  {
    if ClaimsFrame(buf) {
      var n := GetU32(buf[5..9]);
      if n <= MAX_PAYLOAD {
        assert Add32(9, n) == 9 + n && Add32(13, n) == 13 + n;
      } else if n < 0x1_0000_0000 - 9 {
        assert Add32(13, n) < Add32(9, n);
      } else {
        assert Add32(9, n) == 9 + n - 0x1_0000_0000;
      }
    }
  }

  /** Below four gigabytes no offset wraps and no slice is out of range. */
  lemma DecodeNeverPanicsBelow4G(c: Codec, buf: seq<byte>)
    requires |buf| < 0x1_0000_0000
    ensures !Decode(c, buf).Panic?
  {
    DecodePanicsExactly(c, buf);
  }

  /** The header fields of a frame read back as written, whatever follows. */
  lemma FrameHeader(c: Codec, rec: Record, tail: seq<byte>)
    ensures var buf := Frame(c, rec) + tail;
      var n := |c.marshal(rec)| % 0x1_0000_0000;
      GetU32(buf[0..4]) == MAGIC && GetU32(buf[5..9]) == n
  {
    var p := c.marshal(rec);
    var n: uint32 := |p| % 0x1_0000_0000;
    var buf := Frame(c, rec) + tail;
    assert buf[0..4] == PutU32(MAGIC);
    assert buf[5..9] == PutU32(n);
    GetPutU32(MAGIC);
    GetPutU32(n);
  }

  /** Body, checksum and payload are where the decoder looks for them. */
  lemma FrameFields(c: Codec, rec: Record, tail: seq<byte>)
    ensures var p, buf := c.marshal(rec), Frame(c, rec) + tail;
      && |buf| >= 13 + |p|
      && buf[4..9 + |p|] == Body(rec.kind, p)
      && buf[9 + |p|..13 + |p|] == PutU32(c.checksum(Body(rec.kind, p)))
      && buf[9..9 + |p|] == p
  {
    var p := c.marshal(rec);
    var body := Body(rec.kind, p);
    var crc := PutU32(c.checksum(body));
    assert Frame(c, rec) + tail == PutU32(MAGIC) + body + crc + tail;
    assert body[5..] == p;
  }

  /** The big-endian word at offset `i`. */
  function WordAt(s: seq<byte>, i: nat): int
    requires i + 4 <= |s|
  {
    s[i] as int * 0x100_0000 + s[i + 1] as int * 0x1_0000 + s[i + 2] as int * 0x100 + s[i + 3] as int
  }

  lemma WordIs(s: seq<byte>, i: nat)
    requires i + 4 <= |s|
    ensures GetU32(s[i..i + 4]) == WordAt(s, i)
  {
  }

  /**
   The layout on disk, byte by byte: the magic number, the kind, the length and the checksum as big-endian words, and the
   checksum over kind, length and payload.
   */
  lemma FrameLayout(c: Codec, rec: Record)
    requires |c.marshal(rec)| < 0x1_0000_0000
    ensures var f, n := Frame(c, rec), |c.marshal(rec)|;
      && f[..4] == [0xC0, 0xFF, 0xEE, 0x01] && f[4] == rec.kind && WordAt(f, 5) == n
      && f[9..9 + n] == c.marshal(rec) && WordAt(f, 9 + n) == c.checksum(f[4..9 + n])
  {
    var f, n := Frame(c, rec), |c.marshal(rec)|;
    assert f + [] == f;
    FrameHeader(c, rec, []);
    FrameFields(c, rec, []);
    assert f[4] == f[4..9 + n][0];
    WordIs(f, 5);
    WordIs(f, 9 + n);
    GetPutU32(c.checksum(f[4..9 + n]));
  }

  /** Once header and checksum are right, only the payload decides. */
  lemma DecodeChecked(c: Codec, buf: seq<byte>, n: nat)
    requires n <= MAX_PAYLOAD && |buf| >= RECORD_OVERHEAD + n
    requires GetU32(buf[0..4]) == MAGIC && GetU32(buf[5..9]) == n
    requires c.checksum(buf[4..9 + n]) == GetU32(buf[9 + n..13 + n])
    ensures Decode(c, buf) == match c.unmarshal(buf[9..9 + n]) case None => Torn case Some(r) => Ok(r, RECORD_OVERHEAD + n)
  {
    assert Add32(9, n) == 9 + n && Add32(13, n) == 13 + n;
  }

  lemma FrameReadsBack(c: Codec, rec: Record, tail: seq<byte>)
    requires |c.marshal(rec)| <= MAX_PAYLOAD
    ensures Decode(c, Frame(c, rec) + tail)
         == match c.unmarshal(c.marshal(rec)) case None => Torn case Some(r) => Ok(r, |Frame(c, rec)|)
  {
    FrameHeader(c, rec, tail);
    FrameFields(c, rec, tail);
    GetPutU32(c.checksum(Body(rec.kind, c.marshal(rec))));
    DecodeChecked(c, Frame(c, rec) + tail, |c.marshal(rec)|);
  }

  /**
   Frame round trip: a record reads back, with its exact length, in front of every tail if and only if its
   payload fits the 32-bit offsets the decoder computes with.
   */
  lemma FrameRoundTrip(c: Codec, rec: Record, tail: seq<byte>)
    requires Lawful(c) && WellFormed(c, rec)
    ensures Decode(c, Frame(c, rec) + tail) == Ok(rec, |Frame(c, rec)|) <==> |c.marshal(rec)| <= MAX_PAYLOAD
  {
    if |c.marshal(rec)| <= MAX_PAYLOAD {
      FrameReadsBack(c, rec, tail);
    } else {
      OverlongIsNotRead(c, rec, tail);
    }
  }

  /** A longer payload wraps the decoder's offsets, or its length was truncated by the encoder. */
  lemma OverlongIsNotRead(c: Codec, rec: Record, tail: seq<byte>)
    requires |c.marshal(rec)| > MAX_PAYLOAD
    ensures Decode(c, Frame(c, rec) + tail) != Ok(rec, |Frame(c, rec)|)
  {
    var n, buf := |c.marshal(rec)|, Frame(c, rec) + tail;
    FrameHeader(c, rec, tail);
    DecodesExactly(c, buf);
    ConsumesClaimed(c, buf);
  }

  lemma ConsumesClaimed(c: Codec, buf: seq<byte>)
    ensures Decode(c, buf).Ok? ==> |buf| >= RECORD_OVERHEAD && Decode(c, buf).consumed == RECORD_OVERHEAD + GetU32(buf[5..9])
  {
  }

  /** A frame cut anywhere short of its last byte is a torn write, for every checksum function. */
  lemma CutFrameIsTorn(c: Codec, rec: Record, k: nat)
    requires |c.marshal(rec)| <= MAX_PAYLOAD
    requires k < |Frame(c, rec)|
    ensures Decode(c, Frame(c, rec)[..k]).Torn?
  {
    if k >= RECORD_OVERHEAD {
      FrameHeader(c, rec, []);
      var f := Frame(c, rec);
      assert f + [] == f;
      assert f[..k][0..4] == f[0..4];
      assert f[..k][5..9] == f[5..9];
    }
  }

  /** One to three bytes of a frame followed by a whole frame do not start with the magic number. */
  lemma ShiftedMagicIsTorn(c: Codec, torn: Record, cut: nat, next: Record, rest: seq<byte>)
    requires 1 <= cut <= 3
    ensures Decode(c, Frame(c, torn)[..cut] + (Frame(c, next) + rest)).Torn?
  {
    var buf := Frame(c, torn)[..cut] + (Frame(c, next) + rest);
    var magic := PutU32(MAGIC);
    assert magic == [0xC0, 0xFF, 0xEE, 0x01];
    assert Frame(c, torn)[..4] == magic && Frame(c, next)[..4] == magic;
    assert buf[0..4] == magic[..cut] + magic[..4 - cut];
    GetPutU32(MAGIC);
    assert buf[cut] == 0xC0 && magic[cut] != 0xC0;
    assert GetU32(buf[0..4]) != MAGIC;
  }

  // ---------------------------------------------------------------------------
  // The frame format as the log sees it
  // ---------------------------------------------------------------------------

  datatype Format = Format(encodable: Record -> bool, frame: Record -> seq<byte>, decode: seq<byte> -> Decoded)

  ghost predicate Progresses(f: Format) {
    forall buf :: f.decode(buf).Ok? ==> RECORD_OVERHEAD <= f.decode(buf).consumed <= |buf|
  }

  /**
   Everything the log layer relies on: decoding looks no further than the frame, frames read back in front of any
   tail, and cut frames are torn writes.
   */
  ghost predicate Sound(f: Format) {
    && Progresses(f)
    && (forall buf: seq<byte>, tail: seq<byte> {:trigger f.decode(buf + tail)} :: f.decode(buf).Ok? ==> f.decode(buf + tail) == f.decode(buf))
    && (forall rec: Record, tail: seq<byte> :: f.encodable(rec) ==>
          f.decode(f.frame(rec) + tail) == Ok(rec, |f.frame(rec)|))
    && (forall rec: Record, k: nat :: f.encodable(rec) && k < |f.frame(rec)| ==>
          f.decode(f.frame(rec)[..k]).Torn?)
  }

  function Binary(c: Codec): Format {
    Format(rec => Encodable(c, rec), rec => Frame(c, rec), buf => Decode(c, buf))
  }

  lemma DecodeIgnoresTail(c: Codec, buf: seq<byte>, tail: seq<byte>)
    requires Decode(c, buf).Ok?
    ensures Decode(c, buf + tail) == Decode(c, buf)
  {
    var long := buf + tail;
    assert long[0..4] == buf[0..4] && long[5..9] == buf[5..9];
    var n := GetU32(buf[5..9]);
    var lo, hi := Add32(9, n), Add32(13, n);
    assert long[4..lo] == buf[4..lo] && long[lo..hi] == buf[lo..hi] && long[9..lo] == buf[9..lo];
  }

  /** The binary frame is sound for every lawful codec and every checksum function. */
  lemma BinaryIsSound(c: Codec)
    requires Lawful(c)
    ensures Sound(Binary(c))
  {
    var f := Binary(c);
    forall buf: seq<byte>, tail: seq<byte> | f.decode(buf).Ok? ensures f.decode(buf + tail) == f.decode(buf) {
      DecodeIgnoresTail(c, buf, tail);
    }
    forall rec: Record, tail: seq<byte> | f.encodable(rec)
      ensures f.decode(f.frame(rec) + tail) == Ok(rec, |f.frame(rec)|)
    {
      FrameRoundTrip(c, rec, tail);
    }
    forall rec: Record, k: nat | f.encodable(rec) && k < |f.frame(rec)|
      ensures f.decode(f.frame(rec)[..k]).Torn?
    {
      CutFrameIsTorn(c, rec, k);
    }
  }
}
