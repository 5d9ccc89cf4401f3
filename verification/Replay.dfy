/** Replaying a log file: scan frames up to the first torn one, then drop tombstoned messages. */
module Replay {
  import opened Core
  import opened Wire
  import opened Log

  /** The records decoded from the front of a file. */
  function Scan(f: Format, data: seq<byte>): seq<Record> {
    var d := f.decode(data);
    if d.Ok? && 0 < d.consumed <= |data| then [d.rec] + Scan(f, data[d.consumed..]) else []
  }

  /** The bytes at which the scan stops. */
  function Rest(f: Format, data: seq<byte>): seq<byte> {
    var d := f.decode(data);
    if d.Ok? && 0 < d.consumed <= |data| then Rest(f, data[d.consumed..]) else data
  }

  predicate Panics(f: Format, data: seq<byte>) { Rest(f, data) != [] && f.decode(Rest(f, data)).Panic? }

  function Replayed(f: Format, data: seq<byte>): seq<Message> { Live(Scan(f, data)) }

  lemma ConcatAssoc<T>(a: seq<T>, b: seq<T>, t: seq<T>)
    ensures (a + b) + t == a + (b + t)
  {
  }

  /** The scan of `data` has read `seen` from its first `offset` bytes. */
  ghost predicate Seen(f: Format, data: seq<byte>, offset: nat, seen: seq<Record>) {
    && offset <= |data|
    && Scan(f, data) == seen + Scan(f, data[offset..])
    && Rest(f, data) == Rest(f, data[offset..])
  }

  lemma SeenNothing(f: Format, data: seq<byte>)
    ensures Seen(f, data, 0, [])
  {
    assert data[0..] == data;
  }

  /** Each decoded frame moves the scan on by its length. */
  lemma SeenMore(f: Format, data: seq<byte>, offset: nat, seen: seq<Record>)
    requires Progresses(f) && offset < |data| && Seen(f, data, offset, seen) && f.decode(data[offset..]).Ok?
    ensures var d := f.decode(data[offset..]); Seen(f, data, offset + d.consumed, seen + [d.rec])
  {
    var d := f.decode(data[offset..]);
    assert data[offset..][d.consumed..] == data[offset + d.consumed..];
    ConcatAssoc(seen, [d.rec], Scan(f, data[offset + d.consumed..]));
  }

  lemma SeenAll(f: Format, data: seq<byte>, offset: nat, seen: seq<Record>)
    requires Progresses(f) && Seen(f, data, offset, seen) && (offset == |data| || !f.decode(data[offset..]).Ok?)
    ensures Scan(f, data) == seen
    ensures Panics(f, data) <==> offset < |data| && f.decode(data[offset..]).Panic?
  {
    assert seen + [] == seen;
  }

  /** The scan loop: collects messages and tombstones up to the first frame that does not decode. */
  method Collect(f: Format, data: seq<byte>)
    returns (panicked: bool, msgs: seq<Message>, tombstones: set<MessageID>)
    requires Progresses(f)
    ensures panicked <==> Panics(f, data)
    ensures msgs == Messages(Scan(f, data)) && tombstones == Tombstoned(Scan(f, data))
  {
    panicked, msgs, tombstones := false, [], {};
    var offset := 0;
    ghost var seen: seq<Record> := [];
    SeenNothing(f, data);
    while offset < |data|
      invariant 0 <= offset <= |data| && Seen(f, data, offset, seen)
      invariant msgs == Messages(seen) && tombstones == Tombstoned(seen)
    {
      var d := f.decode(data[offset..]);
      if !d.Ok? {
        SeenAll(f, data, offset, seen);
        panicked := d.Panic?;
        return;
      }
      SeenMore(f, data, offset, seen);
      MessagesAppend(seen, d.rec);
      TombstonedAppend(seen, d.rec);
      seen := seen + [d.rec];
      offset := offset + d.consumed;
      if d.rec.kind == KIND_MESSAGE {
        if d.rec.msg.Some? {
          msgs := msgs + [MessageOf(d.rec)];
        }
      } else if d.rec.kind == KIND_TOMBSTONE {
        tombstones := tombstones + {d.rec.id};
      }
    }
    SeenAll(f, data, offset, seen);
  }

  /** The second loop: keeps the survivors by overwriting the front of the buffer it is reading. */
  method FilterInPlace(a: array<Message>, tombstones: set<MessageID>) returns (kept: nat)
    modifies a
    ensures kept <= a.Length
    ensures a[..kept] == Without(old(a[..]), tombstones)
  {
    kept := 0;
    ghost var msgs := a[..];
    ghost var survivors: seq<Message> := [];
    for i := 0 to a.Length
      invariant 0 <= kept <= i && |survivors| == kept
      invariant forall k :: 0 <= k < kept ==> a[k] == survivors[k]
      invariant survivors == Without(msgs[..i], tombstones)
      invariant forall j :: i <= j < a.Length ==> a[j] == msgs[j]
    {
      var m := a[i];
      WithoutNext(msgs, i, tombstones);
      if m.id !in tombstones {
        a[kept] := m;
        kept, survivors := kept + 1, survivors + [m];
      }
    }
    assert msgs[..a.Length] == msgs;
    assert a[..kept] == survivors;
  }

  method ReplayFile(f: Format, data: seq<byte>) returns (panicked: bool, result: seq<Message>)
    requires Progresses(f)
    ensures panicked <==> Panics(f, data)
    ensures !panicked ==> result == Replayed(f, data)
  {
    var msgs, tombstones;
    panicked, msgs, tombstones := Collect(f, data);
    var a := new Message[|msgs|](i requires 0 <= i < |msgs| => msgs[i]);
    assert a[..] == msgs;
    var kept := FilterInPlace(a, tombstones);
    result := a[..kept];
  }

  // ---------------------------------------------------------------------------
  // Files produced by the encoder
  // ---------------------------------------------------------------------------

  function Frames(f: Format, recs: seq<Record>): seq<byte> {
    if recs == [] then [] else f.frame(recs[0]) + Frames(f, recs[1..])
  }

  ghost predicate AllEncodable(f: Format, recs: seq<Record>) {
    forall i :: 0 <= i < |recs| ==> f.encodable(recs[i])
  }

  /** A tail at which the scan stops without decoding or panicking. */
  predicate TornTail(f: Format, tail: seq<byte>) { tail == [] || f.decode(tail).Torn? }

  /** A clean file is decodable to its last byte. */
  predicate Clean(f: Format, data: seq<byte>) { Rest(f, data) == [] }

  lemma {:induction false} FramesConcat(f: Format, a: seq<Record>, b: seq<Record>)
    ensures Frames(f, a + b) == Frames(f, a) + Frames(f, b)
  {
    if a == [] {
      assert a + b == b;
    } else {
      FramesConcat(f, a[1..], b);
      assert (a + b)[1..] == a[1..] + b;
      ConcatAssoc(f.frame(a[0]), Frames(f, a[1..]), Frames(f, b));
    }
  }

  lemma FramesOne(f: Format, rec: Record)
    ensures Frames(f, [rec]) == f.frame(rec)
  {
    assert Frames(f, [rec]) == f.frame(rec) + Frames(f, []);
  }

  lemma ScanFrame(f: Format, rec: Record, tail: seq<byte>)
    requires Sound(f) && f.encodable(rec)
    ensures Scan(f, f.frame(rec) + tail) == [rec] + Scan(f, tail)
    ensures Rest(f, f.frame(rec) + tail) == Rest(f, tail)
  {
    assert (f.frame(rec) + tail)[|f.frame(rec)|..] == tail;
  }

  /** After a clean file the scan goes on with whatever is appended. */
  lemma {:induction false} ScanAfterClean(f: Format, data: seq<byte>, more: seq<byte>)
    requires Sound(f) && Clean(f, data)
    ensures Scan(f, data + more) == Scan(f, data) + Scan(f, more)
    ensures Rest(f, data + more) == Rest(f, more)
    decreases |data|
  {
    if data == [] {
      assert data + more == more;
    } else {
      var d := f.decode(data);
      assert f.decode(data + more) == d;
      assert (data + more)[d.consumed..] == data[d.consumed..] + more;
      ScanAfterClean(f, data[d.consumed..], more);
      ConcatAssoc([d.rec], Scan(f, data[d.consumed..]), Scan(f, more));
    }
  }

  /** Encoded records are scanned back exactly, and the scan then goes on with whatever follows them. */
  lemma {:induction false} ScanFrames(f: Format, recs: seq<Record>, tail: seq<byte>)
    requires Sound(f) && AllEncodable(f, recs)
    ensures Scan(f, Frames(f, recs) + tail) == recs + Scan(f, tail)
    ensures Rest(f, Frames(f, recs) + tail) == Rest(f, tail)
  {
    if recs == [] {
      assert Frames(f, recs) + tail == tail;
    } else {
      ConcatAssoc(f.frame(recs[0]), Frames(f, recs[1..]), tail);
      ScanFrame(f, recs[0], Frames(f, recs[1..]) + tail);
      ScanFrames(f, recs[1..], tail);
      assert recs == [recs[0]] + recs[1..];
      ConcatAssoc([recs[0]], recs[1..], Scan(f, tail));
    }
  }

  lemma ScanWithTornTail(f: Format, recs: seq<Record>, tail: seq<byte>)
    requires Sound(f) && AllEncodable(f, recs) && TornTail(f, tail)
    ensures Scan(f, Frames(f, recs) + tail) == recs
    ensures Rest(f, Frames(f, recs) + tail) == tail
    ensures !Panics(f, Frames(f, recs) + tail)
  {
    ScanFrames(f, recs, tail);
    assert recs + [] == recs;
  }

  // ---------------------------------------------------------------------------
  // Crash recovery
  // ---------------------------------------------------------------------------

  /** How many leading records fit in `k` bytes. */
  function Fit(f: Format, recs: seq<Record>, k: nat): (m: nat)
    ensures m <= |recs|
  {
    if recs == [] || k < |f.frame(recs[0])| then 0 else 1 + Fit(f, recs[1..], k - |f.frame(recs[0])|)
  }

  lemma {:induction false} FitIsLongest(f: Format, recs: seq<Record>, k: nat)
    ensures var m := Fit(f, recs, k);
      |Frames(f, recs[..m])| <= k && (m < |recs| ==> k < |Frames(f, recs[..m + 1])|)
  {
    if recs != [] {
      var n := |f.frame(recs[0])|;
      FramesOne(f, recs[0]);
      if k < n {
        assert recs[..1] == [recs[0]];
      } else {
        var m := Fit(f, recs[1..], k - n);
        FitIsLongest(f, recs[1..], k - n);
        assert recs[..m + 1] == [recs[0]] + recs[1..][..m];
        FramesConcat(f, [recs[0]], recs[1..][..m]);
        if m < |recs| - 1 {
          assert recs[..m + 2] == [recs[0]] + recs[1..][..m + 1];
          FramesConcat(f, [recs[0]], recs[1..][..m + 1]);
        }
      }
    }
  }

  lemma ScanCutFrame(f: Format, rec: Record, k: nat)
    requires Sound(f) && f.encodable(rec) && k < |f.frame(rec)|
    ensures Scan(f, f.frame(rec)[..k]) == [] && TornTail(f, Rest(f, f.frame(rec)[..k]))
  {
    assert k > 0 ==> f.decode(f.frame(rec)[..k]).Torn?;
  }

  lemma CutAfterFirst(first: seq<byte>, rest: seq<byte>, k: nat)
    requires |first| <= k <= |first| + |rest|
    ensures (first + rest)[..k] == first + rest[..k - |first|]
  {
  }

  lemma CutBeforeEnd(first: seq<byte>, rest: seq<byte>, k: nat)
    requires k < |first|
    ensures (first + rest)[..k] == first[..k]
  {
  }

  lemma FitNext(f: Format, recs: seq<Record>, k: nat)
    requires recs != [] && k >= |f.frame(recs[0])|
    ensures recs[..Fit(f, recs, k)] == [recs[0]] + recs[1..][..Fit(f, recs[1..], k - |f.frame(recs[0])|)]
  {
  }

  /**
   A crash may cut the file at any byte `k`. The scan then yields exactly the longest run of records that fits in
   `k` bytes, stops without a panic, and leaves a torn tail; no property of the checksum is used.
   */
  lemma {:induction false} CrashPrefixRecovery(f: Format, recs: seq<Record>, k: nat)
    requires Sound(f) && AllEncodable(f, recs)
    requires k <= |Frames(f, recs)|
    ensures Scan(f, Frames(f, recs)[..k]) == recs[..Fit(f, recs, k)]
    ensures TornTail(f, Rest(f, Frames(f, recs)[..k]))
  {
    if recs != [] {
      var first, rest := f.frame(recs[0]), Frames(f, recs[1..]);
      if k < |first| {
        CutBeforeEnd(first, rest, k);
        ScanCutFrame(f, recs[0], k);
      } else {
        CutAfterFirst(first, rest, k);
        ScanFrame(f, recs[0], rest[..k - |first|]);
        CrashPrefixRecovery(f, recs[1..], k - |first|);
        FitNext(f, recs, k);
      }
    }
  }
}
