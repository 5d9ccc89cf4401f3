/**
 A concrete codec that satisfies the law assumed of the JSON library, with every string valid, so that no theorem
 about lawful codecs is vacuous. Records become self-delimiting word lists, and words become unary bytes.
 */
module SampleCodec {
  import opened Core
  import opened Wire

  ghost function Block(words: seq<nat>): seq<nat> { [|words|] + words }

  ghost function Codes(s: string): seq<nat> { seq(|s|, i requires 0 <= i < |s| => s[i] as int) }

  ghost function Octets(s: seq<byte>): seq<nat> { seq(|s|, i requires 0 <= i < |s| => s[i]) }

  ghost function ZigZag(n: int): nat { if n >= 0 then 2 * n else -2 * n - 1 }

  ghost function HeaderWords(hs: seq<Header>): seq<nat> {
    if hs == [] then [0]
    else [1] + (Block(Codes(hs[0].key)) + (Block(Codes(hs[0].value)) + HeaderWords(hs[1..])))
  }

  ghost function MsgWords(m: RecordMsg): seq<nat> {
    Block(Codes(m.queue)) + (Block(Octets(m.payload)) + (HeaderWords(m.headers)
      + [ZigZag(m.retryCount), ZigZag(m.enqueueTime)]))
  }

  ghost function Words(rec: Record): seq<nat> {
    [rec.kind] + (Block(Codes(rec.id)) + (if rec.msg.None? then [] else MsgWords(rec.msg.value)))
  }

  ghost function Ones(n: nat): seq<byte> { seq(n, _ => 1) }

  ghost function Unary(words: seq<nat>): seq<byte> {
    if words == [] then [] else Ones(words[0]) + ([0] + Unary(words[1..]))
  }

  lemma BlockInjective(a: seq<nat>, b: seq<nat>, x: seq<nat>, y: seq<nat>)
    requires Block(a) + x == Block(b) + y
    ensures a == b && x == y
  {
    var l, r := Block(a) + x, Block(b) + y;
    assert l[0] == |a| && r[0] == |b|;
    assert l[1..1 + |a|] == a && r[1..1 + |b|] == b;
    assert l[1 + |a|..] == x && r[1 + |b|..] == y;
  }

  lemma TextInjective(a: string, b: string, x: seq<nat>, y: seq<nat>)
    requires Block(Codes(a)) + x == Block(Codes(b)) + y
    ensures a == b && x == y
  {
    BlockInjective(Codes(a), Codes(b), x, y);
    assert |a| == |Codes(a)| && |b| == |Codes(b)|;
    forall i | 0 <= i < |a| ensures a[i] == b[i] {
      assert Codes(a)[i] == Codes(b)[i];
    }
  }

  lemma OctetsInjective(a: seq<byte>, b: seq<byte>, x: seq<nat>, y: seq<nat>)
    requires Block(Octets(a)) + x == Block(Octets(b)) + y
    ensures a == b && x == y
  {
    BlockInjective(Octets(a), Octets(b), x, y);
    assert |a| == |Octets(a)| && |b| == |Octets(b)|;
    forall i | 0 <= i < |a| ensures a[i] == b[i] {
      assert Octets(a)[i] == Octets(b)[i];
    }
  }

  lemma {:induction false} HeadersInjective(a: seq<Header>, b: seq<Header>, x: seq<nat>, y: seq<nat>)
    requires HeaderWords(a) + x == HeaderWords(b) + y
    ensures a == b && x == y
  {
    var l, r := HeaderWords(a) + x, HeaderWords(b) + y;
    assert l[0] == (if a == [] then 0 else 1);
    assert r[0] == (if b == [] then 0 else 1);
    if a == [] {
      assert l[1..] == x && r[1..] == y;
    } else {
      var ta := HeaderWords(a[1..]) + x;
      var tb := HeaderWords(b[1..]) + y;
      assert l[1..] == Block(Codes(a[0].key)) + (Block(Codes(a[0].value)) + ta);
      assert r[1..] == Block(Codes(b[0].key)) + (Block(Codes(b[0].value)) + tb);
      TextInjective(a[0].key, b[0].key, Block(Codes(a[0].value)) + ta, Block(Codes(b[0].value)) + tb);
      TextInjective(a[0].value, b[0].value, ta, tb);
      HeadersInjective(a[1..], b[1..], x, y);
      assert a == [a[0]] + a[1..] && b == [b[0]] + b[1..];
    }
  }

  lemma MsgInjective(a: RecordMsg, b: RecordMsg)
    requires MsgWords(a) == MsgWords(b)
    ensures a == b
  {
    var xa := [ZigZag(a.retryCount), ZigZag(a.enqueueTime)];
    var xb := [ZigZag(b.retryCount), ZigZag(b.enqueueTime)];
    TextInjective(a.queue, b.queue, Block(Octets(a.payload)) + (HeaderWords(a.headers) + xa),
                  Block(Octets(b.payload)) + (HeaderWords(b.headers) + xb));
    OctetsInjective(a.payload, b.payload, HeaderWords(a.headers) + xa, HeaderWords(b.headers) + xb);
    HeadersInjective(a.headers, b.headers, xa, xb);
    assert xa[0] == xb[0] && xa[1] == xb[1];
  }

  lemma WordsInjective(a: Record, b: Record)
    requires Words(a) == Words(b)
    ensures a == b
  {
    var xa := if a.msg.None? then [] else MsgWords(a.msg.value);
    var xb := if b.msg.None? then [] else MsgWords(b.msg.value);
    assert Words(a)[0] == a.kind && Words(b)[0] == b.kind;
    assert Words(a)[1..] == Block(Codes(a.id)) + xa && Words(b)[1..] == Block(Codes(b.id)) + xb;
    TextInjective(a.id, b.id, xa, xb);
    if a.msg.Some? && b.msg.Some? { MsgInjective(a.msg.value, b.msg.value); }
  }

  lemma {:induction false} UnaryInjective(a: seq<nat>, b: seq<nat>)
    requires Unary(a) == Unary(b)
    ensures a == b
  {
    if a != [] && b != [] {
      var l, r := Unary(a), Unary(b);
      assert l[a[0]] == 0 && forall i :: 0 <= i < a[0] ==> l[i] == 1;
      assert r[b[0]] == 0 && forall i :: 0 <= i < b[0] ==> r[i] == 1;
      assert a[0] == b[0];
      assert l[a[0] + 1..] == Unary(a[1..]) && r[b[0] + 1..] == Unary(b[1..]);
      UnaryInjective(a[1..], b[1..]);
      assert a == [a[0]] + a[1..] && b == [b[0]] + b[1..];
    }
  }

  ghost function Marshal(rec: Record): seq<byte> { Unary(Words(rec)) }

  ghost function Unmarshal(data: seq<byte>): Option<Record> {
    if exists rec: Record :: Marshal(rec) == data then
      var rec: Record :| Marshal(rec) == data; Some(rec)
    else
      None
  }

  ghost function UnaryCodec(checksum: uint32): Codec {
    Codec(_ => true, rec => Marshal(rec), data => Unmarshal(data), _ => checksum)
  }

  /** The law is satisfiable with all text valid, even by a constant checksum. */
  lemma LawIsSatisfiable(checksum: uint32)
    ensures Lawful(UnaryCodec(checksum))
    ensures forall rec: Record :: WellFormed(UnaryCodec(checksum), rec)
  {
    var c := UnaryCodec(checksum);
    forall rec: Record | WellFormed(c, rec) ensures c.unmarshal(c.marshal(rec)) == Some(rec) {
      var back := Unmarshal(Marshal(rec));
      assert back.Some? && Marshal(back.value) == Marshal(rec);
      UnaryInjective(Words(back.value), Words(rec));
      WordsInjective(back.value, rec);
    }
  }
}
