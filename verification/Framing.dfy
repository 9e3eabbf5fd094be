/** Requests of the memcached binary protocol on a byte stream: the encoders of
    apps/flexkvs/bench/main.c and what connection_recv of apps/flexkvs/server/main-ll.c makes of
    the bytes, as functions on byte sequences. */
module Framing {

  type Byte = x: nat | x < 256

  // ----- numbers in network byte order -----

  function Be16(n: nat): seq<Byte>
    requires n < 0x1_0000
  {
    [n / 256, n % 256]
  }

  function Be32(n: nat): seq<Byte>
    requires n < 0x1_0000_0000
  {
    [n / 0x100_0000, n / 0x1_0000 % 256, n / 256 % 256, n % 256]
  }

  /** ntohs */
  function Read16(b: seq<Byte>, i: nat): nat
    requires i + 2 <= |b|
  {
    256 * (b[i] as int) + b[i + 1]
  }

  /** ntohl */
  function Read32(b: seq<Byte>, i: nat): nat
    requires i + 4 <= |b|
  {
    0x100_0000 * (b[i] as int) + 0x1_0000 * (b[i + 1] as int) + 256 * (b[i + 2] as int) + b[i + 3]
  }

  lemma Be16RoundTrip(n: nat)
    requires n < 0x1_0000
    ensures Read16(Be16(n), 0) == n
  {
  }

  lemma Be32RoundTrip(n: nat)
    requires n < 0x1_0000_0000
    ensures Read32(Be32(n), 0) == n
  {
    assert n == 256 * (n / 256) + n % 256;
    assert n / 256 == 256 * (n / 256 / 256) + n / 256 % 256;
    assert n / 256 / 256 == n / 0x1_0000 && n / 0x1_0000 / 256 == n / 0x100_0000;
    assert n / 0x1_0000 == 256 * (n / 0x100_0000) + n / 0x1_0000 % 256;
  }

  // ----- requests -----

  const MAGIC: Byte := 0x80        // PROTOCOL_BINARY_REQ
  const GET: Byte := 0             // PROTOCOL_BINARY_CMD_GET
  const SET: Byte := 1             // PROTOCOL_BINARY_CMD_SET
  const HEADER := 24               // sizeof(protocol_binary_request_header)
  const EXTRAS: Byte := 8                // flags and expiration of a SET
  const REQBUF := 128              // MAX_MSGSIZE

  datatype Request =
    | Get(key: seq<Byte>, opaqueId: seq<Byte>)
    | Set(key: seq<Byte>, value: seq<Byte>, opaqueId: seq<Byte>)

  function ExtLen(r: Request): Byte { if r.Set? then EXTRAS else 0 }

  function Value(r: Request): seq<Byte> { if r.Set? then r.value else [] }

  function BodyLen(r: Request): nat { ExtLen(r) + |r.key| + |Value(r)| }

  /** Header and key fit the server's request buffer, and the body its length field. */
  predicate Sendable(r: Request)
  {
    |r.opaqueId| == 4 && HEADER + ExtLen(r) + |r.key| <= REQBUF && BodyLen(r) < 0x1_0000_0000
  }

  function Zeros(n: nat): seq<Byte> { seq(n, _ => 0) }

  /** The header set_request and get_request write. */
  function Header(r: Request): (h: seq<Byte>)
    requires Sendable(r)
    ensures |h| == HEADER
  {
    [MAGIC, if r.Set? then SET else GET]
    + Be16(|r.key|) + [ExtLen(r), 0, 0, 0] + Be32(BodyLen(r)) + r.opaqueId + Zeros(8)
  }

  /** The bytes set_request and get_request leave in tx_buf. */
  function Encode(r: Request): (b: seq<Byte>)
    requires Sendable(r)
    ensures |b| == HEADER + BodyLen(r)
  {
    Header(r) + Zeros(ExtLen(r)) + r.key + Value(r)
  }

  // ----- what the server reads -----

  datatype Parsed =
    | Short                      // to wait for more
    | Abort                      // not a request it knows
    | Overrun                    // lengths that do not fit: not checked by the server
    | One(r: Request, n: nat)    // a request of n bytes

  /** One round of the loop of connection_recv on the bytes at hand. */
  function Parse(b: seq<Byte>): Parsed
  {
    if |b| < HEADER then Short
    else
      var bl := Read32(b, 8);
      var kl := Read16(b, 2);
      var ext := b[4];
      var ko := HEADER + ext;
      if |b| < HEADER + bl then Short
      else if bl < ext + kl || ko + kl > REQBUF then Overrun
      else if b[0] != MAGIC then Abort
      else if b[1] == GET then One(Get(b[ko..ko + kl], b[12..16]), HEADER + bl)
      else if b[1] == SET then One(Set(b[ko..ko + kl], b[ko + kl..HEADER + bl], b[12..16]), HEADER + bl)
      else Abort
  }

  /** The fields of the header, where the server reads them. */
  lemma HeaderFields(r: Request, b: seq<Byte>)
    requires Sendable(r) && |b| >= HEADER && b[..HEADER] == Header(r)
    ensures b[0] == MAGIC && b[1] == (if r.Set? then SET else GET) && Read16(b, 2) == |r.key| && b[4] == ExtLen(r)
    ensures Read32(b, 8) == BodyLen(r) && b[12..16] == r.opaqueId
  {
    var h := Header(r);
    assert forall i :: 0 <= i < HEADER ==> b[i] == h[i];
    assert h[2..4] == Be16(|r.key|) && h[8..12] == Be32(BodyLen(r)) && h[12..16] == r.opaqueId;
    assert h[2] == h[2..4][0] && h[3] == h[2..4][1];
    assert h[8] == h[8..12][0] && h[9] == h[8..12][1] && h[10] == h[8..12][2] && h[11] == h[8..12][3];
    Be16RoundTrip(|r.key|);
    Be32RoundTrip(BodyLen(r));
    assert b[12..16] == h[12..16];
  }

  /** Whatever follows it, an encoded request is read back. */
  lemma ParseEncoded(r: Request, rest: seq<Byte>)
    requires Sendable(r)
    ensures Parse(Encode(r) + rest) == One(r, |Encode(r)|)
  {
    var b := Encode(r) + rest;
    assert b[..HEADER] == Header(r);
    HeaderFields(r, b);
    var ko := HEADER + ExtLen(r);
    assert b[ko..ko + |r.key|] == r.key;
    assert b[ko + |r.key|..HEADER + BodyLen(r)] == Value(r);
  }

  /** Less than a whole request is waited on. */
  lemma ParsePartial(r: Request, n: nat)
    requires Sendable(r) && n < |Encode(r)|
    ensures Parse(Encode(r)[..n]) == Short
  {
    var b := Encode(r)[..n];
    if n >= HEADER {
      assert b[..HEADER] == Header(r);
      HeaderFields(r, b);
    }
  }

  // ----- streams -----

  predicate AllSendable(rs: seq<Request>) { forall i :: 0 <= i < |rs| ==> Sendable(rs[i]) }

  function Stream(rs: seq<Request>): seq<Byte>
    requires AllSendable(rs)
  {
    if rs == [] then [] else Encode(rs[0]) + Stream(rs[1..])
  }

  /** What the loop does with the bytes at hand: the requests it handles, the bytes it leaves,
      and whether it got that far. */
  datatype Drained = Drained(rs: seq<Request>, rest: seq<Byte>, ok: bool)

  function Drain(b: seq<Byte>): Drained
    decreases |b|
  {
    match Parse(b)
    case One(r, n) =>
      if 0 < n <= |b| then
        var d := Drain(b[n..]);
        Drained([r] + d.rs, d.rest, d.ok)
      else Drained([], b, false)
    case Short => Drained([], b, true)
    case _ => Drained([], b, false)
  }

  // ----- prefixes -----

  /** A prefix of e + s ends in e, or goes on in s. */
  lemma PrefixOf(b: seq<Byte>, e: seq<Byte>, s: seq<Byte>)
    requires b <= e + s
    ensures |b| < |e| ==> b == e[..|b|] && b < e
    ensures |b| >= |e| ==> b == e + b[|e|..] && b[|e|..] <= s
  {
    assert b == (e + s)[..|b|];
    if |b| >= |e| {
      assert forall i :: 0 <= i < |b| - |e| ==> b[|e|..][i] == (e + s)[|e| + i] == s[i];
    }
  }

  /** Dropping what both have in front. */
  lemma Cancel(a: seq<Byte>, b: seq<Byte>, s: seq<Byte>)
    requires a + b <= a + s
    ensures b <= s
  {
    assert (a + b)[|a|..] == b && (a + s)[|a|..] == s;
    assert forall i :: 0 <= i < |b| ==> b[i] == (a + b)[|a| + i] == (a + s)[|a| + i] == s[i];
  }

  lemma Assoc(a: seq<Byte>, b: seq<Byte>, c: seq<Byte>)
    ensures (a + b) + c == a + (b + c)
  {
  }

  lemma StreamNext(rs: seq<Request>, k: nat)
    requires AllSendable(rs) && k < |rs|
    ensures AllSendable(rs[1..]) && AllSendable(rs[..k + 1])
    ensures Stream(rs[..k + 1]) == Encode(rs[0]) + Stream(rs[1..][..k])
  {
    assert rs[..k + 1][0] == rs[0] && rs[..k + 1][1..] == rs[1..][..k];
  }

  /** b is what the requests of rs that have been handled, and what is left, add up to; what is
      left is a proper prefix of the next request. */
  ghost predicate Upto(rs: seq<Request>, b: seq<Byte>, d: Drained)
    requires AllSendable(rs)
  {
    && d.ok && |d.rs| <= |rs| && d.rs == rs[..|d.rs|]
    && b == Stream(d.rs) + d.rest
    && (if |d.rs| < |rs| then d.rest < Encode(rs[|d.rs|]) else d.rest == [])
  }

  lemma UptoNone(rs: seq<Request>, b: seq<Byte>)
    requires AllSendable(rs) && (if rs == [] then b == [] else b < Encode(rs[0]))
    ensures Upto(rs, b, Drained([], b, true))
  {
    hide Encode;
    assert rs[..0] == [];
  }

  lemma UptoOne(rs: seq<Request>, b: seq<Byte>, d: Drained)
    requires AllSendable(rs) && rs != [] && Upto(rs[1..], b, d)
    ensures Upto(rs, Encode(rs[0]) + b, Drained([rs[0]] + d.rs, d.rest, d.ok))
  {
    hide Encode;
    StreamNext(rs, |d.rs|);
    assert [rs[0]] + d.rs == rs[..|d.rs| + 1];
    Assoc(Encode(rs[0]), Stream(d.rs), d.rest);
  }

  /** From any prefix of a stream the loop handles exactly the requests that are complete in it,
      in order, and leaves a proper prefix of the next. */
  lemma {:induction false} DrainStream(rs: seq<Request>, b: seq<Byte>)
    requires AllSendable(rs) && b <= Stream(rs)
    ensures Upto(rs, b, Drain(b))
    decreases |rs|
  {
    hide Encode, Parse, Upto;
    if rs == [] {
      assert b == [];
      ParseNothing();
      UptoNone(rs, b);
    } else {
      var e := Encode(rs[0]);
      PrefixOf(b, e, Stream(rs[1..]));
      if |b| < |e| {
        ParsePartial(rs[0], |b|);
        UptoNone(rs, b);
      } else {
        ParseEncoded(rs[0], b[|e|..]);
        EncodeLong(rs[0]);
        DrainStream(rs[1..], b[|e|..]);
        UptoOne(rs, b[|e|..], Drain(b[|e|..]));
      }
    }
  }

  lemma ParseNothing()
    ensures Parse([]) == Short
  {
  }

  lemma EncodeLong(r: Request)
    requires Sendable(r)
    ensures |Encode(r)| > 0
  {
  }

  /** The bytes come in chunks, and each chunk is handled with what was left before. */
  function Serve(held: seq<Byte>, chunks: seq<seq<Byte>>): Drained
    decreases |chunks|
  {
    if chunks == [] then Drained([], held, true)
    else
      var d := Drain(held + chunks[0]);
      if !d.ok then d
      else
        var e := Serve(d.rest, chunks[1..]);
        Drained(d.rs + e.rs, e.rest, e.ok)
  }

  function Joined(chunks: seq<seq<Byte>>): seq<Byte>
  {
    if chunks == [] then [] else chunks[0] + Joined(chunks[1..])
  }

  lemma UptoFacts(rs: seq<Request>, b: seq<Byte>, d: Drained)
    requires AllSendable(rs) && Upto(rs, b, d)
    ensures d.ok && |d.rs| <= |rs| && d.rs == rs[..|d.rs|] && AllSendable(d.rs) && b == Stream(d.rs) + d.rest
    ensures if |d.rs| < |rs| then d.rest < Encode(rs[|d.rs|]) else d.rest == []
  {
    hide Encode;
  }

  lemma {:induction false} StreamSplit(rs: seq<Request>, k: nat)
    requires AllSendable(rs) && k <= |rs|
    ensures AllSendable(rs[..k]) && AllSendable(rs[k..]) && Stream(rs) == Stream(rs[..k]) + Stream(rs[k..])
    decreases k
  {
    hide Encode;
    if k == 0 {
      assert rs[0..] == rs && rs[..0] == [];
    } else {
      StreamSplit(rs[1..], k - 1);
      StreamNext(rs, k - 1);
      assert rs[1..][k - 1..] == rs[k..];
      Assoc(Encode(rs[0]), Stream(rs[1..][..k - 1]), Stream(rs[k..]));
    }
  }

  /** Two stretches of a stream make one. */
  lemma UptoJoined(rs: seq<Request>, k: nat, rest: seq<Byte>, more: seq<Byte>, e: Drained)
    requires AllSendable(rs) && k <= |rs| && Upto(rs[k..], rest + more, e)
    ensures AllSendable(rs[..k]) && Upto(rs, (Stream(rs[..k]) + rest) + more, Drained(rs[..k] + e.rs, e.rest, e.ok))
  {
    hide Encode, Stream;
    var n := k + |e.rs|;
    assert rs[..n][..k] == rs[..k] && rs[..n][k..] == rs[k..][..|e.rs|];
    assert rs[..k] + e.rs == rs[..n];
    StreamSplit(rs[..n], k);
    Assoc(Stream(rs[..k]), rest, more);
    Assoc(Stream(rs[..k]), Stream(e.rs), e.rest);
  }

  /** However a stream of requests is chopped up, and however much of it has arrived, the server
      has handled exactly the requests that have arrived whole, in order; what it holds back is a
      proper prefix of the next one. */
  lemma {:induction false} ServeStream(rs: seq<Request>, held: seq<Byte>, chunks: seq<seq<Byte>>)
    requires AllSendable(rs) && held + Joined(chunks) <= Stream(rs)
    requires if rs == [] then held == [] else held < Encode(rs[0])
    ensures Upto(rs, held + Joined(chunks), Serve(held, chunks))
    decreases |chunks|
  {
    hide Encode, Parse, Upto, Drain, Stream;
    if chunks == [] {
      UptoNone(rs, held);
      assert held + [] == held;
    } else {
      var b, more := held + chunks[0], Joined(chunks[1..]);
      Assoc(held, chunks[0], more);
      assert b <= Stream(rs) by { assert b <= b + more; }
      DrainStream(rs, b);
      var d := Drain(b);
      UptoFacts(rs, b, d);
      var k := |d.rs|;
      StreamSplit(rs, k);
      Assoc(Stream(d.rs), d.rest, more);
      Cancel(Stream(d.rs), d.rest + more, Stream(rs[k..]));
      ServeStream(rs[k..], d.rest, chunks[1..]);
      UptoJoined(rs, k, d.rest, more, Serve(d.rest, chunks[1..]));
    }
  }

  /** The rest of a stream starts with the whole of its next request. */
  lemma HeadFits(rs: seq<Request>, k: nat)
    requires AllSendable(rs) && k < |rs|
    ensures |Encode(rs[k])| <= |Stream(rs[k..])|
  {
    hide Encode;
    assert rs[k..][0] == rs[k];
  }

  /** When all of a stream has been handled, all its requests have. */
  lemma WholeStream(rs: seq<Request>, d: Drained)
    requires AllSendable(rs) && Upto(rs, Stream(rs), d)
    ensures d.rs == rs && d.rest == []
  {
    hide Encode, Upto, Stream;
    UptoFacts(rs, Stream(rs), d);
    var k := |d.rs|;
    StreamSplit(rs, k);
    if k < |rs| { HeadFits(rs, k); }
  }
}
