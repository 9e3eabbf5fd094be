/** connection_recv of apps/flexkvs/server/main-ll.c on a ring receive buffer: the bytes at hand
    are in one or two pieces of the ring. */
module Receive {
  import opened Framing
  import opened Rings

  /** Two stretches of m, one after the other. */
  function Pieces(m: seq<Byte>, b1: nat, l1: nat, b2: nat, l2: nat): seq<Byte>
    requires b1 + l1 <= |m| && b2 + l2 <= |m|
  {
    m[b1..b1 + l1] + m[b2..b2 + l2]
  }

  lemma PiecesAt(m: seq<Byte>, b1: nat, l1: nat, b2: nat, l2: nat, off: nat, n: nat)
    requires b1 + l1 <= |m| && b2 + l2 <= |m| && off + n <= l1 + l2
    ensures Pieces(m, b1, l1, b2, l2)[off..off + n] ==
      if off + n <= l1 then m[b1 + off..b1 + off + n]
      else if off >= l1 then m[b2 + off - l1..b2 + off - l1 + n]
      else m[b1 + off..b1 + l1] + m[b2..b2 + off + n - l1]
  {
    var p := Pieces(m, b1, l1, b2, l2);
    assert forall i :: 0 <= i < |p| ==> p[i] == if i < l1 then m[b1 + i] else m[b2 + i - l1];
    var q := p[off..off + n];
    assert forall i :: 0 <= i < n ==> q[i] == p[off + i];
    assert |q| == n && forall i :: 0 <= i < n ==>
      q[i] == if off + i < l1 then m[b1 + off + i] else m[b2 + off + i - l1];
  }

  lemma PiecesDrop(m: seq<Byte>, b1: nat, l1: nat, b2: nat, l2: nat, n: nat)
    requires b1 + l1 <= |m| && b2 + l2 <= |m| && n <= l1 + l2
    ensures n <= l1 ==> Pieces(m, b1, l1, b2, l2)[n..] == Pieces(m, b1 + n, l1 - n, b2, l2)
    ensures n >= l1 ==> Pieces(m, b1, l1, b2, l2)[n..] == Pieces(m, b2 + (n - l1), l2 - (n - l1), b2 + (n - l1), 0)
    ensures l1 == n ==> Pieces(m, b1, l1, b2, l2)[n..] == Pieces(m, b2, l2, b2, 0)
  {
    var q := Pieces(m, b1, l1, b2, l2)[n..];
    assert |q| == l1 + l2 - n && forall i :: 0 <= i < |q| ==>
      q[i] == if n + i < l1 then m[b1 + n + i] else m[b2 + n + i - l1];
  }

  lemma PiecesEmpty(m: seq<Byte>, b1: nat, l1: nat, b2: nat, b2': nat)
    requires b1 + l1 <= |m| && b2 <= |m| && b2' <= |m|
    ensures Pieces(m, b1, l1, b2, 0) == Pieces(m, b1, l1, b2', 0) == m[b1..b1 + l1]
  {
  }

  /** New bytes behind the last piece. */
  lemma PiecesGrow(m: seq<Byte>, b1: nat, l1: nat, b2: nat, l2: nat, n: nat)
    requires b1 + l1 <= |m| && b2 + l2 + n <= |m|
    ensures Pieces(m, b1, l1, b2, l2 + n) == Pieces(m, b1, l1, b2, l2) + m[b2 + l2..b2 + l2 + n]
  {
    assert m[b2..b2 + l2 + n] == m[b2..b2 + l2] + m[b2 + l2..b2 + l2 + n];
  }

  lemma PieceGrows(m: seq<Byte>, b1: nat, l1: nat, b2: nat, n: nat)
    requires b1 + l1 + n <= |m| && b2 <= |m|
    ensures Pieces(m, b1, l1 + n, b2, 0) == Pieces(m, b1, l1, b2, 0) + m[b1 + l1..b1 + l1 + n]
  {
    assert m[b1..b1 + l1 + n] == m[b1..b1 + l1] + m[b1 + l1..b1 + l1 + n];
  }

  /** Writing elsewhere. */
  lemma PiecesSame(m: seq<Byte>, m': seq<Byte>, b1: nat, l1: nat, b2: nat, l2: nat, w: nat, n: nat)
    requires |m'| == |m| && b1 + l1 <= |m| && b2 + l2 <= |m| && w + n <= |m|
    requires forall i :: 0 <= i < |m| && !(w <= i < w + n) ==> m'[i] == m[i]
    requires (l1 > 0 ==> w >= b1 + l1 || w + n <= b1) && (l2 > 0 ==> w >= b2 + l2 || w + n <= b2)
    ensures Pieces(m', b1, l1, b2, l2) == Pieces(m, b1, l1, b2, l2)
  {
    var p, p' := Pieces(m, b1, l1, b2, l2), Pieces(m', b1, l1, b2, l2);
    assert forall i :: 0 <= i < |p| ==> p[i] == if i < l1 then m[b1 + i] else m[b2 + i - l1];
    assert forall i :: 0 <= i < |p| ==> p'[i] == if i < l1 then m'[b1 + i] else m'[b2 + i - l1];
  }

  /** The header read into the request buffer. */
  lemma HeaderRead(b: seq<Byte>, req: seq<Byte>)
    requires |b| >= HEADER && req == b[0..0 + HEADER]
    ensures Read32(req, 8) == Read32(b, 8) && Read16(req, 2) == Read16(b, 2) && req[0] == b[0] && req[1] == b[1]
      && req[4] == b[4]
    ensures req[12..16] == b[12..16]
  {
    assert forall i :: 0 <= i < HEADER ==> req[i] == b[i];
  }

  lemma ParseSize(b: seq<Byte>)
    ensures Parse(b).One? ==> 0 < Parse(b).n <= |b|
    ensures |b| < HEADER ==> Parse(b) == Short
  {
  }

  /** struct connection, with its receive ring.  The network writes at w; buf1/len1 and buf2/len2
      are the pieces the server has not consumed. */
  class Connection {
    const ring: array<Byte>
    var w: nat
    var buf1: nat
    var len1: nat
    var buf2: nat
    var len2: nat

    /** The second piece, if there is one, begins where the first reaches the end of the ring, and
        the network writes behind the last piece. */
    ghost predicate Valid()
      reads this
    {
      && w < ring.Length && buf1 + len1 <= ring.Length && buf2 + len2 <= ring.Length
      && (len1 == 0 ==> len2 == 0)
      && (len1 > 0 && len2 == 0 ==> w == if buf1 + len1 == ring.Length then 0 else buf1 + len1)
      && (len2 > 0 ==> buf1 + len1 == ring.Length && buf2 == 0 && w == len2 <= buf1)
    }

    /** The bytes at hand, in the order they came. */
    ghost function Held(): seq<Byte>
      requires buf1 + len1 <= ring.Length && buf2 + len2 <= ring.Length
      reads this, ring
    {
      Pieces(ring[..], buf1, len1, buf2, len2)
    }

    constructor (size: nat)
      requires size > 0
      ensures Valid() && Held() == [] && fresh(ring) && ring.Length == size
    {
      ring := new Byte[size](_ => 0);
      w, buf1, len1, buf2, len2 := 0, 0, 0, 0, 0;
    }

    /** The network puts bytes behind those at hand -- as many as have room, without wrapping --
        and the event is added to the pieces. */
    method Arrive(bytes: seq<Byte>)
      requires Valid() && 0 < |bytes| <= ring.Length - w && len1 + len2 + |bytes| <= ring.Length
      modifies this, ring
      ensures Valid() && Held() == old(Held()) + bytes && w == Wrap(old(w) + |bytes|, ring.Length)
    {
      Write(bytes);
      AddEvent(w, |bytes|);
    }

    /** An event for len bytes at buf.  The last case, "weird situation", never arises. */
    method AddEvent(buf: nat, len: nat)
      requires Valid() && 0 < len <= ring.Length - w && len1 + len2 + len <= ring.Length && buf == w
      modifies this
      ensures Valid() && Held() == old(Held()) + ring[buf..buf + len] && w == Wrap(old(w) + len, ring.Length)
    {
      hide Pieces;
      ghost var m := ring[..];
      assert m[buf..buf + len] == ring[buf..buf + len];
      if len1 == 0 {
        FirstPiece(m, buf1, buf2, buf, len);
        buf1, len1 := buf, len;
      } else if buf1 + len1 == buf {
        assert len2 == 0;
        PieceGrows(m, buf1, len1, buf2, len);
        len1 := len1 + len;
      } else if len2 == 0 {
        PiecesEmpty(m, buf1, len1, buf2, buf);
        PiecesGrow(m, buf1, len1, buf, 0, len);
        buf2, len2 := buf, len;
      } else if buf2 + len2 == buf {
        PiecesGrow(m, buf1, len1, buf2, len2, len);
        len2 := len2 + len;
      } else {
        assert false;
      }
      w := Wrap(buf + len, ring.Length);
    }

    method Write(bytes: seq<Byte>)
      requires Valid() && |bytes| <= ring.Length - w && len1 + len2 + |bytes| <= ring.Length
      modifies ring
      ensures Held() == old(Held()) && ring[w..w + |bytes|] == bytes
    {
      ghost var m := ring[..];
      forall i | 0 <= i < |bytes| {
        ring[w + i] := bytes[i];
      }
      PiecesSame(m, ring[..], buf1, len1, buf2, len2, w, |bytes|);
    }

    /** split_read: n bytes at an offset into the bytes at hand. */
    method SplitRead(n: nat, off: nat) returns (b: seq<Byte>)
      requires Valid() && off + n <= len1 + len2
      ensures b == Held()[off..off + n]
    {
      PiecesAt(ring[..], buf1, len1, buf2, len2, off, n);
      hide Pieces;
      if off + n <= len1 {
        b := ring[buf1 + off..buf1 + off + n];
      } else if off >= len1 {
        b := ring[buf2 + off - len1..buf2 + off - len1 + n];
      } else {
        b := ring[buf1 + off..buf1 + len1] + ring[buf2..buf2 + off + n - len1];
      }
    }

    /** A request of reql bytes has been handled. */
    method Advance(reql: nat)
      requires Valid() && 0 < reql <= len1 + len2
      modifies this
      ensures Valid() && Held() == old(Held())[reql..] && w == old(w)
    {
      ghost var m := ring[..];
      PiecesDrop(m, buf1, len1, buf2, len2, reql);
      PiecesEmpty(m, buf2, len2, buf2, buf2);
      hide Pieces;
      if len1 >= reql {
        buf1 := buf1 + reql;
        len1 := len1 - reql;
        if len1 == 0 {
          buf1 := buf2;
          len1 := len2;
          len2 := 0;
        }
      } else {
        buf2 := buf2 + (reql - len1);
        len2 := len2 - (reql - len1);
        buf1 := buf2;
        len1 := len2;
        len2 := 0;
      }
    }

    /** The header, key and value of the request at hand, as connection_recv reads them. */
    method ReadRequest() returns (p: Parsed)
      requires Valid()
      ensures p == Parse(Held())
    {
      hide Pieces, Read32, Read16;
      ghost var held := Held();
      HeldSize();
      if len1 + len2 < HEADER {
        return Short;
      }
      var req := SplitRead(HEADER, 0);
      HeaderRead(held, req);
      var bl := Read32(req, 8);
      var reql := HEADER + bl;
      if len1 + len2 < reql {
        return Short;
      }
      var ext := req[4];
      var kl := Read16(req, 2);
      var ko := HEADER + ext;
      if bl < ext + kl || ko + kl > REQBUF {
        return Overrun;
      }
      var vl := bl - ext - kl;
      var vo := HEADER + ext + kl;
      var key := SplitRead(kl, ko);
      if req[0] != MAGIC {
        return Abort;
      }
      if req[1] == GET {
        return One(Get(key, req[12..16]), reql);
      } else if req[1] == SET {
        var value := SplitRead(vl, vo);
        return One(Set(key, value, req[12..16]), reql);
      } else {
        return Abort;
      }
    }

    /** The loop of connection_recv: the requests handled, and whether all was well. */
    method Consume() returns (rs: seq<Request>, ok: bool)
      requires Valid()
      modifies this
      ensures Valid() && Drain(old(Held())) == Drained(rs, Held(), ok) && w == old(w)
    {
      rs, ok := [], true;
      hide Parse, Pieces;
      ghost var done := Drain(Held());
      ParseSize(Held());
      while len1 + len2 >= HEADER
        invariant Valid() && ok && w == old(w)
        invariant done == Drained(rs + Drain(Held()).rs, Drain(Held()).rest, Drain(Held()).ok)
        decreases len1 + len2
      {
        ParseSize(Held());
        var p := ReadRequest();
        if p.Short? {
          break;
        }
        if !p.One? {
          ok := false;
          return;
        }
        HeldSize();
        ghost var d := Drain(Held()[p.n..]);
        Regroup(rs, p.r, d.rs);
        rs := rs + [p.r];
        Advance(p.n);
        HeldSize();
      }
      ParseSize(Held());
      HeldSize();
    }

    lemma HeldSize()
      requires buf1 + len1 <= ring.Length && buf2 + len2 <= ring.Length
      ensures |Held()| == len1 + len2
    {
    }

    /** connection_recv */
    method Recv(bytes: seq<Byte>) returns (rs: seq<Request>, ok: bool)
      requires Valid() && 0 < |bytes| <= ring.Length - w && len1 + len2 + |bytes| <= ring.Length
      modifies this, ring
      ensures Valid() && Drain(old(Held()) + bytes) == Drained(rs, Held(), ok)
        && w == Wrap(old(w) + |bytes|, ring.Length)
    {
      Arrive(bytes);
      rs, ok := Consume();
    }

    /** connection_recv for one event after the other, as long as all is well. */
    method RecvAll(chunks: seq<seq<Byte>>) returns (rs: seq<Request>, ok: bool)
      requires Valid() && Room(Held(), w, ring.Length, chunks)
      modifies this, ring
      ensures Valid() && Serve(old(Held()), chunks) == Drained(rs, Held(), ok)
    {
      hide Drain, Pieces, Room, Serve;
      rs, ok := [], true;
      var i := 0;
      ghost var done := Serve(Held(), chunks);
      assert chunks[0..] == chunks;
      assert [] + done.rs == done.rs;
      while i < |chunks| && ok
        invariant i <= |chunks| && Valid()
        invariant ok ==> Room(Held(), w, ring.Length, chunks[i..])
        invariant ok ==> var d := Serve(Held(), chunks[i..]); done == Drained(rs + d.rs, d.rest, d.ok)
        invariant !ok ==> done == Drained(rs, Held(), false)
        decreases |chunks| - i
      {
        ghost var held := Held();
        RoomNext(held, w, ring.Length, chunks[i..]);
        ServeNext(held, chunks[i..]);
        assert chunks[i..][1..] == chunks[i + 1..];
        HeldSize();
        var more;
        more, ok := Recv(chunks[i]);
        ghost var d := Serve(Held(), chunks[i + 1..]);
        assert rs + (more + d.rs) == (rs + more) + d.rs;
        rs := rs + more;
        i := i + 1;
      }
      if ok {
        ServeNone(Held(), chunks[i..]);
        assert rs + [] == rs;
      }
    }

    /** A new connection on which a client's requests arrive, however chopped up: the server decodes
        exactly those that have arrived whole, in order, and holds back a proper prefix of the next. */
    method RecvStream(ghost sent: seq<Request>, chunks: seq<seq<Byte>>) returns (rs: seq<Request>, ok: bool)
      requires Valid() && Held() == [] && Room([], w, ring.Length, chunks)
      requires AllSendable(sent) && Joined(chunks) <= Stream(sent)
      modifies this, ring
      ensures Valid() && Upto(sent, Joined(chunks), Drained(rs, Held(), ok))
      ensures Joined(chunks) == Stream(sent) ==> rs == sent && Held() == []
    {
      hide Drain, Pieces, Room, Serve, Upto, Encode, Stream;
      if sent != [] {
        EncodeLong(sent[0]);
      }
      assert [] + Joined(chunks) == Joined(chunks);
      ServeStream(sent, [], chunks);
      rs, ok := RecvAll(chunks);
      if Joined(chunks) == Stream(sent) {
        WholeStream(sent, Drained(rs, Held(), ok));
      }
    }
  }

  /** The network only ever writes where there is room, without wrapping. */
  predicate Room(held: seq<Byte>, w: nat, size: nat, chunks: seq<seq<Byte>>)
    decreases |chunks|
  {
    chunks == [] ||
    (&& w < size && 0 < |chunks[0]| <= size - w && |held| + |chunks[0]| <= size
     && Room(Drain(held + chunks[0]).rest, Wrap(w + |chunks[0]|, size), size, chunks[1..]))
  }

  lemma RoomNext(held: seq<Byte>, w: nat, size: nat, chunks: seq<seq<Byte>>)
    requires Room(held, w, size, chunks) && chunks != []
    ensures w < size && 0 < |chunks[0]| <= size - w && |held| + |chunks[0]| <= size
    ensures Room(Drain(held + chunks[0]).rest, Wrap(w + |chunks[0]|, size), size, chunks[1..])
  {
    hide Drain;
  }

  lemma ServeNext(held: seq<Byte>, chunks: seq<seq<Byte>>)
    requires chunks != []
    ensures var d := Drain(held + chunks[0]);
      Serve(held, chunks) ==
        if d.ok then var e := Serve(d.rest, chunks[1..]); Drained(d.rs + e.rs, e.rest, e.ok) else d
  {
    hide Drain;
  }

  lemma ServeNone(held: seq<Byte>, chunks: seq<seq<Byte>>)
    requires chunks == []
    ensures Serve(held, chunks) == Drained([], held, true)
  {
  }

  lemma Regroup(a: seq<Request>, r: Request, b: seq<Request>)
    ensures (a + [r]) + b == a + ([r] + b)
  {
  }

  lemma FirstPiece(m: seq<Byte>, b1: nat, b2: nat, b: nat, n: nat)
    requires b1 <= |m| && b2 <= |m| && b + n <= |m|
    ensures Pieces(m, b, n, b2, 0) == Pieces(m, b1, 0, b2, 0) + m[b..b + n]
  {
  }
}
