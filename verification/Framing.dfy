/** The partial send and receive buffers of message.c, filled and drained in place across
    readiness callbacks. */
module Framing {
  import opened Proto
  import opened Stream

  /** The kernel's byte stream behind a pair of file descriptors. */
  class Pipe {
    var bytes: seq<Byte>

    constructor ()
      ensures bytes == []
    {
      bytes := [];
    }
  }

  /** How the operating system answers one read or write: it moves some bytes, would block, has
      reached the end of the stream, or fails. */
  datatype Reply = Moved(n: nat) | WouldBlock | Ended | Broken

  predicate Fatal(r: Reply) {
    r.Ended? || r.Broken?
  }

  /** Why a loop of reads or writes came to its end after `used` calls that each moved something: it
      had what it wanted (1), the next call failed (-1), or there was no next call, it would have
      blocked, or, reading, it found nothing (0). */
  predicate Stopped(replies: seq<Reply>, used: nat, status: int, dry: bool) {
    && used <= |replies| && (forall i :: 0 <= i < used ==> replies[i].Moved?)
    && (status == -1 ==> used < |replies| && Fatal(replies[used]))
    && (status == 0 ==> used == |replies| || replies[used].WouldBlock? || (replies[used].Moved? && dry))
    && status in {-1, 0, 1}
  }

  const HEADER: nat := 4

  /** Bytes moved by a call that is answered `Moved(n)` when `most` could be: at least one. */
  function Clamp(n: nat, most: nat): (k: nat)
    requires most > 0
    ensures 1 <= k <= most
    ensures 1 <= n <= most ==> k == n
  {
    if n == 0 then 1 else if n > most then most else n
  }

  lemma StoppedLater(replies: seq<Reply>, first: nat, used: nat, status: int, dry: bool)
    requires first <= |replies| && forall i :: 0 <= i < first ==> replies[i].Moved?
    requires Stopped(replies[first..], used, status, dry)
    ensures Stopped(replies, first + used, status, dry)
  {
    forall i | first <= i < first + used
      ensures replies[i].Moved?
    {
      assert replies[first..][i - first].Moved?;
    }
  }

  method Store(a: array<Byte>, at: nat, data: seq<Byte>)
    requires at + |data| <= a.Length
    modifies a
    ensures a[..] == old(a[..at]) + data + old(a[at + |data|..])
  {
    forall i | 0 <= i < |data| {
      a[at + i] := data[i];
    }
  }

  /** A buffer of `size` bytes holding a length descriptor and a body. */
  method Layout(descriptor: Word, body: seq<Byte>, size: nat) returns (a: array<Byte>)
    requires HEADER + |body| <= size
    ensures fresh(a) && a.Length == size
    ensures a[..HEADER + |body|] == PutWord(descriptor, []) + body
  {
    hide PutWord;
    a := new Byte[size](_ => 0);
    var header := PutWord(descriptor, []);
    Store(a, 0, header);
    assert a[..HEADER] == header;
    label stored:
    Store(a, HEADER, body);
    assert old@stored(a[..HEADER]) == header;
  }

  lemma SliceJoin<T>(s: seq<T>, a: nat, b: nat, c: nat)
    requires a <= b <= c <= |s|
    ensures s[a..b] + s[b..c] == s[a..c]
  {
  }

  lemma DropTake<T>(s: seq<T>, k: nat, n: nat)
    requires k + n <= |s|
    ensures s[k..][..n] == s[k..k + n] && s[k..][n..] == s[k + n..]
  {
  }

  lemma HeaderOnly(b: seq<Byte>)
    requires |b| < HEADER
    ensures Within(b) && !Complete(b)
  {
  }

  lemma Rejoin<T>(had: seq<T>, s: seq<T>, k: nat, n: nat)
    requires k <= |s| && n <= |s[k..]|
    ensures had + s[..k] + s[k..][..n] == had + s[..k + n] && s[k..][n..] == s[k + n..]
  {
    DropTake(s, k, n);
    SliceJoin(s, 0, k, k + n);
    assert had + s[..k] + s[k..k + n] == had + (s[..k] + s[k..k + n]);
  }

  class PartSend {
    var buf: array?<Byte>
    var len: nat
    var bytesSent: nat

    ghost predicate Valid()
      reads this
    {
      if buf == null then len == 0 && bytesSent == 0
      else len == buf.Length && bytesSent < len
    }

    ghost function Unsent(): seq<Byte>
      requires Valid()
      reads this, buf
    {
      if buf == null then [] else buf[bytesSent..]
    }

    constructor ()
      ensures Valid() && buf == null
    {
      buf, len, bytesSent := null, 0, 0;
    }

    method Clear()
      modifies this
      ensures Valid() && buf == null
    {
      buf, len, bytesSent := null, 0, 0;
    }

    /** `estimate` is the upper bound that the record stream reports for the body.  Whether or not
        it is exact, the buffer ends up holding the true length and the body, and nothing else. */
    method Unparse(m: Message, estimate: nat)
      requires Transmissible(m) && |Encode(m)| <= estimate < LIMIT32
      modifies this
      ensures Valid() && buf != null && fresh(buf)
      ensures Unsent() == Framed(m)
    {
      hide PutWord, GetWord, PutBody, GetBody, Sendable;
      FramedShape(m);
      var body := Encode(m);
      bytesSent := 0;
      len := estimate + HEADER;
      buf := Layout(estimate, body, len);
      if |body| != estimate {
        len := |body| + HEADER;
        var shrunk := new Byte[len](_ => 0);
        Store(shrunk, 0, buf[..len]);
        Store(shrunk, 0, PutWord(|body|, []));
        buf := shrunk;
      }
      WordAppends(|body|, body);
    }

    /** One successful write. */
    method WriteSome(fd: Pipe, n: nat)
      requires buf != null && bytesSent + n <= buf.Length
      modifies this`bytesSent, fd
      ensures bytesSent == old(bytesSent) + n
      ensures fd.bytes == old(fd.bytes) + buf[..][old(bytesSent)..bytesSent]
    {
      fd.bytes := fd.bytes + buf[..][bytesSent..bytesSent + n];
      bytesSent := bytesSent + n;
    }

    /** The write loop: one write call per reply, until a call moves nothing. */
    method WriteAll(fd: Pipe, replies: seq<Reply>) returns (status: int, used: nat)
      requires buf != null && bytesSent <= len == buf.Length
      modifies this`bytesSent, fd
      ensures old(bytesSent) <= bytesSent <= len
      ensures fd.bytes == old(fd.bytes) + buf[..][old(bytesSent)..bytesSent]
      ensures Stopped(replies, used, status, false) && (status == 1 <==> bytesSent == len)
      ensures used <= bytesSent - old(bytesSent)
    {
      used := 0;
      ghost var data, from := buf[..], bytesSent;
      while bytesSent < len
        invariant from + used <= bytesSent <= len && used <= |replies|
        invariant forall i :: 0 <= i < used ==> replies[i].Moved?
        invariant fd.bytes == old(fd.bytes) + data[from..bytesSent]
        decreases |replies| - used
      {
        if used == |replies| || replies[used].WouldBlock? {
          return 0, used;
        }
        if !replies[used].Moved? {
          return -1, used;
        }
        var n := Clamp(replies[used].n, len - bytesSent);
        SliceJoin(data, from, bytesSent, bytesSent + n);
        WriteSome(fd, n);
        used := used + 1;
      }
      status := 1;
    }

    /** Writes until the buffer is empty (1), the descriptor would block (0) or fails (-1).  The
        bytes that left the buffer are exactly the bytes that entered the kernel, and every call
        that moved anything moved at least one. */
    method Drain(fd: Pipe, replies: seq<Reply>) returns (status: int, ghost k: nat, ghost used: nat)
      requires Valid()
      modifies this, fd
      ensures Valid()
      ensures k <= |old(Unsent())|
      ensures fd.bytes == old(fd.bytes) + old(Unsent())[..k]
      ensures Unsent() == old(Unsent())[k..]
      ensures status == 1 <==> buf == null
      ensures buf == null || buf == old(buf)
      ensures Stopped(replies, used, status, false) && used <= k && status in {-1, 0, 1}
    {
      if buf == null {
        return 1, 0, 0;
      }
      ghost var data, from := buf[..], bytesSent;
      assert Unsent() == data[from..];
      status, used := WriteAll(fd, replies);
      k := bytesSent - from;
      DropTake(data, from, k);
      if status == 1 {
        buf, len, bytesSent := null, 0, 0;
      } else {
        assert Unsent() == data[bytesSent..];
      }
    }
  }

  class PartRecv {
    const hdrbuf: array<Byte>
    var plbuf: array?<Byte>
    var bytesRecvd: nat

    ghost predicate Valid()
      reads this, hdrbuf
    {
      && hdrbuf.Length == HEADER
      && if plbuf == null then bytesRecvd < HEADER
         else
           && plbuf != hdrbuf
           && HEADER <= bytesRecvd <= HEADER + plbuf.Length
           && plbuf.Length == GetWord(hdrbuf[..]).value
    }

    ghost function Received(): seq<Byte>
      requires Valid()
      reads this, hdrbuf, plbuf
    {
      if plbuf == null then hdrbuf[..bytesRecvd] else hdrbuf[..] + plbuf[..bytesRecvd - HEADER]
    }

    constructor ()
      ensures Valid() && Received() == [] && plbuf == null && fresh(hdrbuf)
    {
      hdrbuf := new Byte[HEADER](_ => 0);
      plbuf := null;
      bytesRecvd := 0;
    }

    /** One successful read into a buffer at offset `at`. */
    static method ReadSome(fd: Pipe, a: array<Byte>, at: nat, n: nat)
      requires n <= |fd.bytes| && at + n <= a.Length
      modifies fd, a
      ensures fd.bytes == old(fd.bytes)[n..]
      ensures a[..at + n] == old(a[..at]) + old(fd.bytes)[..n]
    {
      Store(a, at, fd.bytes[..n]);
      fd.bytes := fd.bytes[n..];
    }

    /** The read loop, run once for the header and once for the payload: fills `a` from offset
        `start` to its end, one read call per reply, until a call yields nothing. */
    static method FillFrom(fd: Pipe, a: array<Byte>, start: nat, replies: seq<Reply>)
      returns (status: int, at: nat, used: nat, ghost k: nat)
      requires start <= a.Length
      modifies fd, a
      ensures start <= at <= a.Length
      ensures k <= |old(fd.bytes)| && fd.bytes == old(fd.bytes)[k..]
      ensures a[..at] == old(a[..start]) + old(fd.bytes)[..k]
      ensures Stopped(replies, used, status, fd.bytes == []) && (status == 1 <==> at == a.Length)
      ensures used <= k
    {
      at, used, k := start, 0, 0;
      ghost var had, input := a[..start], fd.bytes;
      while at < a.Length
        invariant start <= at <= a.Length && used <= |replies|
        invariant forall i :: 0 <= i < used ==> replies[i].Moved?
        invariant used <= k <= |input| && fd.bytes == input[k..]
        invariant a[..at] == had + input[..k]
        decreases |replies| - used
      {
        if used == |replies| || replies[used].WouldBlock? || (replies[used].Moved? && fd.bytes == []) {
          return 0, at, used, k;
        }
        if !replies[used].Moved? {
          return -1, at, used, k;
        }
        var want := a.Length - at;
        var n := Clamp(replies[used].n, if |fd.bytes| < want then |fd.bytes| else want);
        DropTake(input, k, n);
        ReadSome(fd, a, at, n);
        SliceJoin(input, 0, k, k + n);
        at, used, k := at + n, used + 1, k + n;
      }
      status := 1;
    }

    method Clear()
      requires hdrbuf.Length == HEADER
      modifies this
      ensures Valid() && Received() == [] && plbuf == null
    {
      plbuf := null;
      bytesRecvd := 0;
    }

    /** Completes the header if it can, and then allocates the payload buffer it asks for. */
    method FillHeader(fd: Pipe, replies: seq<Reply>) returns (status: int, used: nat, ghost k: nat)
      requires Valid() && plbuf == null
      modifies this, hdrbuf, fd
      ensures Valid() && (plbuf == null || fresh(plbuf))
      ensures k <= |old(fd.bytes)| && fd.bytes == old(fd.bytes)[k..]
      ensures Received() == old(Received()) + old(fd.bytes)[..k]
      ensures Stopped(replies, used, status, fd.bytes == []) && (status == 1 <==> plbuf != null)
      ensures used <= k
    {
      hide GetWord;
      status, bytesRecvd, used, k := FillFrom(fd, hdrbuf, bytesRecvd, replies);
      if status == 1 {
        assert hdrbuf[..HEADER] == hdrbuf[..];
        plbuf := new Byte[GetWord(hdrbuf[..]).value](_ => 0);
      }
    }

    /** Reads on into the payload, no further than the end of this frame. */
    method FillPayload(fd: Pipe, replies: seq<Reply>) returns (status: int, ghost k: nat, ghost used: nat)
      requires Valid() && plbuf != null
      modifies this`bytesRecvd, plbuf, fd
      ensures Valid() && plbuf == old(plbuf)
      ensures k <= |old(fd.bytes)| && fd.bytes == old(fd.bytes)[k..]
      ensures Received() == old(Received()) + old(fd.bytes)[..k]
      ensures Stopped(replies, used, status, fd.bytes == [])
      ensures status == 1 <==> bytesRecvd == HEADER + plbuf.Length
      ensures used <= k
    {
      hide GetWord;
      var at;
      status, at, used, k := FillFrom(fd, plbuf, bytesRecvd - HEADER, replies);
      bytesRecvd := HEADER + at;
    }

    /** Reads until the buffer holds exactly one frame (1), the descriptor would block (0), or the
        stream ends or fails (-1).  No byte is skipped and none beyond the frame is taken. */
    method Fill(fd: Pipe, replies: seq<Reply>) returns (status: int, ghost k: nat, ghost used: nat)
      requires Valid()
      modifies this, hdrbuf, plbuf, fd
      ensures Valid() && (plbuf == null || plbuf == old(plbuf) || fresh(plbuf))
      ensures k <= |old(fd.bytes)| && fd.bytes == old(fd.bytes)[k..]
      ensures Received() == old(Received()) + old(fd.bytes)[..k]
      ensures Within(Received())
      ensures Stopped(replies, used, status, fd.bytes == []) && (status == 1 <==> Complete(Received()))
      ensures used <= k
    {
      hide GetWord, FrameSize, Within, Complete;
      ghost var input, had := fd.bytes, Received();
      var first := 0;
      k, used := 0, 0;
      if plbuf == null {
        status, first, k := FillHeader(fd, replies);
        if status != 1 {
          HeaderOnly(Received());
          used := first;
          return;
        }
      }
      assert Received() == had + input[..k] && fd.bytes == input[k..];
      ghost var k0 := k;
      status, k, used := FillPayload(fd, replies[first..]);
      Rejoin(had, input, k0, k);
      StoppedLater(replies, first, used, status, fd.bytes == []);
      k, used := k0 + k, first + used;
      HeaderRules();
    }

    /** The header alone decides where the frame ends. */
    lemma HeaderRules()
      requires Valid() && plbuf != null
      ensures |Received()| == bytesRecvd && FrameSize(Received()) == HEADER + plbuf.Length
      ensures Within(Received()) && (Complete(Received()) <==> bytesRecvd == HEADER + plbuf.Length)
    {
      SizeOfPrefix(hdrbuf[..], plbuf[..bytesRecvd - HEADER]);
    }

    /** Decodes a complete frame and empties the buffer; a body that does not decode leaves the
        buffer as it was. */
    method ParseFrame() returns (r: Parse<Message>)
      requires Valid() && Complete(Received())
      modifies this
      ensures Valid() && r == GetBody(old(Received())[HEADER..])
      ensures r.Got? ==> Received() == [] && plbuf == null
      ensures r.Bad? ==> Received() == old(Received()) && plbuf == old(plbuf)
    {
      HeaderRules();
      assert Received()[HEADER..] == plbuf[..bytesRecvd - HEADER];
      r := GetBody(plbuf[..bytesRecvd - HEADER]);
      if r.Got? {
        plbuf := null;
        bytesRecvd := 0;
      }
    }
  }
}
