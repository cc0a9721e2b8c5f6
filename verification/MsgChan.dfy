/** The message channels of msgchan.c: a linked send queue in front of the partial buffers, driven
    by readiness callbacks. */
module MsgChan {
  import opened Base
  import opened Proto
  import opened Stream
  import opened Framing

  class Entry {
    const msg: Message
    var next: Entry?
    ghost const place: nat

    constructor (msg: Message, ghost place: nat)
      ensures this.msg == msg && next == null && this.place == place
    {
      this.msg := msg;
      this.place := place;
      next := null;
    }
  }

  /** A singly linked queue with a tail pointer and a count.  `entries` is the chain from head to
      tail, with consecutive places, and `contents` the messages along it. */
  class SendQueue {
    var head: Entry?
    var tail: Entry?
    var numQueued: int
    ghost var entries: seq<Entry>
    ghost var first: nat
    ghost var contents: seq<Message>

    ghost predicate Valid()
      reads this, entries
      ensures Valid() ==> (head == null <==> contents == []) && numQueued == |contents|
    {
      && numQueued == |entries| == |contents|
      && head == (if entries == [] then null else entries[0])
      && tail == (if entries == [] then null else entries[|entries| - 1])
      && (forall i :: 0 <= i < |entries| ==> entries[i].msg == contents[i] && entries[i].place == first + i)
      && (forall i :: 0 <= i < |entries| ==> entries[i].next == After(entries, i, null))
    }

    constructor ()
      ensures Valid() && contents == [] && entries == []
    {
      head, tail, numQueued := null, null, 0;
      entries, contents, first := [], [], 0;
    }

    method Append(m: Message)
      requires Valid()
      modifies this, tail
      ensures Valid() && contents == old(contents) + [m]
      ensures forall e :: e in entries ==> e in old(entries) || fresh(e)
    {
      var e := new Entry(m, first + |entries|);
      if tail != null {
        tail.next := e;
      }
      tail := e;
      if head == null {
        head := e;
      }
      numQueued := numQueued + 1;
      entries, contents := entries + [e], contents + [m];
    }

    /** The oldest message, or nothing if there is none. */
    method Dequeue() returns (e: Entry?)
      requires Valid()
      modifies this
      ensures Valid()
      ensures e == null <==> old(contents) == []
      ensures e == null ==> unchanged(this)
      ensures e != null ==>
        e.msg == old(contents)[0] && contents == old(contents)[1..] && entries == old(entries)[1..]
    {
      e := head;
      if e != null {
        assert entries[0].next == After(entries, 0, null);
        head := e.next;
        if e.next == null {
          tail := null;
        }
        numQueued := numQueued - 1;
        entries, contents, first := entries[1..], contents[1..], first + 1;
      }
    }
  }

  lemma OneMore(ms: seq<Message>, m: Message)
    requires AllTransmissible(ms) && Transmissible(m)
    ensures AllTransmissible(ms + [m])
  {
  }

  lemma NothingLoaded()
    ensures Loaded([], []) == ([], [])
  {
  }

  /** The size that the record stream reports for the next message is an upper bound. */
  predicate Bounds(queue: seq<Message>, unsent: seq<Byte>, estimate: nat) {
    unsent == [] && queue != [] && Sendable(queue[0]) ==> |Encode(queue[0])| <= estimate < LIMIT32
  }

  /** `queued`, `unsent` and `recvd` are what the queue and the two partial buffers hold, and `Repr`
      the objects that make up the channel. */
  class Channel {
    const queue: SendQueue
    const ps: PartSend
    const pr: PartRecv
    var open: bool
    var readMon: bool
    var writeMon: bool
    ghost var queued: seq<Message>
    ghost var unsent: seq<Byte>
    ghost var recvd: seq<Byte>
    ghost var Repr: set<object>

    ghost function Footprint(): set<object>
      reads this, queue, ps, pr
    {
      {this, queue, ps, pr, pr.hdrbuf} + (set e | e in queue.entries) +
      (if ps.buf == null then {} else {ps.buf}) + (if pr.plbuf == null then {} else {pr.plbuf})
    }

    ghost predicate PartsValid()
      reads this, queue, queue.entries, ps, ps.buf, pr, pr.hdrbuf, pr.plbuf
    {
      && queue.Valid() && ps.Valid() && pr.Valid()
      && AllTransmissible(queue.contents)
      && (ps.buf != null ==> ps.buf != pr.hdrbuf && ps.buf != pr.plbuf)
    }

    /** Well formed, and no lost wakeup: an open channel watches for writability exactly while it
        has a queued or partly sent message, and always watches for input; a closed one watches
        nothing and holds nothing. */
    ghost predicate Sound()
      reads this, queue, queue.entries, ps, ps.buf, pr, pr.hdrbuf, pr.plbuf
    {
      && PartsValid()
      && (open ==> readMon && (writeMon <==> ps.buf != null || queue.contents != []))
      && (!open ==> !readMon && !writeMon && Empty())
      && !Complete(pr.Received()) && Within(pr.Received())
    }

    ghost predicate Empty()
      reads this, queue, ps, pr
    {
      queue.contents == [] && ps.buf == null && pr.plbuf == null && pr.bytesRecvd == 0
    }

    ghost predicate Valid()
      reads this, Repr
      ensures Valid() ==> this in Repr
      ensures Valid() && open ==> (writeMon <==> unsent != [] || queued != []) && readMon
      ensures Valid() && !open ==> queued == [] && unsent == [] && recvd == []
      ensures Valid() ==> AllTransmissible(queued) && !Complete(recvd) && Within(recvd)
    {
      && this in Repr && queue in Repr && ps in Repr && pr in Repr && Repr == Footprint() && Sound()
      && queued == queue.contents && unsent == ps.Unsent() && recvd == pr.Received()
    }

    constructor ()
      ensures Valid() && !open && fresh(Repr)
    {
      var q := new SendQueue();
      var s := new PartSend();
      var r := new PartRecv();
      queue, ps, pr := q, s, r;
      open, readMon, writeMon := false, false, false;
      queued, unsent, recvd := [], [], [];
      Repr := {this, q, s, r, r.hdrbuf};
      new;
      assert Footprint() == Repr;
    }

    twostate lemma Grown()
      requires forall e :: e in queue.entries ==> e in old(queue.entries) || fresh(e)
      requires ps.buf == null || ps.buf == old(ps.buf) || fresh(ps.buf)
      requires pr.plbuf == null || pr.plbuf == old(pr.plbuf) || fresh(pr.plbuf)
      ensures fresh(Footprint() - old(Footprint()))
    {
    }

    ghost method Mirror()
      requires Sound()
      modifies this`queued, this`unsent, this`recvd, this`Repr
      ensures Valid() && Repr == Footprint()
      ensures queued == queue.contents && unsent == ps.Unsent() && recvd == pr.Received()
    {
      hide SendQueue.Valid, PartRecv.Valid, Transmissible, Complete, Within;
      Repr, queued, unsent, recvd := Footprint(), queue.contents, ps.Unsent(), pr.Received();
    }

    /** Drops every queued message and both partial buffers. */
    method Clear()
      requires queue.Valid() && ps.Valid() && pr.Valid()
      modifies queue, ps, pr
      ensures queue.Valid() && ps.Valid() && pr.Valid() && Empty()
      ensures queue.entries == [] && ps.buf == null && pr.plbuf == null
    {
      var e := queue.Dequeue();
      while e != null
        invariant queue.Valid() && ps.Valid() && pr.Valid()
        invariant e == null ==> queue.contents == [] && queue.entries == []
        decreases |queue.contents|, e != null
      {
        e := queue.Dequeue();
      }
      ps.Clear();
      pr.Clear();
    }

    method Reset(up: bool)
      requires queue.Valid() && ps.Valid() && pr.Valid()
      modifies this`open, this`readMon, this`writeMon, queue, ps, pr
      ensures Sound() && open == up && Empty() && Footprint() <= old(Footprint())
      ensures queue.entries == [] && ps.Unsent() == [] && pr.Received() == []
    {
      Clear();
      open, readMon, writeMon := up, up, false;
    }

    /** A new session begins with nothing queued, nothing half sent and on a frame boundary,
        whatever the previous one left behind. */
    method Init()
      requires Valid()
      modifies Repr
      ensures Valid() && open && queued == [] && unsent == [] && recvd == [] && Repr <= old(Repr)
    {
      hide Sound;
      PartsOk();
      Reset(true);
      Mirror();
    }

    method Close()
      requires Valid()
      modifies Repr
      ensures Valid() && !open && Repr <= old(Repr)
    {
      hide Sound;
      PartsOk();
      Reset(false);
      Mirror();
    }

    lemma PartsOk()
      requires Sound()
      ensures queue.Valid() && ps.Valid() && pr.Valid()
      ensures (queue.tail == null || queue.tail in queue.entries) && (ps.Unsent() == [] <==> ps.buf == null)
    {
    }

    method Push(m: Message) returns (ok: bool)
      requires Sound() && open && Transmissible(m)
      modifies this`writeMon, queue, queue.tail
      ensures Sound() && open && fresh(Footprint() - old(Footprint()))
      ensures queue.contents == old(queue.contents) + [m]
      ensures ps.Unsent() == old(ps.Unsent()) && pr.Received() == old(pr.Received())
      ensures ok <==> |queue.contents| <= MAX_SEND_BACKLOG
    {
      hide Transmissible, AllTransmissible, Complete, Within, Footprint;
      hide SendQueue.Valid, PartRecv.Valid, PartSend.Valid;
      OneMore(queue.contents, m);
      queue.Append(m);
      writeMon := true;
      ok := queue.numQueued <= MAX_SEND_BACKLOG;
      Grown();
    }

    /** The message is queued in any case; false reports that the backlog is now too long. */
    method Enqueue(m: Message) returns (ok: bool)
      requires Valid() && open && Transmissible(m)
      modifies Repr
      ensures Valid() && open && fresh(Repr - old(Repr))
      ensures queued == old(queued) + [m] && unsent == old(unsent) && recvd == old(recvd)
      ensures ok <==> |queued| <= MAX_SEND_BACKLOG
    {
      hide Sound, Transmissible;
      PartsOk();
      ok := Push(m);
      Mirror();
    }

    /** If no frame is in progress, makes the oldest queued message the frame to send. */
    method Load(estimate: nat) returns (loaded: bool)
      requires PartsValid()
      requires ps.buf == null && queue.contents != [] ==> |Encode(queue.contents[0])| <= estimate < LIMIT32
      modifies queue, ps
      ensures PartsValid()
      ensures (ps.Unsent(), queue.contents) == Loaded(old(queue.contents), old(ps.Unsent()))
      ensures loaded <==> ps.buf != null
      ensures loaded <==> old(ps.buf) != null || old(queue.contents) != []
      ensures forall e :: e in queue.entries ==> e in old(queue.entries)
      ensures ps.buf == null || ps.buf == old(ps.buf) || fresh(ps.buf)
    {
      hide Transmissible, Framed, SendQueue.Valid, PartRecv.Valid, Footprint;
      loaded := ps.buf != null;
      if !loaded {
        var e := queue.Dequeue();
        if e != null {
          assert Transmissible(old(queue.contents)[0]);
          ps.Unparse(e.msg, estimate);
          loaded := true;
        }
      }
    }

    /** Loads the next message if no frame is in progress, then drains.  Positive when it tried to
        send, zero when there was nothing to send, negative exactly when a write failed. */
    method SendMessage(fd: Pipe, replies: seq<Reply>, estimate: nat)
      returns (status: int, ghost k: nat, ghost used: nat)
      requires PartsValid()
      requires ps.buf == null && queue.contents != [] ==> |Encode(queue.contents[0])| <= estimate < LIMIT32
      modifies queue, ps, fd
      ensures PartsValid()
      ensures var (bytes, rest) := Loaded(old(queue.contents), old(ps.Unsent()));
        && k <= |bytes| && queue.contents == rest && ps.Unsent() == bytes[k..]
        && fd.bytes == old(fd.bytes) + bytes[..k]
      ensures status == 0 <==> old(ps.buf) == null && old(queue.contents) == []
      ensures status in {-1, 0, 1} && used <= k
      ensures status != 0 ==> Stopped(replies, used, if status == 1 && ps.buf != null then 0 else status, false)
      ensures forall e :: e in queue.entries ==> e in old(queue.entries)
      ensures ps.buf == null || ps.buf == old(ps.buf) || fresh(ps.buf)
    {
      hide Transmissible, AllTransmissible, Loaded, SendQueue.Valid, PartRecv.Valid, Footprint, Stopped, Encode;
      var loaded := Load(estimate);
      if !loaded {
        return 0, 0, 0;
      }
      status, k, used := ps.Drain(fd, replies);
      status := if status < 0 then status else 1;
    }

    /** The write callback as it finds the queue and the buffer. */
    method WriteReady(fd: Pipe, replies: seq<Reply>, estimate: nat)
      returns (failed: bool, ghost k: nat, ghost used: nat)
      requires Sound() && open
      requires ps.buf == null && queue.contents != [] ==> |Encode(queue.contents[0])| <= estimate < LIMIT32
      modifies this`open, this`readMon, this`writeMon, queue, ps, pr, fd
      ensures Sound() && open == !failed && fresh(Footprint() - old(Footprint()))
      ensures var (bytes, rest) := Loaded(old(queue.contents), old(ps.Unsent()));
        && k <= |bytes|
        && (open ==> queue.contents == rest && ps.Unsent() == bytes[k..])
        && fd.bytes == old(fd.bytes) + bytes[..k]
      ensures open ==> pr.Received() == old(pr.Received())
      ensures k > 0 || failed ==> old(writeMon)
      ensures failed ==> Stopped(replies, used, -1, false)
      ensures old(writeMon) && !failed ==> Stopped(replies, used, if ps.buf == null then 1 else 0, false)
      ensures used <= k
    {
      hide Transmissible, Loaded, Complete, Within, SendQueue.Valid, PartRecv.Valid, Footprint, Stopped;
      if ps.buf == null && queue.head == null {
        writeMon := false;
        Grown();
        assert Loaded([], []) == ([], []) by { NothingLoaded(); }
        return false, 0, 0;
      }
      var status;
      status, k, used := SendMessage(fd, replies, estimate);
      failed := status < 0;
      if failed {
        Reset(false);
      } else {
        assert status == 1;
      }
      writeMon := ps.buf != null || queue.head != null;
      Grown();
    }

    /** The write callback.  It sends as the stream specification says, it finds nothing to send only
        if it was not being watched for, and it leaves the watch on exactly if something remains.  On
        an error, and only then, the owner's error callback closes the channel; and it writes on until
        the frame is out or a write call moves nothing. */
    method WriteCb(fd: Pipe, replies: seq<Reply>, estimate: nat)
      returns (failed: bool, ghost k: nat, ghost used: nat)
      requires Valid() && open && fd !in Repr
      requires Bounds(queued, unsent, estimate)
      modifies Repr, fd
      ensures Valid() && open == !failed && fresh(Repr - old(Repr))
      ensures var (bytes, rest) := Loaded(old(queued), old(unsent));
        && k <= |bytes|
        && (open ==> queued == rest && unsent == bytes[k..])
        && fd.bytes == old(fd.bytes) + bytes[..k]
      ensures open ==> recvd == old(recvd)
      ensures k > 0 || failed ==> old(writeMon)
      ensures failed ==> Stopped(replies, used, -1, false)
      ensures old(writeMon) && !failed ==> Stopped(replies, used, if unsent == [] then 1 else 0, false)
      ensures used <= k
    {
      hide Sound, Loaded, Stopped;
      PartsOk();
      failed, k, used := WriteReady(fd, replies, estimate);
      PartsOk();
      Mirror();
    }

    /** The read callback as it finds the buffer. */
    method ReadReady(fd: Pipe, replies: seq<Reply>)
      returns (r: Parse<Message>, failed: bool, ghost k: nat, ghost used: nat)
      requires Sound() && open
      modifies this`open, this`readMon, this`writeMon, queue, ps, pr, pr.hdrbuf, pr.plbuf, fd
      ensures Sound() && open == !failed && fresh(Footprint() - old(Footprint()))
      ensures k <= |old(fd.bytes)| && fd.bytes == old(fd.bytes)[k..]
      ensures Outcome(old(pr.Received()) + old(fd.bytes)[..k], r, failed, pr.Received(), replies, used, fd.bytes == [])
      ensures used <= k
      ensures open ==> queue.contents == old(queue.contents) && ps.Unsent() == old(ps.Unsent())
    {
      hide Transmissible, GetBody, FrameSize;
      var status;
      r, failed := Bad, false;
      status, k, used := pr.Fill(fd, replies);
      if status == 1 {
        r := pr.ParseFrame();
        failed := r.Bad?;
      } else {
        failed := status < 0;
      }
      if failed {
        Reset(false);
      }
    }

    /** The read callback: at most one message, and none but what the bytes of one frame say.  A
        frame that does not decode, the end of the stream and a read error all close the channel, and
        nothing else does; and it reads on until the frame is complete or a read call yields nothing. */
    method ReadCb(fd: Pipe, replies: seq<Reply>)
      returns (r: Parse<Message>, failed: bool, ghost k: nat, ghost used: nat)
      requires Valid() && open && fd !in Repr
      modifies Repr, fd
      ensures Valid() && open == !failed && fresh(Repr - old(Repr))
      ensures k <= |old(fd.bytes)| && fd.bytes == old(fd.bytes)[k..]
      ensures Outcome(old(recvd) + old(fd.bytes)[..k], r, failed, recvd, replies, used, fd.bytes == [])
      ensures used <= k
      ensures open ==> queued == old(queued) && unsent == old(unsent)
    {
      hide Sound, Outcome;
      PartsOk();
      r, failed, k, used := ReadReady(fd, replies);
      Mirror();
    }
  }

  /** What a read callback makes of the bytes `b` of the frame in progress: a message if they are a
      frame that decodes, an error if they are one that does not or if a read call failed, and
      otherwise they are kept. */
  predicate Outcome(
      b: seq<Byte>, r: Parse<Message>, failed: bool, recvd: seq<Byte>, replies: seq<Reply>, used: nat, dry: bool)
  {
    && Within(b)
    && if Complete(b) then
         r == GetBody(b[HEADER..]) && failed == r.Bad? && (!failed ==> recvd == [])
       else
         && r.Bad? && Stopped(replies, used, if failed then -1 else 0, dry)
         && (!failed ==> recvd == b)
  }
}
