/** One direction of a session as two channels and the kernel between them: whatever the operating
    system does, the in-place callbacks of the two ends make the stream of Stream.dfy. */
module Link {
  import opened Base
  import opened Proto
  import opened Stream
  import opened Framing
  import opened MsgChan

  /** A read callback on what a conserved stream has brought so far. */
  lemma OutcomeIsStep(
      s: Stream, k: nat, r: Parse<Message>, failed: bool, recvd: seq<Byte>, replies: seq<Reply>, used: nat, dry: bool)
    requires Conserved(s) && k <= |s.pipe| && Outcome(s.recvd + s.pipe[..k], r, failed, recvd, replies, used, dry)
    ensures failed ==> Stopped(replies, used, -1, dry)
    ensures r.Got? ==> !failed && |s.delivered| < |s.enqueued| && r.value == s.enqueued[|s.delivered|]
    ensures !failed ==>
      && Enabled(s, ReadReady(k)) && Conserved(Apply(s, ReadReady(k)))
      && Apply(s, ReadReady(k)) == s.(recvd := recvd, pipe := s.pipe[k..],
                                      delivered := s.delivered + if r.Got? then [r.value] else [])
  {
    hide GetBody, Stopped, Complete, Within, Apply, Transmissible;
    ReadDelivers(s, k);
  }

  class Connection {
    const a: Channel
    const b: Channel
    const pipe: Pipe
    ghost var enqueued: seq<Message>
    ghost var delivered: seq<Message>

    ghost predicate Separate()
      reads this, a, b
    {
      && a.Repr !! b.Repr && this !in a.Repr && this !in b.Repr
      && pipe !in a.Repr && pipe !in b.Repr
    }

    ghost function View(): Stream
      reads this, a, b, pipe
    {
      Stream(a.queued, a.unsent, pipe.bytes, b.recvd, enqueued, delivered)
    }

    /** Both ends are open, and nothing is lost, duplicated or reordered between them. */
    ghost predicate Valid()
      reads this, a, b, pipe, a.Repr, b.Repr
    {
      Separate() && a.Valid() && b.Valid() && a.open && b.open && Conserved(View())
    }

    constructor ()
      ensures Valid() && View() == FRESH
    {
      hide Conserved, Channel.Valid;
      var sender := new Channel();
      sender.Init();
      var receiver := new Channel();
      receiver.Init();
      a, b := sender, receiver;
      pipe := new Pipe();
      enqueued, delivered := [], [];
      FreshIsRestart();
      RestartConserves(FRESH);
    }

    method Send(m: Message) returns (ok: bool)
      requires Valid() && Transmissible(m)
      modifies this, a.Repr
      ensures Valid() && View() == Apply(old(View()), Enqueue(m))
      ensures ok <==> |View().queue| <= MAX_SEND_BACKLOG
    {
      hide Conserved, Channel.Valid, Transmissible;
      EnqueueConserves(View(), m);
      ok := a.Enqueue(m);
      enqueued := enqueued + [m];
    }

    /** The sender's descriptor is writable.  Unless a write call fails, this is a write step. */
    method Write(replies: seq<Reply>, estimate: nat) returns (failed: bool, ghost k: nat, ghost used: nat)
      requires Valid()
      requires Bounds(a.queued, a.unsent, estimate)
      modifies a.Repr, pipe
      ensures !failed ==>
        Valid() && Enabled(old(View()), WriteReady(k)) && View() == Apply(old(View()), WriteReady(k))
      ensures failed ==> Stopped(replies, used, -1, false)
    {
      hide Conserved, Channel.Valid, Transmissible, Loaded, Stopped;
      ghost var s := View();
      failed, k, used := a.WriteCb(pipe, replies, estimate);
      WriteConserves(s, k);
    }

    /** The receiver's descriptor is readable.  Unless a read call fails or the stream has ended, this
        is a read step, and a message delivered is the next one that was sent: no frame is ever
        found malformed. */
    method Read(replies: seq<Reply>) returns (r: Parse<Message>, failed: bool, ghost k: nat, ghost used: nat)
      requires Valid()
      modifies this, b.Repr, pipe
      ensures !failed ==>
        Valid() && Enabled(old(View()), ReadReady(k)) && View() == Apply(old(View()), ReadReady(k))
      ensures failed ==> Stopped(replies, used, -1, pipe.bytes == [])
      ensures delivered == old(delivered) + if r.Got? then [r.value] else []
      ensures r.Got? ==> |old(delivered)| < |enqueued| && r.value == enqueued[|old(delivered)|]
    {
      hide Conserved, Channel.Valid, Enabled, Stopped, Outcome, Apply;
      ghost var s := View();
      r, failed, k, used := b.ReadCb(pipe, replies);
      OutcomeIsStep(s, k, r, failed, b.recvd, replies, used, pipe.bytes == []);
      delivered := delivered + if r.Got? then [r.value] else [];
    }
  }
}
