/** What one direction of a session does to messages, seen as a whole: sender's queue, partly sent
    frame, bytes inside the kernel, partly received frame.  The operating system may move any
    number of bytes at each readiness callback. */
module Stream {
  import opened Proto

  /** The length descriptor is one word. */
  predicate Transmissible(m: Message) {
    Sendable(m) && |Encode(m)| < LIMIT32
  }

  predicate AllTransmissible(ms: seq<Message>) {
    forall i :: 0 <= i < |ms| ==> Transmissible(ms[i])
  }

  /** Messages without text are short. */
  lemma ShortFits(msg: Message)
    requires !msg.Setup? && !msg.SetClipboard? && !msg.LogMsg?
    ensures Transmissible(msg)
  {
  }

  /** A message on the wire: its body's length, then its body. */
  function Framed(m: Message): seq<Byte>
    requires Transmissible(m)
  {
    PutWord(|Encode(m)|, Encode(m))
  }

  function Frames(ms: seq<Message>): seq<Byte>
    requires AllTransmissible(ms)
  {
    if ms == [] then [] else Framed(ms[0]) + Frames(ms[1..])
  }

  /** Length of the frame that `b` begins, as its header declares it. */
  function FrameSize(b: seq<Byte>): nat
    requires |b| >= 4
  {
    4 + GetWord(b).value
  }

  predicate Complete(b: seq<Byte>) {
    |b| >= 4 && |b| == FrameSize(b)
  }

  /** The receiver never reads past the end of the frame in progress. */
  predicate Within(b: seq<Byte>) {
    |b| >= 4 ==> |b| <= FrameSize(b)
  }

  /** `enqueued` and `delivered` are histories of the session. */
  datatype Stream = Stream(
    queue: seq<Message>, unsent: seq<Byte>, pipe: seq<Byte>, recvd: seq<Byte>,
    enqueued: seq<Message>, delivered: seq<Message>)

  const FRESH := Stream([], [], [], [], [], [])

  /** The bytes a write callback has to drain, and the queue behind them. */
  function Loaded(queue: seq<Message>, unsent: seq<Byte>): (seq<Byte>, seq<Message>)
    requires AllTransmissible(queue)
  {
    if unsent == [] && queue != [] then (Framed(queue[0]), queue[1..]) else (unsent, queue)
  }

  datatype Step =
    | Enqueue(m: Message)
    | WriteReady(sent: nat)
    | ReadReady(got: nat)
    | Restart

  predicate Enabled(s: Stream, e: Step) {
    && AllTransmissible(s.queue)
    && match e
       case Enqueue(m) => Transmissible(m)
       case WriteReady(k) => k <= |Loaded(s.queue, s.unsent).0|
       case ReadReady(k) => k <= |s.pipe| && Within(s.recvd + s.pipe[..k])
       case Restart => true
  }

  function Apply(s: Stream, e: Step): Stream
    requires Enabled(s, e)
  {
    match e
    case Enqueue(m) => s.(queue := s.queue + [m], enqueued := s.enqueued + [m])
    case WriteReady(k) =>
      var (bytes, rest) := Loaded(s.queue, s.unsent);
      s.(queue := rest, unsent := bytes[k..], pipe := s.pipe + bytes[..k])
    case ReadReady(k) =>
      var b := s.recvd + s.pipe[..k];
      if Complete(b) && GetBody(b[4..]).Got? then
        s.(recvd := [], pipe := s.pipe[k..], delivered := s.delivered + [GetBody(b[4..]).value])
      else s.(recvd := b, pipe := s.pipe[k..])
    case Restart => FRESH
  }

  /** The messages whose bytes have left the queue and have not been delivered. */
  function InFlight(s: Stream): seq<Message>
    requires |s.delivered| + |s.queue| <= |s.enqueued|
  {
    s.enqueued[|s.delivered|..|s.enqueued| - |s.queue|]
  }

  /** Nothing is lost, duplicated, reordered or altered: the messages enqueued are those delivered,
      then those whose frames are exactly the bytes under way, then those still queued; and what
      has been received so far is an unfinished frame. */
  predicate Conserved(s: Stream) {
    && |s.delivered| + |s.queue| <= |s.enqueued|
    && AllTransmissible(s.enqueued)
    && AllTransmissible(s.queue)
    && AllTransmissible(InFlight(s))
    && s.enqueued == s.delivered + InFlight(s) + s.queue
    && Frames(InFlight(s)) == s.recvd + s.pipe + s.unsent
    && !Complete(s.recvd) && Within(s.recvd)
  }

  // ---------------------------------------------------------------- frames

  lemma FramedShape(m: Message)
    requires Transmissible(m)
    ensures |Framed(m)| == FrameSize(Framed(m)) == 4 + |Encode(m)|
    ensures |Encode(m)| >= 4
    ensures GetBody(Framed(m)[4..]) == Got(m, [])
  {
    hide PutBody, GetBody, Sendable, GetWord, PutWord;
    WordRoundTrip(|Encode(m)|, Encode(m));
    BodyRoundTrip(m, []);
    BodyAppends(m, []);
  }

  lemma {:induction false} FramesSnoc(ms: seq<Message>, m: Message)
    requires AllTransmissible(ms) && Transmissible(m)
    ensures Frames(ms + [m]) == Frames(ms) + Framed(m)
  {
    hide Framed, Transmissible;
    if ms == [] {
      assert [m][1..] == [];
      assert Frames([]) == [];
    } else {
      assert (ms + [m])[1..] == ms[1..] + [m];
      FramesSnoc(ms[1..], m);
    }
  }

  lemma SizeOfPrefix(b: seq<Byte>, c: seq<Byte>)
    requires |b| >= 4
    ensures FrameSize(b + c) == FrameSize(b)
  {
  }

  /** A complete frame at the front of a stream of frames is the first message's frame. */
  lemma FirstFrame(ms: seq<Message>, b: seq<Byte>, rest: seq<Byte>)
    requires AllTransmissible(ms) && Frames(ms) == b + rest && Complete(b)
    ensures ms != [] && b == Framed(ms[0]) && rest == Frames(ms[1..])
    ensures GetBody(b[4..]) == Got(ms[0], [])
  {
    hide Framed, GetBody;
    assert ms != [];
    var f := Framed(ms[0]);
    assert Transmissible(ms[0]);
    FramedShape(ms[0]);
    SizeOfPrefix(b, rest);
    SizeOfPrefix(f, Frames(ms[1..]));
    assert b + rest == f + Frames(ms[1..]);
    assert b == (b + rest)[..|b|];
    assert f == (f + Frames(ms[1..]))[..|b|];
    assert rest == (b + rest)[|b|..];
  }

  // ---------------------------------------------------------------- every step conserves

  lemma EnqueueConserves(s: Stream, m: Message)
    requires Conserved(s) && Transmissible(m)
    ensures Conserved(Apply(s, Enqueue(m)))
  {
    hide Frames, Transmissible, Within, Complete;
    var t := Apply(s, Enqueue(m));
    assert InFlight(t) == InFlight(s);
  }

  lemma WriteConserves(s: Stream, k: nat)
    requires Conserved(s) && Enabled(s, WriteReady(k))
    ensures Conserved(Apply(s, WriteReady(k)))
  {
    hide Frames, Framed, Transmissible, Within, Complete;
    var t := Apply(s, WriteReady(k));
    var bytes := Loaded(s.queue, s.unsent).0;
    assert s.recvd + s.pipe + bytes == t.recvd + t.pipe + t.unsent by {
      assert bytes == bytes[..k] + bytes[k..];
    }
    if s.unsent == [] && s.queue != [] {
      FrameLeaves(s);
      assert InFlight(t) == InFlight(s) + [s.queue[0]];
    } else {
      assert InFlight(t) == InFlight(s);
    }
  }

  /** The next message leaves the queue, and its frame joins those under way. */
  lemma FrameLeaves(s: Stream)
    requires Conserved(s) && s.queue != [] && s.unsent == []
    ensures AllTransmissible(InFlight(s) + [s.queue[0]])
    ensures Frames(InFlight(s) + [s.queue[0]]) == s.recvd + s.pipe + Framed(s.queue[0])
    ensures s.enqueued == s.delivered + (InFlight(s) + [s.queue[0]]) + s.queue[1..]
  {
    hide Frames, Framed, Transmissible, Within, Complete, InFlight;
    assert Transmissible(s.queue[0]);
    FramesSnoc(InFlight(s), s.queue[0]);
    Regroup(s.delivered, InFlight(s), s.queue);
    assert s.recvd + s.pipe + s.unsent == s.recvd + s.pipe;
  }

  lemma Regroup<T>(a: seq<T>, b: seq<T>, c: seq<T>)
    requires c != []
    ensures a + b + c == a + (b + [c[0]]) + c[1..]
  {
  }

  lemma ReadConserves(s: Stream, k: nat)
    requires Conserved(s) && Enabled(s, ReadReady(k))
    ensures Conserved(Apply(s, ReadReady(k)))
    ensures Complete(s.recvd + s.pipe[..k]) ==>
      Apply(s, ReadReady(k)).delivered == s.delivered + [InFlight(s)[0]] && InFlight(s) != []
  {
    hide Framed, Frames, Transmissible, GetBody, FrameSize;
    var t := Apply(s, ReadReady(k));
    var b := s.recvd + s.pipe[..k];
    var rest := s.pipe[k..] + s.unsent;
    assert s.recvd + s.pipe + s.unsent == b + rest;
    if Complete(b) {
      FirstFrame(InFlight(s), b, rest);
      assert InFlight(t) == InFlight(s)[1..];
      assert t.recvd + t.pipe + t.unsent == rest;
    } else {
      assert InFlight(t) == InFlight(s);
    }
  }

  /** A complete frame always decodes, to the next message that was sent. */
  lemma ReadDelivers(s: Stream, k: nat)
    requires Conserved(s) && Enabled(s, ReadReady(k))
    ensures Conserved(Apply(s, ReadReady(k)))
    ensures var b, n := s.recvd + s.pipe[..k], |s.delivered|;
      if Complete(b) then
        && n < |s.enqueued| && GetBody(b[4..]).Got? && GetBody(b[4..]).value == s.enqueued[n]
        && Apply(s, ReadReady(k)) == s.(recvd := [], pipe := s.pipe[k..], delivered := s.delivered + [s.enqueued[n]])
      else Apply(s, ReadReady(k)) == s.(recvd := b, pipe := s.pipe[k..])
  {
    hide Framed, Frames, Transmissible, GetBody, FrameSize;
    ReadConserves(s, k);
    var b := s.recvd + s.pipe[..k];
    if Complete(b) {
      assert s.recvd + s.pipe + s.unsent == b + (s.pipe[k..] + s.unsent);
      FirstFrame(InFlight(s), b, s.pipe[k..] + s.unsent);
    }
  }

  /** Closing and re-initialising a channel starts the next session on a frame boundary. */
  lemma RestartConserves(s: Stream)
    requires AllTransmissible(s.queue)
    ensures Conserved(Apply(s, Restart)) && Apply(s, Restart).recvd == []
  {
    assert InFlight(FRESH) == [];
  }

  predicate Run(states: seq<Stream>, steps: seq<Step>) {
    && |states| == |steps| + 1
    && states[0] == FRESH
    && forall i :: 0 <= i < |steps| ==> Enabled(states[i], steps[i]) && states[i + 1] == Apply(states[i], steps[i])
  }

  lemma StepConserves(s: Stream, e: Step)
    requires Conserved(s) && Enabled(s, e)
    ensures Conserved(Apply(s, e))
  {
    match e
    case Enqueue(m) => EnqueueConserves(s, m);
    case WriteReady(k) => WriteConserves(s, k);
    case ReadReady(k) => ReadConserves(s, k);
    case Restart => RestartConserves(s);
  }

  lemma {:induction false} AlwaysConserved(states: seq<Stream>, steps: seq<Step>, n: nat)
    requires Run(states, steps) && n < |states|
    ensures Conserved(states[n])
  {
    hide Conserved, Apply, Enabled;
    if n == 0 {
      RestartConserves(FRESH);
      assert states[0] == Apply(FRESH, Restart) by { FreshIsRestart(); }
    } else {
      AlwaysConserved(states, steps, n - 1);
      var i := n - 1;
      assert Enabled(states[i], steps[i]) && states[i + 1] == Apply(states[i], steps[i]);
      StepConserves(states[i], steps[i]);
    }
  }

  lemma FreshIsRestart()
    ensures Enabled(FRESH, Restart) && Apply(FRESH, Restart) == FRESH
  {
  }

  /** In every run, under every fragmentation of reads and writes, what a session has delivered is
      a prefix of what was enqueued in it, in order and exactly once, and it is all of it as soon
      as nothing is queued, partly sent or in the kernel. */
  lemma InOrderExactlyOnce(states: seq<Stream>, steps: seq<Step>, n: nat)
    requires Run(states, steps) && n < |states|
    ensures states[n].delivered <= states[n].enqueued
    ensures states[n].queue == [] && states[n].unsent == [] && states[n].pipe == [] ==>
              states[n].recvd == [] && states[n].delivered == states[n].enqueued
  {
    hide Run;
    AlwaysConserved(states, steps, n);
    var s := states[n];
    assert s.delivered <= s.delivered + InFlight(s) + s.queue;
    if s.queue == [] && s.unsent == [] && s.pipe == [] {
      assert Frames(InFlight(s)) == s.recvd;
      NoPartialAlone(InFlight(s), s.recvd);
      assert s.delivered + InFlight(s) + s.queue == s.delivered;
    }
  }

  /** An unfinished frame cannot be the whole of what was sent. */
  lemma NoPartialAlone(ms: seq<Message>, b: seq<Byte>)
    requires AllTransmissible(ms) && Frames(ms) == b && !Complete(b) && Within(b)
    ensures ms == [] && b == []
  {
    hide Framed, GetBody;
    if ms != [] {
      var f := Framed(ms[0]);
      assert Transmissible(ms[0]);
      FramedShape(ms[0]);
      SizeOfPrefix(f, Frames(ms[1..]));
      assert false;
    }
  }

  // ---------------------------------------------------------------- as an ordered queue

  /** A session's messages without their bytes: all that were sent, how many of them have left the
      send queue, and how many have arrived. */
  datatype Fifo = Fifo(sent: seq<Message>, taken: nat, got: nat)

  function AsFifo(s: Stream): Fifo
    requires |s.queue| <= |s.enqueued|
  {
    Fifo(s.enqueued, |s.enqueued| - |s.queue|, |s.delivered|)
  }

  /** Every step on the bytes is a step of the ordered queue, or none: a message is sent, or one
      leaves the send queue, or the next one arrives, unaltered, which had left the send queue. */
  lemma StepIsFifo(s: Stream, e: Step)
    requires Conserved(s) && Enabled(s, e)
    ensures var t := Apply(s, e);
      var f, g := AsFifo(s), AsFifo(t);
      match e
      case Enqueue(m) => g == f.(sent := f.sent + [m]) && t.delivered == s.delivered
      case WriteReady(_) =>
        && (g == f || (f.taken < |f.sent| && g == f.(taken := f.taken + 1)))
        && t.delivered == s.delivered
      case ReadReady(_) =>
        || (g == f && t.delivered == s.delivered)
        || (f.got < f.taken && g == f.(got := f.got + 1) && t.delivered == s.delivered + [f.sent[f.got]])
      case Restart => g == Fifo([], 0, 0)
  {
    hide Framed, Frames, Transmissible, GetBody, FrameSize;
    if e.ReadReady? {
      ReadConserves(s, e.got);
    }
  }

  /** The receiver never meets a frame it cannot parse. */
  lemma NeverMalformed(states: seq<Stream>, steps: seq<Step>, n: nat, k: nat)
    requires Run(states, steps) && n < |states| && Enabled(states[n], ReadReady(k))
    ensures var b := states[n].recvd + states[n].pipe[..k];
      Complete(b) ==> GetBody(b[4..]).Got? && GetBody(b[4..]).rest == []
  {
    hide Run, Framed, GetBody;
    AlwaysConserved(states, steps, n);
    var s := states[n];
    var b := s.recvd + s.pipe[..k];
    if Complete(b) {
      assert s.recvd + s.pipe + s.unsent == b + (s.pipe[k..] + s.unsent);
      FirstFrame(InFlight(s), b, s.pipe[k..] + s.unsent);
    }
  }
}
