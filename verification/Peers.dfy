/** The master's objects: one per remote, each with a message channel of its own, and one timer list.
    `Store` holds them together with the focus, and ties them to the value `model`; its methods are
    the single updates of which the operations of main.c are made. */
module Peers {
  import opened Base
  import opened Proto
  import opened Stream
  import opened Framing
  import opened MsgChan
  import opened Timers
  import opened MasterSpec

  datatype RemoteConfig = RemoteConfig(enabled: bool, params: seq<KvPair>, scrollmult: int)

  predicate SetupFits(params: seq<KvPair>) {
    forall level: Word :: Transmissible(Setup(PROT_VERSION, level, params))
  }

  /** One remote.  The ghost fields are the history of the current session. */
  class Peer {
    const config: RemoteConfig
    const chan: Channel
    var state: ConnState
    var failcount: int
    var timer: Option<nat>
    ghost var session: nat
    ghost var sent: seq<Message>
    ghost var taken: nat
    ghost var recvd: nat

    ghost function View(): Conn
      reads this, chan
    {
      Conn(config.enabled, config.params, config.scrollmult, state, failcount, timer,
           chan.open, session, sent, taken, recvd)
    }

    /** The send queue is what has been sent and not yet taken from it. */
    ghost predicate Valid()
      reads this, chan, chan.Repr
    {
      && chan.Valid() && this !in chan.Repr
      && taken <= |sent| && chan.queued == sent[taken..]
      && (!chan.open ==> View() == Closed(View()))
      && SetupFits(config.params)
    }

    constructor (config: RemoteConfig)
      requires SetupFits(config.params)
      ensures Valid() && Pristine(View()) && this.config == config && fresh(chan.Repr) && this !in chan.Repr
    {
      hide Channel.Valid, Transmissible;
      this.config := config;
      chan := new Channel();
      state, failcount, timer := New, 0, None;
      session, sent, taken, recvd := 0, [], 0, 0;
    }

    method Send(msg: Message) returns (ok: bool)
      requires Valid() && chan.open && Transmissible(msg)
      modifies this, chan.Repr
      ensures Valid() && fresh(chan.Repr - old(chan.Repr))
      ensures View() == old(View()).(sent := old(View()).sent + [msg])
      ensures ok <==> Room(View()) >= 0
    {
      hide Channel.Valid, Transmissible;
      ok := chan.Enqueue(msg);
      sent := sent + [msg];
    }

    method Shut()
      requires Valid()
      modifies this, chan.Repr
      ensures Valid() && chan.Repr <= old(chan.Repr) && View() == Closed(old(View()))
    {
      hide Channel.Valid, Transmissible;
      chan.Close();
      sent, taken, recvd := [], 0, 0;
    }

    /** A new session. */
    method Open()
      requires Valid()
      modifies this, chan.Repr
      ensures Valid() && chan.Repr <= old(chan.Repr)
      ensures View() == Closed(old(View())).(state := SettingUp, open := true, session := old(View()).session + 1)
    {
      hide Channel.Valid, Transmissible;
      state := SettingUp;
      chan.Init();
      session, sent, taken, recvd := session + 1, [], 0, 0;
    }

    method Book(state: ConnState, failcount: int, timer: Option<nat>)
      requires Valid()
      modifies this
      ensures Valid() && View() == old(View()).(state := state, failcount := failcount, timer := timer)
    {
      hide Channel.Valid, Transmissible;
      this.state, this.failcount, this.timer := state, failcount, timer;
    }

    /** The descriptor is writable: one message may leave the queue, or the channel is closed. */
    method WriteReady(fd: Pipe, replies: seq<Reply>, estimate: nat)
      returns (failed: bool, ghost k: nat, ghost used: nat)
      requires Valid() && chan.open && fd !in chan.Repr
      requires Bounds(chan.queued, chan.unsent, estimate)
      modifies this, chan.Repr, fd
      ensures Valid() && fresh(chan.Repr - old(chan.Repr))
      ensures Written(old(chan.queued), old(chan.unsent), old(fd.bytes), replies,
                      failed, k, used, fd.bytes, chan.unsent)
      ensures failed ==> View() == Closed(old(View()))
      ensures !failed ==> var c := old(View());
        View() == if old(chan.unsent) == [] && Queued(c) > 0 then c.(taken := c.taken + 1) else c
    {
      hide Channel.Valid, Transmissible, Stopped, SetupFits, PutWord;
      failed, k, used := chan.WriteCb(fd, replies, estimate);
      if failed {
        sent, taken, recvd := [], 0, 0;
      } else if old(chan.unsent) == [] && old(chan.queued) != [] {
        taken := taken + 1;
      }
    }

    /** The descriptor is readable: one message may have arrived, or the channel is closed. */
    method ReadReady(fd: Pipe, replies: seq<Reply>)
      returns (r: Parse<Message>, failed: bool, ghost k: nat, ghost used: nat)
      requires Valid() && chan.open && fd !in chan.Repr
      modifies this, chan.Repr, fd
      ensures Valid() && fresh(chan.Repr - old(chan.Repr))
      ensures k <= |old(fd.bytes)| && fd.bytes == old(fd.bytes)[k..]
      ensures Outcome(old(chan.recvd) + old(fd.bytes)[..k], r, failed, chan.recvd, replies, used, fd.bytes == [])
      ensures r.Got? ==> Transmissible(r.value)
      ensures View() ==
        if failed then Closed(old(View()))
        else if r.Got? then old(View()).(recvd := old(View()).recvd + 1)
        else old(View())
    {
      hide Channel.Valid, Transmissible, Outcome, SetupFits;
      r, failed, k, used := chan.ReadCb(fd, replies);
      DecodedFits(old(chan.recvd) + old(fd.bytes)[..k], r, failed, chan.recvd, replies, used, fd.bytes == []);
      if failed {
        sent, taken, recvd := [], 0, 0;
      } else if r.Got? {
        recvd := recvd + 1;
      }
    }
  }

  /** What a write callback does to the bytes: those of the frame in progress, or else of the next
      message queued, go to the kernel in order, `k` of them; it stops only when the frame is out, a
      write would block, or one fails. */
  predicate Written(
      queued: seq<Message>, unsent: seq<Byte>, pipe: seq<Byte>, replies: seq<Reply>,
      failed: bool, k: nat, used: nat, pipe': seq<Byte>, unsent': seq<Byte>)
  {
    && AllTransmissible(queued)
    && var bytes := Loaded(queued, unsent).0;
       && k <= |bytes| && used <= k && pipe' == pipe + bytes[..k]
       && (!failed ==> unsent' == bytes[k..])
       && (failed ==> Stopped(replies, used, -1, false))
       && (!failed && bytes != [] ==> Stopped(replies, used, if unsent' == [] then 1 else 0, false))
       && (bytes == [] ==> !failed)
  }

  /** What has been received can be sent on. */
  lemma DecodedFits(
      b: seq<Byte>, r: Parse<Message>, failed: bool, recvd: seq<Byte>, replies: seq<Reply>, used: nat, dry: bool)
    requires Outcome(b, r, failed, recvd, replies, used, dry)
    ensures r.Got? ==> Transmissible(r.value) && !failed
  {
    hide GetBody, Encode, Sendable, Stopped;
    if r.Got? {
      AcceptedIsSendable(b[HEADER..]);
    }
  }

  /** No two remotes share an object. */
  ghost predicate Apart(ps: seq<Peer>)
    reads set i | 0 <= i < |ps| :: ps[i].chan
  {
    && (forall i, j :: 0 <= i < j < |ps| ==> ps[i] != ps[j] && ps[i].chan.Repr !! ps[j].chan.Repr)
    && (forall i, j :: 0 <= i < |ps| && 0 <= j < |ps| ==> ps[j] !in ps[i].chan.Repr)
  }

  method MakePeers(configs: seq<RemoteConfig>)
    returns (ps: seq<Peer>, ghost views: seq<Conn>, ghost all: set<object>)
    requires forall i :: 0 <= i < |configs| ==> SetupFits(configs[i].params)
    ensures |ps| == |views| == |configs| && Apart(ps) && fresh(all)
    ensures forall i :: 0 <= i < |ps| ==> ps[i] in all && ps[i].chan.Repr <= all && ps[i].Valid()
    ensures forall i :: 0 <= i < |ps| ==>
      views[i] == ps[i].View() && Pristine(views[i]) && ps[i].config == configs[i]
  {
    hide Channel.Valid, Transmissible, SetupFits, Peer.Valid, Peer.View, Pristine;
    ps, views, all := [], [], {};
    for n := 0 to |configs|
      invariant |ps| == |views| == n && Apart(ps) && fresh(all)
      invariant forall i :: 0 <= i < |ps| ==> ps[i] in all && ps[i].chan.Repr <= all && ps[i].Valid()
      invariant forall i :: 0 <= i < |ps| ==>
        views[i] == ps[i].View() && Pristine(views[i]) && ps[i].config == configs[i]
    {
      var p := new Peer(configs[n]);
      ps, views, all := ps + [p], views + [p.View()], all + {p} + p.chan.Repr;
    }
  }

  lemma EmptyClipboard()
    ensures Transmissible(SetClipboard([]))
  {
  }

  class Store {
    const cfg: Config
    const peers: seq<Peer>
    const timers: TimerQueue<Task>
    var loglevel: Word
    var focused: Node
    var last: Node
    var grabbed: bool
    var clip: Text
    ghost var model: Core
    ghost var Repr: set<object>

    ghost predicate Owned()
      reads this, set i | 0 <= i < |peers| :: peers[i].chan
    {
      && this in Repr && timers in Repr && Apart(peers)
      && forall i :: 0 <= i < |peers| ==>
           && peers[i] in Repr && peers[i].chan.Repr <= Repr
           && this !in peers[i].chan.Repr && timers !in peers[i].chan.Repr
    }

    ghost predicate PeerOk(i: nat)
      requires i < |peers|
      reads this, peers[i], peers[i].chan, peers[i].chan.Repr
    {
      peers[i].Valid() && i < |model.conns| && model.conns[i] == peers[i].View()
    }

    ghost predicate FieldsOk()
      reads this, timers
    {
      && model == Core(cfg, loglevel, model.conns, timers.calls, timers.nextId, timers.clock,
                       focused, last, grabbed, clip, model.held)
      && Ok(timers.View()) && Wf(model) && |model.conns| == |peers| && Transmissible(SetClipboard(clip))
    }

    ghost predicate Valid()
      reads this, timers, peers, (set i | 0 <= i < |peers| :: peers[i].chan), Repr
      ensures Valid() ==> this in Repr && timers in Repr && FieldsOk()
    {
      && Owned() && FieldsOk()
      && forall i :: 0 <= i < |peers| ==> PeerOk(i)
    }

    constructor (cfg: Config, loglevel: Word, configs: seq<RemoteConfig>)
      requires forall i :: 0 <= i < |configs| ==> SetupFits(configs[i].params)
      ensures Valid() && Startup(model) && model.held == {} && |peers| == |configs| && this.cfg == cfg && fresh(Repr)
      ensures forall i :: 0 <= i < |peers| ==> peers[i].config == configs[i]
    {
      hide Channel.Valid, Peer.Valid, Peer.View, Pristine, Apart, SetupFits, Transmissible, Ok;
      ghost var views, all;
      var ps;
      ps, views, all := MakePeers(configs);
      var queue := new TimerQueue<Task>(0);
      this.cfg, this.loglevel, peers, timers := cfg, loglevel, ps, queue;
      focused, last, grabbed, clip := Master, Master, false, [];
      model := Core(cfg, loglevel, views, [], 0, 0, Master, Master, false, [], {});
      Repr := {this, queue} + all;
      EmptyClipboard();
    }

    lemma Inside(r: nat)
      requires Valid() && r < |peers|
      ensures Wf(model) && |model.conns| == |peers| && model.conns[r] == peers[r].View() && peers[r].Valid()
      ensures peers[r] in Repr && peers[r].chan.Repr <= Repr && this !in peers[r].chan.Repr
      ensures peers[r].chan.open == model.conns[r].open && SetupFits(peers[r].config.params)
      ensures var p, c := peers[r], model.conns[r];
        && p.state == c.state && p.failcount == c.failcount && p.timer == c.timer
        && p.config == RemoteConfig(c.enabled, c.params, c.scrollmult) && model.cfg == cfg && model.loglevel == loglevel
    {
      hide Channel.Valid, Transmissible, Ok, Wf;
      assert PeerOk(r);
    }

    /** One remote has changed, and the objects of the others are as they were. */
    twostate lemma PeerChanged(r: nat)
      requires old(Valid()) && r < |peers| && peers[r].Valid() && Repr == old(Repr) + peers[r].chan.Repr
      requires fresh(peers[r].chan.Repr - old(peers[r].chan.Repr))
      requires model == Put(old(model), r, peers[r].View())
      requires loglevel == old(loglevel) && focused == old(focused) && last == old(last)
      requires grabbed == old(grabbed) && clip == old(clip)
      requires forall o ::
        o in old(Repr) && o != this && o != peers[r] && o !in old(peers[r].chan.Repr) ==> unchanged(o)
      ensures Valid() && fresh(Repr - old(Repr)) && model.conns[r] == peers[r].View()
    {
      hide Channel.Valid, Transmissible, Ok, Wf;
      assert old(PeerOk(r));
      ghost var grown, was := peers[r].chan.Repr, old(peers[r].chan.Repr);
      assert forall o :: o in grown ==> o in was || fresh(o);
      assert this !in grown && timers !in grown;
      forall i | 0 <= i < |peers|
        ensures peers[i] !in grown
        ensures i != r ==> peers[i].chan.Repr == old(peers[i].chan.Repr) && peers[i].chan.Repr !! grown
        ensures PeerOk(i)
      {
        assert i != r ==> old(PeerOk(i));
      }
    }

    /** One message more for `r`; false if the backlog is now too long. */
    method Queue(r: nat, msg: Message) returns (ok: bool)
      requires Valid() && r < |peers| && model.conns[r].open && Transmissible(msg)
      modifies Repr
      ensures Valid() && fresh(Repr - old(Repr))
      ensures model == Put(old(model), r, old(model).conns[r].(sent := old(model).conns[r].sent + [msg]))
      ensures ok <==> Room(model.conns[r]) >= 0
    {
      hide *;
      Inside(r);
      ok := peers[r].Send(msg);
      model := Put(model, r, peers[r].View());
      Repr := Repr + peers[r].chan.Repr;
      PeerChanged(r);
    }

    method Shut(r: nat)
      requires Valid() && r < |peers|
      modifies Repr
      ensures Valid() && fresh(Repr - old(Repr))
      ensures model == Put(old(model), r, Closed(old(model).conns[r]))
    {
      hide *;
      Inside(r);
      peers[r].Shut();
      model := Put(model, r, peers[r].View());
      Repr := Repr + peers[r].chan.Repr;
      PeerChanged(r);
    }

    /** A new session on the channel of `r`. */
    method Open(r: nat)
      requires Valid() && r < |peers|
      modifies Repr
      ensures Valid() && fresh(Repr - old(Repr))
      ensures var c := old(model).conns[r];
        model == Put(old(model), r, Closed(c).(state := SettingUp, open := true, session := c.session + 1))
    {
      hide *;
      Inside(r);
      peers[r].Open();
      model := Put(model, r, peers[r].View());
      Repr := Repr + peers[r].chan.Repr;
      PeerChanged(r);
    }

    /** The book-keeping fields of `r`. */
    method Book(r: nat, state: ConnState, failcount: int, timer: Option<nat>)
      requires Valid() && r < |peers|
      modifies Repr
      ensures Valid() && fresh(Repr - old(Repr))
      ensures model ==
        Put(old(model), r, old(model).conns[r].(state := state, failcount := failcount, timer := timer))
    {
      hide *;
      Inside(r);
      peers[r].Book(state, failcount, timer);
      model := Put(model, r, peers[r].View());
      Repr := Repr + peers[r].chan.Repr;
      PeerChanged(r);
    }

    method WriteReady(r: nat, fd: Pipe, replies: seq<Reply>, estimate: nat)
      returns (failed: bool, ghost k: nat, ghost used: nat)
      requires Valid() && r < |peers| && model.conns[r].open && fd !in Repr
      requires Bounds(peers[r].chan.queued, peers[r].chan.unsent, estimate)
      modifies Repr, fd
      ensures Valid() && fresh(Repr - old(Repr))
      ensures Written(old(peers[r].chan.queued), old(peers[r].chan.unsent), old(fd.bytes), replies,
                      failed, k, used, fd.bytes, peers[r].chan.unsent)
      ensures failed ==> model == Put(old(model), r, Closed(old(model).conns[r]))
      ensures !failed ==> var c := old(model).conns[r];
        model == Put(old(model), r,
                     if old(peers[r].chan.unsent) == [] && Queued(c) > 0 then c.(taken := c.taken + 1) else c)
    {
      hide *;
      Inside(r);
      failed, k, used := peers[r].WriteReady(fd, replies, estimate);
      model := Put(model, r, peers[r].View());
      Repr := Repr + peers[r].chan.Repr;
      PeerChanged(r);
    }

    method ReadReady(r: nat, fd: Pipe, replies: seq<Reply>)
      returns (got: Parse<Message>, failed: bool, ghost k: nat, ghost used: nat)
      requires Valid() && r < |peers| && model.conns[r].open && fd !in Repr
      modifies Repr, fd
      ensures Valid() && fresh(Repr - old(Repr))
      ensures k <= |old(fd.bytes)| && fd.bytes == old(fd.bytes)[k..]
      ensures Outcome(old(peers[r].chan.recvd) + old(fd.bytes)[..k], got, failed, peers[r].chan.recvd,
                      replies, used, fd.bytes == [])
      ensures got.Got? ==> Transmissible(got.value)
      ensures var c := old(model).conns[r];
        model == Put(old(model), r,
                     if failed then Closed(c) else if got.Got? then c.(recvd := c.recvd + 1) else c)
    {
      hide *;
      Inside(r);
      got, failed, k, used := peers[r].ReadReady(fd, replies);
      model := Put(model, r, peers[r].View());
      Repr := Repr + peers[r].chan.Repr;
      PeerChanged(r);
    }

    method SetFocus(focused: Node, last: Node, grabbed: bool)
      requires Valid() && InRange(model, focused) && InRange(model, last)
      modifies Repr
      ensures Valid() && Repr == old(Repr)
      ensures model == old(model).(focused := focused, last := last, grabbed := grabbed)
    {
      hide Channel.Valid, Transmissible, Ok;
      this.focused, this.last, this.grabbed := focused, last, grabbed;
      model := model.(focused := focused, last := last, grabbed := grabbed);
      forall i | 0 <= i < |peers|
        ensures PeerOk(i)
      {
        assert old(PeerOk(i));
      }
    }

    method SetClip(text: Text)
      requires Valid() && Transmissible(SetClipboard(text))
      modifies Repr
      ensures Valid() && Repr == old(Repr) && model == old(model).(clip := text)
    {
      hide Channel.Valid, Transmissible, Ok;
      clip := text;
      model := model.(clip := text);
      forall i | 0 <= i < |peers|
        ensures PeerOk(i)
      {
        assert old(PeerOk(i));
      }
    }

    method SetLevel(level: Word)
      requires Valid()
      modifies Repr
      ensures Valid() && Repr == old(Repr) && model == old(model).(loglevel := level)
    {
      hide Channel.Valid, Transmissible, Ok;
      loglevel := level;
      model := model.(loglevel := level);
      forall i | 0 <= i < |peers|
        ensures PeerOk(i)
      {
        assert old(PeerOk(i));
      }
    }

    /** What the user's fingers do. */
    ghost method SetHeld(held: set<Word>)
      requires Valid()
      modifies Repr
      ensures Valid() && Repr == old(Repr) && model == old(model).(held := held)
    {
      hide Channel.Valid, Transmissible, Ok;
      model := model.(held := held);
      forall i | 0 <= i < |peers|
        ensures PeerOk(i)
      {
        assert old(PeerOk(i));
      }
    }

    method Tick(now: nat)
      requires Valid() && timers.clock <= now
      modifies Repr
      ensures Valid() && Repr == old(Repr) && model == old(model).(now := now)
    {
      hide Channel.Valid, Transmissible;
      timers.clock := now;
      model := model.(now := now);
      forall i | 0 <= i < |peers|
        ensures PeerOk(i)
      {
        assert old(PeerOk(i));
      }
    }

    method Schedule(what: Task, delay: nat) returns (id: nat)
      requires Valid() && TaskInRange(model, what)
      modifies Repr
      ensures Valid() && Repr == old(Repr) && model == ScheduleTask(old(model), what, delay)
      ensures id == old(model).nextId
    {
      hide Channel.Valid, Transmissible, Ok, Insert;
      id := timers.ScheduleCall(delay, what);
      model := ScheduleTask(model, what, delay);
      forall i | 0 <= i < |peers|
        ensures PeerOk(i)
      {
        assert old(PeerOk(i));
      }
    }

    method Cancel(id: nat)
      requires Valid()
      modifies Repr
      ensures Valid() && Repr == old(Repr) && model == CancelTask(old(model), id)
    {
      hide Channel.Valid, Transmissible, Ok, Remove;
      var found := timers.CancelCall(id);
      model := CancelTask(model, id);
      forall i | 0 <= i < |peers|
        ensures PeerOk(i)
      {
        assert old(PeerOk(i));
      }
    }

    /** Unlinks the head of the timer list. */
    method Pop() returns (what: Task)
      requires Valid() && timers.calls != [] && timers.calls[0].time <= timers.clock
      modifies Repr
      ensures Valid() && Repr == old(Repr) && what == old(model).calls[0].what
      ensures model == old(model).(calls := old(model).calls[1..])
    {
      hide Channel.Valid, Transmissible, Ok;
      var c := timers.PopHead();
      what := c.what;
      model := model.(calls := model.calls[1..]);
      forall i | 0 <= i < |peers|
        ensures PeerOk(i)
      {
        assert old(PeerOk(i));
      }
    }
  }
}
