/** The remote's side of remote.c on its message channel: the `initialized` flag gates the handshake, and
    handlers queue their replies. */
module RemoteProgram {
  import opened Base
  import opened Proto
  import Stream
  import opened MsgChan
  import opened MasterInv
  import opened System

  predicate LinesFit(logs: seq<Text>) {
    forall i :: 0 <= i < |logs| ==> Stream.Transmissible(LogMsg(logs[i]))
  }

  /** The ghost fields are what the system model says of a remote's process: messages handled, modifier
      keys its platform was told about, everything queued for the master, and how much of it is gone. */
  class Process {
    const chan: Channel
    var alive: bool
    var initialized: bool
    var clip: Text
    ghost var got: nat
    ghost var pressed: set<Word>
    ghost var replies: seq<Message>
    ghost var flushed: nat

    ghost function View(): Proc
      reads this
    {
      Proc(alive, initialized, got, pressed, replies, flushed)
    }

    ghost predicate Valid()
      reads this, chan, chan.Repr
    {
      && chan.Valid() && chan.open && this !in chan.Repr
      && flushed <= |replies| && chan.queued == replies[flushed..]
      && Stream.Transmissible(SetClipboard(clip))
    }

    constructor (clip: Text)
      requires Stream.Transmissible(SetClipboard(clip))
      ensures Valid() && View() == FRESH_PROC && this.clip == clip && fresh(chan.Repr)
    {
      hide Channel.Valid, Stream.Transmissible;
      var c := new Channel();
      c.Init();
      chan := c;
      alive, initialized, this.clip := true, false, clip;
      got, pressed, replies, flushed := 0, {}, [], 0;
    }

    method Queue(msg: Message) returns (ok: bool)
      requires Valid() && Stream.Transmissible(msg)
      modifies this, chan.Repr
      ensures Valid() && fresh(chan.Repr - old(chan.Repr)) && clip == old(clip)
      ensures View() == old(View()).(replies := old(View()).replies + [msg])
      ensures ok <==> |replies| - flushed <= MAX_SEND_BACKLOG
    {
      hide Channel.Valid, Stream.Transmissible;
      ok := chan.Enqueue(msg);
      replies := replies + [msg];
    }

    /** Log lines go out without a look at the backlog. */
    method Log(logs: seq<Text>)
      requires Valid() && LinesFit(logs)
      modifies this, chan.Repr
      ensures Valid() && fresh(chan.Repr - old(chan.Repr)) && clip == old(clip)
      ensures View() == Reply(old(View()), logs, [])
    {
      hide Valid, Stream.Transmissible;
      for i := 0 to |logs|
        invariant Valid() && fresh(chan.Repr - old(chan.Repr)) && clip == old(clip)
        invariant View() == old(View()).(replies := old(View()).replies + LogMsgs(logs[..i]))
      {
        var ok := Queue(LogMsg(logs[i]));
        assert LogMsgs(logs[..i + 1]) == LogMsgs(logs[..i]) + [LogMsg(logs[i])];
      }
      assert logs[..|logs|] == logs;
    }

    /** A reply that exceeds the backlog ends the remote. */
    method Answer(logs: seq<Text>, msg: Message)
      requires Valid() && LinesFit(logs) && Stream.Transmissible(msg)
      modifies this, chan.Repr
      ensures Valid() && fresh(chan.Repr - old(chan.Repr)) && clip == old(clip)
      ensures View() == Reply(old(View()), logs, [msg])
    {
      hide Channel.Valid, Stream.Transmissible, LinesFit;
      Log(logs);
      var ok := Queue(msg);
      if !ok {
        alive := false;
      }
    }

    method HandleSetup(msg: Message, env: Env, ghost modifiers: set<Word>)
      requires Valid() && LinesFit(env.logs) && !initialized
      modifies this, chan.Repr
      ensures Valid() && fresh(chan.Repr - old(chan.Repr))
      ensures (View(), clip) == RemoteHandles(old(View()), old(clip), msg, env, modifiers)
    {
      hide Channel.Valid, Stream.Transmissible, LinesFit, Reply;
      got := got + 1;
      if msg.Setup? && msg.version == PROT_VERSION && env.initOk {
        initialized := true;
        Stream.ShortFits(Ready(env.screen));
        Answer(env.logs, Ready(env.screen));
      } else {
        Log(env.logs);
        alive := false;
      }
    }

    method HandleMessage(msg: Message, env: Env, ghost modifiers: set<Word>)
      requires Valid() && LinesFit(env.logs) && initialized && Stream.Transmissible(msg)
      modifies this, chan.Repr
      ensures Valid() && fresh(chan.Repr - old(chan.Repr))
      ensures (View(), clip) == RemoteHandles(old(View()), old(clip), msg, env, modifiers)
    {
      hide Channel.Valid, Stream.Transmissible, LinesFit, Reply, PressedAfter;
      got, pressed := got + 1, PressedAfter(pressed, msg, modifiers);
      if msg.MoveRel? {
        Stream.ShortFits(MousePos(env.pos));
        Answer(env.logs, MousePos(env.pos));
      } else if msg.GetClipboard? {
        Answer(env.logs, SetClipboard(clip));
      } else {
        Log(env.logs);
        if msg.SetClipboard? {
          clip := msg.text;
        } else if !ToRemote(msg) {
          alive := false;
        }
      }
    }

    /** The read callback: SETUP first, and then the messages it knows. */
    method Handle(msg: Message, env: Env, ghost modifiers: set<Word>)
      requires Valid() && LinesFit(env.logs) && Stream.Transmissible(msg)
      modifies this, chan.Repr
      ensures Valid() && fresh(chan.Repr - old(chan.Repr))
      ensures (View(), clip) == RemoteHandles(old(View()), old(clip), msg, env, modifiers)
      ensures old(initialized) || (msg.Setup? && msg.version == PROT_VERSION && env.initOk) || !alive
      ensures alive && old(initialized) ==> ToRemote(msg)
    {
      hide Valid, Stream.Transmissible, LinesFit, Reply, PressedAfter;
      if !initialized {
        HandleSetup(msg, env, modifiers);
      } else {
        HandleMessage(msg, env, modifiers);
      }
    }
  }
}
