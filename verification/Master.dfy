/** The operations of main.c on the master's objects.  Each is proved to do to them what the function
    of the same name in MasterSpec.dfy does to their value, so what the other files prove of those
    functions holds of the program: message channels with linked queues and partial buffers, the
    64-bit backoff, the timer list. */
module MasterProgram {
  import opened Base
  import opened Proto
  import Stream
  import opened Framing
  import opened MsgChan
  import opened Timers
  import Backoff
  import opened Peers
  import opened MasterInv
  import opened Focus
  import opened Sessions
  import S = MasterSpec
  import opened MasterSpec

  predicate AllFit(ms: seq<Message>) {
    forall i :: 0 <= i < |ms| ==> Stream.Transmissible(ms[i])
  }

  class Program {
    const st: Store

    /** What the configuration parser guarantees. */
    ghost predicate Configured()
    {
      st.cfg.maxTries < 0x8000_0000 && st.cfg.maxInterval < WRAP
    }

    constructor (cfg: Config, loglevel: Word, configs: seq<RemoteConfig>)
      requires forall i :: 0 <= i < |configs| ==> SetupFits(configs[i].params)
      requires cfg.maxTries < 0x8000_0000 && cfg.maxInterval < WRAP
      ensures st.Valid() && Configured() && Startup(st.model) && fresh(st.Repr)
    {
      st := new Store(cfg, loglevel, configs);
    }

    method ScheduleFade(node: Node, steps: seq<(nat, Word)>)
      requires st.Valid() && InRange(st.model, node)
      modifies st.Repr
      ensures st.Valid() && fresh(st.Repr - old(st.Repr))
      ensures st.model == S.ScheduleFade(old(st.model), node, steps)
    {
      hide Store.Valid, Insert, Ok;
      for i := 0 to |steps|
        invariant st.Valid() && fresh(st.Repr - old(st.Repr)) && Shape(old(st.model), st.model)
        invariant S.ScheduleFade(st.model, node, steps[i..]) == S.ScheduleFade(old(st.model), node, steps)
      {
        var id := st.Schedule(Brightness(node, steps[i].1), steps[i].0);
        assert steps[i..][1..] == steps[i + 1..];
      }
    }

    method FocusMaster()
      requires st.Valid()
      modifies st.Repr
      ensures st.Valid() && fresh(st.Repr - old(st.Repr)) && st.model == S.FocusMaster(old(st.model))
    {
      hide Store.Valid, S.ScheduleFade, Ok;
      st.SetFocus(Master, st.focused, false);
      match st.cfg.hint {
        case NoHint =>
        case DimInactive(_, lift) => ScheduleFade(Master, lift.steps);
        case FlashActive(flash) => ScheduleFade(Master, flash.steps);
      }
    }

    method DisconnectRemote(r: nat)
      requires st.Valid() && r < |st.peers|
      modifies st.Repr
      ensures st.Valid() && fresh(st.Repr - old(st.Repr)) && st.model == Disconnect(old(st.model), r)
    {
      hide Store.Valid, S.FocusMaster, Ok;
      st.Shut(r);
      if st.focused == Remote(r) {
        FocusMaster();
      }
    }

    /** A failed remote is tried again after the backoff delay. */
    method Postpone(r: nat, count: int)
      requires st.Valid() && Configured() && r < |st.peers| && 1 <= count <= st.cfg.maxTries
      modifies st.Repr
      ensures st.Valid() && fresh(st.Repr - old(st.Repr))
      ensures var m, c := old(st.model), old(st.model).conns[r];
        st.model == Put(ScheduleTask(m, Reconnect(r), Backoff.Delay(count, st.cfg.maxInterval)), r,
                        c.(state := Failed, failcount := count, timer := Some(m.nextId)))
    {
      hide Store.Valid, Store.FieldsOk, Peer.View, Insert, Backoff.Delay, Put, Wf;
      st.Inside(r);
      var delay := Backoff.NextReconnectDelay(count, st.cfg.maxInterval);
      var id := st.Schedule(Reconnect(r), delay);
      st.Book(r, Failed, count, Some(id));
    }

    method FailRemote(r: nat)
      requires st.Valid() && Configured() && r < |st.peers| && st.model.conns[r].failcount >= 0
      modifies st.Repr
      ensures st.Valid() && fresh(st.Repr - old(st.Repr)) && st.model == Fail(old(st.model), r)
    {
      hide *;
      st.Inside(r);
      FailSteps(st.model, r);
      DisconnectRemote(r);
      st.Inside(r);
      var count := st.peers[r].failcount + 1;
      if count > st.cfg.maxTries {
        st.Book(r, PermFailed, count, st.peers[r].timer);
      } else {
        Postpone(r, count);
      }
    }

    method EnqueueMessage(r: nat, msg: Message)
      requires st.Valid() && Configured() && r < |st.peers| && Stream.Transmissible(msg)
      requires st.model.conns[r].open && st.model.conns[r].failcount >= 0
      modifies st.Repr
      ensures st.Valid() && fresh(st.Repr - old(st.Repr)) && st.model == Enqueue(old(st.model), r, msg)
    {
      hide Store.Valid, Fail, Ok, Stream.Transmissible;
      var ok := st.Queue(r, msg);
      if !ok {
        FailRemote(r);
      }
    }

    method SetupRemote(r: nat)
      requires st.Valid() && Configured() && r < |st.peers| && st.model.conns[r].failcount >= 0
      modifies st.Repr
      ensures st.Valid() && fresh(st.Repr - old(st.Repr)) && st.model == S.SetupRemote(old(st.model), r)
    {
      hide *;
      st.Inside(r);
      SetupSteps(st.model, r);
      st.Open(r);
      st.Inside(r);
      SetupFitsAt(st.peers[r].config.params, st.loglevel);
      EnqueueMessage(r, Setup(PROT_VERSION, st.loglevel, st.peers[r].config.params));
    }

    /** Gives up the attempt in progress, or the wait for the next one. */
    method Abandon(r: nat)
      requires st.Valid() && r < |st.peers|
      modifies st.Repr
      ensures st.Valid() && fresh(st.Repr - old(st.Repr)) && st.model == Abandoned(old(st.model), r)
    {
      hide Store.Valid, Store.FieldsOk, Peer.View, Disconnect, CancelTask, Wf;
      st.Inside(r);
      var p := st.peers[r];
      var settingUp := p.state.SettingUp?;
      if p.timer.Some? {
        st.Cancel(p.timer.value);
      }
      if settingUp {
        DisconnectRemote(r);
      }
    }

    /** True when an attempt was started. */
    method ReconnectRemote(r: nat) returns (started: bool)
      requires st.Valid() && Configured() && r < |st.peers|
      modifies st.Repr
      ensures st.Valid() && fresh(st.Repr - old(st.Repr)) && st.model == S.ReconnectRemote(old(st.model), r)
      ensures started == !old(st.model).conns[r].state.Connected?
    {
      hide Store.Valid, Store.FieldsOk, Peer.View, S.SetupRemote, Abandoned, Wf;
      st.Inside(r);
      ReconnectSteps(st.model, r);
      if st.peers[r].state.Connected? {
        return false;
      }
      Abandon(r);
      st.Inside(r);
      st.Book(r, st.peers[r].state, 0, st.peers[r].timer);
      SetupRemote(r);
      started := true;
    }

    /** The body of the halt loop: true when an attempt was halted. */
    method HaltRemote(r: nat) returns (halted: bool)
      requires st.Valid() && r < |st.peers|
      modifies st.Repr
      ensures st.Valid() && fresh(st.Repr - old(st.Repr)) && st.model == S.HaltRemote(old(st.model), r)
      ensures var state := old(st.model).conns[r].state; halted == (state.SettingUp? || state.Failed?)
    {
      hide Store.Valid, Store.FieldsOk, Peer.View, Disconnect, Remove, Wf;
      st.Inside(r);
      var p := st.peers[r];
      halted := p.state.SettingUp? || p.state.Failed?;
      if halted {
        if p.state.SettingUp? {
          DisconnectRemote(r);
          DisconnectConn(old(st.model), r);
        }
        st.Inside(r);
        if p.state.Failed? && p.timer.Some? {
          st.Cancel(p.timer.value);
        }
        st.Inside(r);
        st.Book(r, PermFailed, p.failcount, p.timer);
      }
    }

    /** There is a channel to send to. */
    ghost predicate CanSend(node: Node)
      reads st
    {
      node.Remote? ==>
        node.id < |st.model.conns| && st.model.conns[node.id].open && st.model.conns[node.id].failcount >= 0
    }

    method TransitionBrightness(node: Node, fade: Fade)
      requires st.Valid() && Configured() && CanSend(node)
      modifies st.Repr
      ensures st.Valid() && fresh(st.Repr - old(st.Repr)) && st.model == Transition(old(st.model), node, fade)
    {
      hide Store.Valid, Enqueue, S.ScheduleFade, Ok, Stream.Transmissible;
      if node.Remote? {
        Stream.ShortFits(SetBrightness(fade.first));
        EnqueueMessage(node.id, SetBrightness(fade.first));
      }
      ScheduleFade(node, fade.steps);
    }

    method IndicateSwitch(from: Node, to: Node)
      requires st.Valid() && Configured() && CanSend(from) && CanSend(to)
      modifies st.Repr
      ensures st.Valid() && fresh(st.Repr - old(st.Repr)) && st.model == S.IndicateSwitch(old(st.model), from, to)
    {
      hide Store.Valid, Transition, Ok;
      match st.cfg.hint {
        case NoHint =>
        case DimInactive(dim, lift) =>
          if from != to {
            TransitionBrightness(from, dim);
            TransitionOthers(old(st.model), from, dim);
          }
          TransitionBrightness(to, lift);
        case FlashActive(flash) => TransitionBrightness(to, flash);
      }
    }

    method TransferClipboard(from: Node, to: Node)
      requires st.Valid() && Configured() && InRange(st.model, from) && InRange(st.model, to)
      requires if from.Remote? then CanSend(from) else CanSend(to)
      modifies st.Repr
      ensures st.Valid() && fresh(st.Repr - old(st.Repr))
      ensures st.model == S.TransferClipboard(old(st.model), from, to)
    {
      hide Store.Valid, Enqueue, Ok, Stream.Transmissible;
      if from.Remote? {
        Stream.ShortFits(GetClipboard);
        EnqueueMessage(from.id, GetClipboard);
      } else if to.Remote? {
        EnqueueMessage(to.id, SetClipboard(st.clip));
      }
    }

    /** Room for all of them, or for all but the last. */
    ghost predicate RoomFor(r: nat, n: nat)
      requires r < |st.model.conns|
      reads st
    {
      var c := st.model.conns[r];
      n > 0 ==> c.open && c.failcount >= 0 && n <= Room(c) + 1
    }

    /** The sending loops.  With that much room none of them sends on a closed channel. */
    method SendAll(r: nat, ms: seq<Message>)
      requires st.Valid() && Configured() && r < |st.peers| && AllFit(ms) && RoomFor(r, |ms|)
      modifies st.Repr
      ensures st.Valid() && fresh(st.Repr - old(st.Repr)) && st.model == S.SendAll(old(st.model), r, ms)
    {
      hide Store.Valid, Fail, Ok, Stream.Transmissible;
      for i := 0 to |ms|
        invariant st.Valid() && fresh(st.Repr - old(st.Repr)) && |st.model.conns| == |st.peers|
        invariant RoomFor(r, |ms| - i)
        invariant S.SendAll(st.model, r, ms[i..]) == S.SendAll(old(st.model), r, ms)
      {
        EnqueueMessage(r, ms[i]);
        assert ms[i..][1..] == ms[i + 1..];
      }
    }

    method TransferModifiers(from: Node, to: Node, keys: seq<Word>)
      requires st.Valid() && Configured() && InRange(st.model, from) && InRange(st.model, to) && from != to
      requires (from.Remote? ==> RoomFor(from.id, |keys|)) && (to.Remote? ==> RoomFor(to.id, |keys|))
      modifies st.Repr
      ensures st.Valid() && fresh(st.Repr - old(st.Repr))
      ensures st.model == S.TransferModifiers(old(st.model), from, to, keys)
    {
      hide Store.Valid, S.SendAll, Ok, Stream.Transmissible;
      KeysFit(keys, RELEASE);
      KeysFit(keys, PRESS);
      if from.Remote? {
        SendAll(from.id, KeyMsgs(keys, RELEASE));
        SendAllOthers(old(st.model), from.id, KeyMsgs(keys, RELEASE));
      }
      if to.Remote? {
        SendAll(to.id, KeyMsgs(keys, PRESS));
      }
    }

    /** The switch proper.  With enough room it sends nothing on a closed channel. */
    method Switch(to: Node, keys: seq<Word>)
      requires st.Valid() && Configured() && Inv(st.model)
      requires Reachable(st.model, to) && to != st.model.focused && SwitchFits(st.model, to, keys)
      modifies st.Repr
      ensures st.Valid() && fresh(st.Repr - old(st.Repr)) && st.model == S.Switch(old(st.model), to, keys)
    {
      hide Store.Valid, S.IndicateSwitch, S.TransferClipboard, S.TransferModifiers, Ok, Inv, SwitchFits, Wf;
      hide Stream.Transmissible;
      var from := st.focused;
      IndicationRoom(st.model, to, keys);
      CanSendAll(st.model, from, to);
      IndicateSwitch(from, to);
      if from.Remote? && to.Master? {
        st.SetFocus(st.focused, st.last, false);
      } else if from.Master? && to.Remote? {
        st.SetFocus(st.focused, st.last, true);
      }
      ClipboardRoom(st.model, from, to, |keys|);
      TransferClipboard(from, to);
      TransferModifiers(from, to, keys);
      st.SetFocus(to, st.focused, st.grabbed);
    }

    // ---------------------------------------------------------------- what the event loop calls

    /** True exactly when the focus moved. */
    method FocusNode(target: Option<Node>, keys: seq<Word>, viaHotkey: bool) returns (switched: bool)
      requires st.Valid() && Configured() && Inv(st.model)
      requires (target.Some? ==> InRange(st.model, target.value)) && KeySet(keys) == st.model.held
      requires FocusFits(st.model, target, keys)
      modifies st.Repr
      ensures st.Valid() && fresh(st.Repr - old(st.Repr)) && Inv(st.model)
      ensures st.model == S.FocusNode(old(st.model), target, keys, viaHotkey)
      ensures switched <==> Switches(old(st.model), target)
    {
      hide Store.Valid, S.IndicateSwitch, S.Switch, S.ReconnectRemote, Inv, SwitchFits, Wf, KeySet;
      hide Stream.Transmissible, Ok;
      FocusKeepsExactly(st.model, target, keys, viaHotkey);
      var to := st.focused;
      if target.Some? {
        var away := false;
        if target.value.Remote? {
          st.Inside(target.value.id);
          away := !st.peers[target.value.id].state.Connected?;
        }
        if away {
          ReconnectKeeps(st.model, target.value.id);
          var started := ReconnectRemote(target.value.id);
        } else {
          to := target.value;
        }
      }
      switched := to != st.focused;
      if switched {
        Switch(to, keys);
      } else if st.cfg.nullSwitch.Always? || (st.cfg.nullSwitch.HotkeyOnly? && viaHotkey) {
        CanSendAll(st.model, to, to);
        IndicateSwitch(to, to);
      }
    }

    method HandleReady(r: nat, msg: Message)
      requires st.Valid() && Configured() && r < |st.peers| && msg.Ready?
      requires st.model.conns[r].open && st.model.conns[r].failcount >= 0
      modifies st.Repr
      ensures st.Valid() && fresh(st.Repr - old(st.Repr))
      ensures st.model == S.HandleMessage(old(st.model), r, msg)
    {
      hide Store.Valid, Fail, Transition, Wf, Stream.Transmissible, Ok, Peer.View;
      st.Inside(r);
      if !st.peers[r].state.SettingUp? {
        FailRemote(r);
      } else {
        st.Book(r, Connected, 0, st.peers[r].timer);
        if st.cfg.hint.DimInactive? {
          TransitionBrightness(Remote(r), st.cfg.hint.dim);
        }
      }
    }

    method HandleClipboard(r: nat, msg: Message)
      requires st.Valid() && Configured() && r < |st.peers| && msg.SetClipboard? && Stream.Transmissible(msg)
      requires CanSend(st.model.focused)
      modifies st.Repr
      ensures st.Valid() && fresh(st.Repr - old(st.Repr))
      ensures st.model == S.HandleMessage(old(st.model), r, msg)
    {
      hide Store.Valid, Enqueue, Wf, Stream.Transmissible, Ok;
      st.SetClip(msg.text);
      if st.focused.Remote? {
        EnqueueMessage(st.focused.id, SetClipboard(st.clip));
      }
    }

    method HandleMessage(r: nat, msg: Message)
      requires st.Valid() && Configured() && Inv(st.model) && r < |st.peers| && st.model.conns[r].open
      requires Stream.Transmissible(msg)
      modifies st.Repr
      ensures st.Valid() && fresh(st.Repr - old(st.Repr)) && Inv(st.model)
      ensures st.model == S.HandleMessage(old(st.model), r, msg)
    {
      hide Store.Valid, Fail, Transition, Enqueue, Inv, Wf, Stream.Transmissible, Ok, Put;
      HandleKeeps(st.model, r, msg);
      CountsWithin(st.model, r);
      match msg {
        case Ready(_) => HandleReady(r, msg);
        case SetClipboard(text) =>
          CanSendAll(st.model, st.focused, Master);
          HandleClipboard(r, msg);
        case LogMsg(_) =>
        case MousePos(_) =>
        case _ => FailRemote(r);
      }
    }

    /** One iteration of the timer loop. */
    method RunHead()
      requires st.Valid() && Configured() && Inv(st.model)
      requires st.model.calls != [] && st.model.calls[0].time <= st.model.now
      modifies st.Repr
      ensures st.Valid() && fresh(st.Repr - old(st.Repr)) && Inv(st.model)
      ensures st.model == FireHead(old(st.model))
    {
      hide Store.Valid, S.SetupRemote, Enqueue, Inv, Stream.Transmissible, Ok, Peer.View, Wf;
      FireKeeps(st.model);
      WfTask(st.model);
      var what := st.Pop();
      match what {
        case Reconnect(r) =>
          st.Inside(r);
          CountsWithin(old(st.model), r);
          st.Book(r, st.peers[r].state, st.peers[r].failcount, None);
          SetupRemote(r);
        case Brightness(Master, _) =>
        case Brightness(Remote(r), level) =>
          st.Inside(r);
          if st.peers[r].state.Connected? {
            CanSendAll(old(st.model), Remote(r), Master);
            Stream.ShortFits(SetBrightness(level));
            EnqueueMessage(r, SetBrightness(level));
          }
      }
    }

    /** Everything due is called, and the loop ends although callbacks make further calls due. */
    method RunScheduledCalls(when: nat)
      requires st.Valid() && Configured() && Inv(st.model) && when <= st.model.now
      modifies st.Repr
      ensures st.Valid() && fresh(st.Repr - old(st.Repr)) && Inv(st.model)
      ensures st.model == FireDue(old(st.model), when)
      ensures st.model.calls != [] ==> st.model.calls[0].time > when
    {
      hide Store.Valid, FireHead, Inv, Stream.Transmissible, Ok, Wf, Ups;
      while st.timers.calls != [] && st.timers.calls[0].time <= when
        invariant st.Valid() && fresh(st.Repr - old(st.Repr)) && Inv(st.model) && when <= st.model.now
        invariant FireDue(st.model, when) == FireDue(old(st.model), when)
        decreases Ups(st.model.conns), |st.model.calls|
      {
        FireEnds(st.model);
        RunHead();
      }
    }

    /** The timer half of one turn of the event loop: everything due is called, and the wait that
        follows ends exactly at the next deadline. */
    method Turn(now: nat) returns (w: Wait)
      requires st.Valid() && Configured() && Inv(st.model) && st.model.now <= now
      modifies st.Repr
      ensures st.Valid() && fresh(st.Repr - old(st.Repr)) && Inv(st.model)
      ensures Inv(old(st.model).(now := now)) && st.model == FireDue(old(st.model).(now := now), now)
      ensures w.Forever? <==> st.model.calls == []
      ensures st.model.calls != [] ==> st.model.calls[0].time > now && w.usec < 1_000_000
      ensures st.model.calls != [] && st.model.calls[0].time < WRAP ==>
        now + w.sec * 1_000_000 + w.usec == st.model.calls[0].time
    {
      hide Store.Valid, FireDue, Inv, Stream.Transmissible, Ok, Wf;
      TickKeeps(st.model, now);
      st.Tick(now);
      RunScheduledCalls(now);
      w := st.timers.GetSelectTimeout(now);
    }

    method SendClick(button: Word, pr: Word)
      requires st.Valid() && Configured() && Inv(st.model) && ClickFits(st.model, button, pr)
      modifies st.Repr
      ensures st.Valid() && fresh(st.Repr - old(st.Repr)) && Inv(st.model)
      ensures st.model == S.SendClick(old(st.model), button, pr)
    {
      hide Store.Valid, S.SendAll, Inv, Stream.Transmissible, Ok, Wf, ClickMsgs;
      ClickKeepsExactly(st.model, button, pr);
      if st.focused.Remote? {
        var r := st.focused.id;
        CanSendAll(st.model, st.focused, Master);
        st.Inside(r);
        ClicksFit(st.peers[r].config.scrollmult, button, pr);
        SendAll(r, ClickMsgs(st.peers[r].config.scrollmult, button, pr));
      }
    }

    /** Pointer motion for the focused remote, if any. */
    method SendMove(msg: Message)
      requires st.Valid() && Configured() && Inv(st.model) && (msg.MoveRel? || msg.MoveAbs?)
      modifies st.Repr
      ensures st.Valid() && fresh(st.Repr - old(st.Repr)) && Inv(st.model)
      ensures st.model == ToFocused(old(st.model), msg)
    {
      hide Store.Valid, Enqueue, Inv, Stream.Transmissible, Ok;
      InputKeeps(st.model, msg);
      CanSendAll(st.model, st.focused, Master);
      Stream.ShortFits(msg);
      if st.focused.Remote? {
        EnqueueMessage(st.focused.id, msg);
      }
    }

    /** A key goes down or up at the master; the focused remote, if any, is told. */
    method SendKey(key: Word, pr: Word)
      requires st.Valid() && Configured() && Inv(st.model)
      modifies st.Repr
      ensures st.Valid() && fresh(st.Repr - old(st.Repr)) && Inv(st.model)
      ensures st.model == KeyStep(old(st.model), key, pr)
    {
      hide Store.Valid, Enqueue, Inv, Stream.Transmissible, Ok, PressedAfter;
      KeyKeeps(st.model, key, pr);
      CanSendAll(st.model, st.focused, Master);
      Stream.ShortFits(KeyEvent(key, pr));
      st.SetHeld(PressedAfter(st.model.held, KeyEvent(key, pr), st.model.cfg.modifiers));
      if st.focused.Remote? {
        EnqueueMessage(st.focused.id, KeyEvent(key, pr));
      }
    }

    /** The descriptor of `r` is writable: bytes of the frame in progress, or of the next message, go
        to the kernel.  Exactly if none was in progress, a message leaves the queue for that. */
    method WriteReady(r: nat, fd: Pipe, replies: seq<Reply>, estimate: nat)
      returns (failed: bool, ghost k: nat, ghost used: nat, ghost left: seq<Byte>)
      requires st.Valid() && Configured() && Inv(st.model)
      requires r < |st.peers| && st.model.conns[r].open && fd !in st.Repr
      requires Bounds(st.peers[r].chan.queued, st.peers[r].chan.unsent, estimate)
      modifies st.Repr, fd
      ensures st.Valid() && fresh(st.Repr - old(st.Repr)) && Inv(st.model)
      ensures Written(old(st.peers[r].chan.queued), old(st.peers[r].chan.unsent), old(fd.bytes), replies,
                      failed, k, used, fd.bytes, left)
      ensures !failed ==> left == st.peers[r].chan.unsent
      ensures st.model ==
        if failed then Fail(old(st.model), r)
        else if old(st.peers[r].chan.unsent) == [] && Queued(old(st.model).conns[r]) > 0 then Taken(old(st.model), r)
        else old(st.model)
    {
      hide Store.Valid, Fail, Inv, Stream.Transmissible, Ok, Written, Wf, Peer.View;
      CountsWithin(st.model, r);
      FailLiveKeeps(st.model, r);
      FailClosed(st.model, r);
      TakenKeeps(st.model, r);
      failed, k, used := st.WriteReady(r, fd, replies, estimate);
      left := st.peers[r].chan.unsent;
      if failed {
        FailRemote(r);
      }
    }

    /** The descriptor of `r` is readable: what one frame says is handled. */
    method ReadReady(r: nat, fd: Pipe, replies: seq<Reply>)
      returns (got: Parse<Message>, failed: bool, ghost k: nat, ghost used: nat, ghost kept: seq<Byte>)
      requires st.Valid() && Configured() && Inv(st.model)
      requires r < |st.peers| && st.model.conns[r].open && fd !in st.Repr
      modifies st.Repr, fd
      ensures st.Valid() && fresh(st.Repr - old(st.Repr)) && Inv(st.model)
      ensures k <= |old(fd.bytes)| && fd.bytes == old(fd.bytes)[k..]
      ensures var b := old(st.peers[r].chan.recvd) + old(fd.bytes)[..k];
        Outcome(b, got, failed, kept, replies, used, fd.bytes == [])
      ensures !failed && got.Bad? ==> kept == st.peers[r].chan.recvd
      ensures st.model ==
        if failed then Fail(old(st.model), r)
        else if got.Got? then S.HandleMessage(Received(old(st.model), r), r, got.value)
        else old(st.model)
    {
      hide Store.Valid, Fail, Inv, Stream.Transmissible, Ok, Outcome, Wf, Peer.View, S.HandleMessage;
      CountsWithin(st.model, r);
      FailLiveKeeps(st.model, r);
      FailClosed(st.model, r);
      CountReceived(st.model, r);
      got, failed, k, used := st.ReadReady(r, fd, replies);
      kept := st.peers[r].chan.recvd;
      PutSame(old(st.model), r);
      if failed {
        FailRemote(r);
      } else if got.Got? {
        HandleMessage(r, got.value);
      }
    }

    method OnRemote(a: ForAll, r: nat) returns (counted: bool)
      requires st.Valid() && Configured() && Inv(st.model) && r < |st.peers|
      requires a.StepLogLevel? && st.model.conns[r].enabled ==> st.model.conns[r].open
      modifies st.Repr
      ensures st.Valid() && fresh(st.Repr - old(st.Repr)) && Inv(st.model)
      ensures st.model == S.OnRemote(old(st.model), a, r) && counted == Counts(old(st.model).conns[r], a)
    {
      hide Store.Valid, S.ReconnectRemote, S.HaltRemote, Enqueue, Inv, Stream.Transmissible, Ok, Wf, Peer.View;
      OnRemoteKeeps(st.model, a, r);
      counted := false;
      st.Inside(r);
      CountsWithin(st.model, r);
      var p := st.peers[r];
      if p.config.enabled {
        match a {
          case ReconnectAll => counted := ReconnectRemote(r);
          case HaltAll => counted := HaltRemote(r);
          case ClearClipboards =>
            if p.state.Connected? {
              EmptyClipboard();
              OpenWhenConnected(st.model, r);
              EnqueueMessage(r, SetClipboard([]));
            }
          case StepLogLevel(level) =>
            Stream.ShortFits(SetLogLevel(level));
            EnqueueMessage(r, SetLogLevel(level));
        }
      }
    }

    /** A hotkey action that walks the list of remotes; returns how many attempts it started or
        halted. */
    method Act(a: ForAll) returns (count: nat)
      requires st.Valid() && Configured() && Inv(st.model) && ActionFits(st.model, a)
      modifies st.Repr
      ensures st.Valid() && fresh(st.Repr - old(st.Repr)) && Inv(st.model)
      ensures st.model == OnFirst(old(st.model), a, |st.peers|) && count == HowMany(old(st.model).conns, a)
    {
      hide Store.Valid, S.OnRemote, OnFirst, Inv, Stream.Transmissible, Ok, Wf, Peer.View, Counts, HowMany;
      count := 0;
      NoneYet(st.model, a);
      EmptyClipboard();
      match a {
        case ClearClipboards => st.SetClip([]);
        case StepLogLevel(level) => st.SetLevel(level);
        case _ =>
      }
      for r := 0 to |st.peers|
        invariant st.Valid() && fresh(st.Repr - old(st.Repr)) && Inv(st.model)
        invariant st.model == OnFirst(old(st.model), a, r) && count == HowMany(old(st.model).conns[..r], a)
      {
        OneFurther(old(st.model), a, r);
        var counted := OnRemote(a, r);
        if counted {
          count := count + 1;
        }
      }
      assert old(st.model).conns[..|st.peers|] == old(st.model).conns;
    }

    /** Start-up: a connection attempt to every enabled remote. */
    method Start()
      requires st.Valid() && Configured() && Startup(st.model) && st.model.held <= st.model.cfg.modifiers
      modifies st.Repr
      ensures st.Valid() && fresh(st.Repr - old(st.Repr)) && Inv(st.model)
      ensures st.model == SetupAll(old(st.model), |st.peers|)
    {
      hide Store.Valid, S.SetupRemote, SetupAll, Inv, Stream.Transmissible, Ok, Wf, Peer.View, Startup;
      SetupAllOk(st.model, |st.peers|);
      SetupNext(st.model, 0);
      for r := 0 to |st.peers|
        invariant st.Valid() && fresh(st.Repr - old(st.Repr))
        invariant st.model == SetupAll(old(st.model), r)
      {
        SetupNext(old(st.model), r);
        st.Inside(r);
        if st.peers[r].config.enabled {
          SetupRemote(r);
        }
      }
    }
  }

  /** Is this remote among those that an action starts or halts an attempt for? */
  predicate Counts(c: Conn, a: ForAll) {
    c.enabled && ((a.ReconnectAll? && !c.state.Connected?) || (a.HaltAll? && (c.state.SettingUp? || c.state.Failed?)))
  }

  /** Counted are exactly the remotes for which the action begins a session, or gives one up. */
  lemma CountsExactly(m: Core, a: ForAll, q: nat)
    requires Inv(m) && q < |m.conns| && (a.ReconnectAll? || a.HaltAll?)
    ensures var c, c' := m.conns[q], OnFirst(m, a, |m.conns|).conns[q];
      Counts(c, a) <==>
        if a.ReconnectAll? then c'.session != c.session else c'.state.PermFailed? && !c.state.PermFailed?
  {
    hide Inv, Wf, OnFirst;
    ReconnectAllRenews(m, |m.conns|);
    HaltLeavesNothing(m, q);
  }

  function HowMany(conns: seq<Conn>, a: ForAll): nat {
    if conns == [] then 0
    else HowMany(conns[..|conns| - 1], a) + if Counts(conns[|conns| - 1], a) then 1 else 0
  }

  lemma SetupNext(m: Core, r: nat)
    requires Startup(m) && m.held <= m.cfg.modifiers
    ensures Wf(m) && SetupAll(m, 0) == m
    ensures r < |m.conns| ==> var m1 := SetupAll(m, r);
      && SetupAll(m, r + 1) == (if m1.conns[r].enabled then S.SetupRemote(m1, r) else m1)
      && m1.conns[r].failcount >= 0
  {
    hide Inv, S.SetupRemote, Wf;
    SetupAllOk(m, 0);
    if r < |m.conns| {
      SetupAllOk(m, r);
      assert Pristine(m.conns[r]);
    }
  }

  lemma NoneYet(m: Core, a: ForAll)
    requires Inv(m) && ActionFits(m, a)
    ensures Inv(OnFirst(m, a, 0)) && HowMany(m.conns[..0], a) == 0
    ensures OnFirst(m, a, 0) ==
      match a
      case ClearClipboards => m.(clip := [])
      case StepLogLevel(level) => m.(loglevel := level)
      case _ => m
  {
    hide Inv;
    OnFirstKeeps(m, a, 0);
  }

  lemma OneFurther(m: Core, a: ForAll, r: nat)
    requires Inv(m) && ActionFits(m, a) && r < |m.conns|
    ensures Inv(OnFirst(m, a, r)) && OnFirst(m, a, r).conns[r] == m.conns[r]
    ensures OnFirst(m, a, r + 1) == S.OnRemote(OnFirst(m, a, r), a, r)
    ensures HowMany(m.conns[..r + 1], a) == HowMany(m.conns[..r], a) + if Counts(m.conns[r], a) then 1 else 0
    ensures a.StepLogLevel? && m.conns[r].enabled ==> m.conns[r].open
  {
    hide Inv, S.OnRemote, Counts;
    OnFirstKeeps(m, a, r);
    assert m.conns[..r + 1][..r] == m.conns[..r];
  }

  function Taken(m: Core, r: nat): Core
    requires Wf(m) && r < |m.conns|
  {
    Put(m, r, m.conns[r].(taken := m.conns[r].taken + 1))
  }

  function Received(m: Core, r: nat): (m': Core)
    requires Wf(m) && r < |m.conns|
    ensures Wf(m') && |m'.conns| == |m.conns|
  {
    Put(m, r, m.conns[r].(recvd := m.conns[r].recvd + 1))
  }

  lemma TakenKeeps(m: Core, r: nat)
    requires Inv(m) && r < |m.conns| && m.conns[r].open
    ensures Queued(m.conns[r]) > 0 ==> Inv(Taken(m, r))
    ensures Put(m, r, m.conns[r]) == m
  {
    hide Inv;
    PutSame(m, r);
    if Queued(m.conns[r]) > 0 {
      CountTaken(m, r);
    }
  }

  lemma PutSame(m: Core, r: nat)
    requires Wf(m) && r < |m.conns|
    ensures Put(m, r, m.conns[r]) == m
  {
  }

  /** Closing twice is closing once. */
  lemma FailClosed(m: Core, r: nat)
    requires Wf(m) && r < |m.conns|
    ensures Fail(Put(m, r, Closed(m.conns[r])), r) == Fail(m, r)
    ensures Put(m, r, Closed(m.conns[r])).conns[r].failcount == m.conns[r].failcount
  {
    hide Insert, Wf, FocusMaster;
    assert Put(Put(m, r, Closed(m.conns[r])), r, Closed(m.conns[r])) == Put(m, r, Closed(m.conns[r]));
  }

  lemma CountsWithin(m: Core, r: nat)
    requires Inv(m) && r < |m.conns|
    ensures 0 <= m.conns[r].failcount
  {
    hide Pressed, ReconIds, OwnTimer, ListOk;
    Split(m, r);
  }

  lemma ClicksFit(scrollmult: int, button: Word, pr: Word)
    ensures AllFit(ClickMsgs(scrollmult, button, pr))
  {
    hide Stream.Transmissible;
    var ms := ClickMsgs(scrollmult, button, pr);
    forall i | 0 <= i < |ms|
      ensures Stream.Transmissible(ms[i])
    {
      Stream.ShortFits(ms[i]);
    }
  }

  lemma KeysFit(keys: seq<Word>, pr: Word)
    ensures AllFit(KeyMsgs(keys, pr)) && |KeyMsgs(keys, pr)| == |keys|
  {
    hide Stream.Transmissible;
    forall i | 0 <= i < |keys|
      ensures Stream.Transmissible(KeyMsgs(keys, pr)[i])
    {
      Stream.ShortFits(KeyMsgs(keys, pr)[i]);
    }
  }

  lemma {:induction false} SendAllOthers(m: Core, r: nat, ms: seq<Message>)
    requires Wf(m) && r < |m.conns|
    ensures forall q :: 0 <= q < |m.conns| && q != r ==> S.SendAll(m, r, ms).conns[q] == m.conns[q]
    decreases |ms|
  {
    hide Enqueue, Wf;
    if ms != [] {
      EnqueueFrame(m, r, ms[0]);
      SendAllOthers(Enqueue(m, r, ms[0]), r, ms[1..]);
    }
  }

  /** A connection that can take `n` messages. */
  predicate Takes(c: Conn, n: int) {
    c.open && c.failcount >= 0 && n <= Room(c)
  }

  lemma CanSendAll(m: Core, from: Node, to: Node)
    requires Inv(m) && Reachable(m, from) && Reachable(m, to)
    ensures from.Remote? ==> m.conns[from.id].open && m.conns[from.id].failcount >= 0
    ensures to.Remote? ==> m.conns[to.id].open && m.conns[to.id].failcount >= 0
  {
    hide Inv;
    if from.Remote? {
      OpenWhenConnected(m, from.id);
      CountBound(m, from.id);
    }
    if to.Remote? {
      OpenWhenConnected(m, to.id);
      CountBound(m, to.id);
    }
  }

  /** After the brightness messages of a switch that fits, there is room for the others. */
  lemma IndicationRoom(m: Core, to: Node, keys: seq<Word>)
    requires Inv(m) && Reachable(m, to) && to != m.focused && SwitchFits(m, to, keys)
    ensures var m1 := S.IndicateSwitch(m, m.focused, to);
      && m1.focused == m.focused && m1.last == m.last && m1.grabbed == m.grabbed
      && (m.focused.Remote? ==> Takes(m1.conns[m.focused.id], |keys|))
      && (to.Remote? ==> Takes(m1.conns[to.id], |keys| + if m.focused.Master? then 1 else 0))
  {
    hide Inv, Wf, ListOk, SameButFades, S.IndicateSwitch, KeyMsgs;
    var from := m.focused;
    var d, l := DimMsgs(m.cfg.hint), LiftMsgs(m.cfg.hint);
    KeyMsgsLength(keys, RELEASE);
    KeyMsgsLength(keys, PRESS);
    InvList(m);
    CanSendAll(m, from, to);
    IndicateRoom(m, to);
    FadesList(Append(Append(m, from, d), to, l), S.IndicateSwitch(m, from, to));
    AppendedRoom(m, from, to, d, l);
  }

  /** After the clipboard message, there is room for `n` key events on both sides. */
  lemma ClipboardRoom(m: Core, from: Node, to: Node, n: nat)
    requires Wf(m) && InRange(m, from) && InRange(m, to) && from != to
    requires from.Remote? ==> Takes(m.conns[from.id], n)
    requires to.Remote? ==> Takes(m.conns[to.id], n + if from.Master? then 1 else 0)
    ensures var m3 := S.TransferClipboard(m, from, to);
      && (n > 0 && from.Remote? ==> Takes(m3.conns[from.id], n - 1))
      && (to.Remote? ==> Takes(m3.conns[to.id], n))
  {
    hide Wf, Fail;
    if from.Remote? {
      EnqueueFrame(m, from.id, GetClipboard);
    }
  }

  lemma FailSteps(m: Core, r: nat)
    requires Wf(m) && r < |m.conns|
    ensures var m1 := Disconnect(m, r);
      var c, n := m1.conns[r], m1.conns[r].failcount + 1;
      && m1.cfg == m.cfg && c.failcount == m.conns[r].failcount && TaskInRange(m1, Reconnect(r))
      && if n > m.cfg.maxTries then Fail(m, r) == Put(m1, r, c.(state := PermFailed, failcount := n, timer := c.timer))
         else
           var m2 := ScheduleTask(m1, Reconnect(r), Backoff.Delay(n, m.cfg.maxInterval));
           && m2.conns == m1.conns
           && Fail(m, r) == Put(m2, r, c.(state := Failed, failcount := n, timer := Some(m1.nextId)))
  {
    hide Disconnect, Insert, Wf;
    DisconnectConn(m, r);
  }

  lemma SetupSteps(m: Core, r: nat)
    requires Wf(m) && r < |m.conns|
    ensures var c := m.conns[r];
      var m1 := Put(m, r, Closed(c).(state := SettingUp, open := true, session := c.session + 1));
      && m1.conns[r].open && m1.conns[r].failcount == c.failcount && m1.conns[r].params == c.params
      && m1.loglevel == m.loglevel
      && S.SetupRemote(m, r) == Enqueue(m1, r, Setup(PROT_VERSION, m1.loglevel, m1.conns[r].params))
  {
    hide Enqueue, Wf;
  }

  lemma SetupFitsAt(params: seq<KvPair>, level: Word)
    requires SetupFits(params)
    ensures Stream.Transmissible(Setup(PROT_VERSION, level, params))
  {
  }

  /** No attempt in progress, and none waited for. */
  function Abandoned(m: Core, r: nat): (m': Core)
    requires Wf(m) && r < |m.conns|
    ensures Shape(m, m')
  {
    var c := m.conns[r];
    var m1 := if c.timer.Some? then CancelTask(m, c.timer.value) else m;
    if c.state.SettingUp? then Disconnect(m1, r) else m1
  }

  lemma ReconnectSteps(m: Core, r: nat)
    requires Wf(m) && r < |m.conns|
    ensures S.ReconnectRemote(m, r) ==
      if m.conns[r].state.Connected? then m
      else var m2 := Abandoned(m, r); S.SetupRemote(Put(m2, r, m2.conns[r].(failcount := 0)), r)
  {
    hide S.SetupRemote, Disconnect, CancelTask, Wf;
  }

}