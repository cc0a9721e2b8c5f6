/** What each operation of the master does, for every state: the messages it sends and to whom, the
    calls it schedules, and what it leaves alone. */
module Effects {
  import opened Base
  import opened Proto
  import opened Timers
  import opened MasterSpec
  import opened MasterInv
  import opened Focus
  import opened Sessions
  import Backoff

  // ---------------------------------------------------------------- brightness

  /** The calls of a fade that begins at `now`: one for each later step, with its level and delay. */
  ghost function FadeCalls(nextId: nat, now: nat, node: Node, steps: seq<(nat, Word)>): seq<Call<Task>> {
    seq(|steps|, i requires 0 <= i < |steps| => Call(nextId + i, now + steps[i].0, Brightness(node, steps[i].1)))
  }

  lemma InsertOne(calls: seq<Call<Task>>, c: Call<Task>)
    ensures multiset(Insert(calls, c)) == multiset(calls) + multiset{c}
  {
    var i := Place(calls, c.time);
    assert calls == calls[..i] + calls[i..];
  }

  lemma FirstFadeCall(nextId: nat, now: nat, node: Node, steps: seq<(nat, Word)>)
    requires steps != []
    ensures var c := Call(nextId, now + steps[0].0, Brightness(node, steps[0].1));
      multiset(FadeCalls(nextId, now, node, steps)) ==
        multiset{c} + multiset(FadeCalls(nextId + 1, now, node, steps[1..]))
  {
    var c := Call(nextId, now + steps[0].0, Brightness(node, steps[0].1));
    assert FadeCalls(nextId, now, node, steps) == [c] + FadeCalls(nextId + 1, now, node, steps[1..]);
  }

  /** A fade schedules exactly its steps, and nothing else changes. */
  lemma {:induction false} FadesScheduled(m: Core, node: Node, steps: seq<(nat, Word)>)
    requires Wf(m) && InRange(m, node)
    ensures Faded(m, ScheduleFade(m, node, steps), node, steps)
    decreases |steps|
  {
    hide Insert, Wf, FadeCalls;
    if steps == [] {
      NoFade(m, node);
    } else {
      var what := Brightness(node, steps[0].1);
      assert TaskInRange(m, what) by { BrightnessInRange(m, node, steps[0].1); }
      InsertOne(m.calls, Call(m.nextId, m.now + steps[0].0, what));
      FadesScheduled(ScheduleTask(m, what, steps[0].0), node, steps[1..]);
      FirstFadeCall(m.nextId, m.now, node, steps);
    }
  }

  function DimSteps(hint: Hint): seq<(nat, Word)> {
    if hint.DimInactive? then hint.dim.steps else []
  }

  function LiftSteps(hint: Hint): seq<(nat, Word)> {
    match hint
    case NoHint => []
    case DimInactive(_, lift) => lift.steps
    case FlashActive(flash) => flash.steps
  }

  /** `m'` differs from `m` only by these fades. */
  ghost predicate Faded(m: Core, m': Core, node: Node, steps: seq<(nat, Word)>) {
    && m' == m.(calls := m'.calls, nextId := m.nextId + |steps|)
    && multiset(m'.calls) == multiset(m.calls) + multiset(FadeCalls(m.nextId, m.now, node, steps))
  }

  lemma TransitionExact(m: Core, node: Node, fade: Fade)
    requires Wf(m) && InRange(m, node) && (node.Remote? ==> Room(m.conns[node.id]) >= 1)
    ensures Faded(Append(m, node, [SetBrightness(fade.first)]), Transition(m, node, fade), node, fade.steps)
  {
    hide Wf, Enqueue, ScheduleFade;
    var m1 := Append(m, node, [SetBrightness(fade.first)]);
    if node.Remote? {
      EnqueueRoom(m, node.id, SetBrightness(fade.first));
    }
    FadesScheduled(m1, node, fade.steps);
  }

  /** The indication of a switch: the node left is dimmed and the one gained lit up, or just flashed,
      each by a first level now and the later ones in time. */
  lemma IndicationExact(m: Core, from: Node, to: Node) returns (m1: Core)
    requires Wf(m) && InRange(m, from) && InRange(m, to) && from != to
    requires from.Remote? ==> Room(m.conns[from.id]) >= |DimMsgs(m.cfg.hint)|
    requires to.Remote? ==> Room(m.conns[to.id]) >= |LiftMsgs(m.cfg.hint)|
    ensures Wf(m1) && |m1.conns| == |m.conns|
    ensures Faded(Append(m, from, DimMsgs(m.cfg.hint)), m1, from, DimSteps(m.cfg.hint))
    ensures Faded(Append(m1, to, LiftMsgs(m.cfg.hint)), IndicateSwitch(m, from, to), to, LiftSteps(m.cfg.hint))
  {
    hide Wf, Transition;
    AppendNone(m, from);
    NoFade(m, from);
    match m.cfg.hint
    case NoHint =>
      m1 := m;
      AppendNone(m, to);
      NoFade(m, to);
    case DimInactive(dim, lift) =>
      TransitionExact(m, from, dim);
      m1 := Transition(m, from, dim);
      TransitionExact(m1, to, lift);
    case FlashActive(flash) =>
      m1 := m;
      TransitionExact(m, to, flash);
  }

  lemma NoFade(m: Core, node: Node)
    ensures Faded(m, m, node, [])
  {
  }

  /** The indication when the focus stays: only lighting up. */
  lemma NullIndicationExact(m: Core, to: Node)
    requires Wf(m) && InRange(m, to) && (to.Remote? ==> Room(m.conns[to.id]) >= |LiftMsgs(m.cfg.hint)|)
    ensures Faded(Append(m, to, LiftMsgs(m.cfg.hint)), IndicateSwitch(m, to, to), to, LiftSteps(m.cfg.hint))
  {
    hide Wf, Transition;
    match m.cfg.hint
    case NoHint =>
      AppendNone(m, to);
      NoFade(m, to);
    case DimInactive(dim, lift) => TransitionExact(m, to, lift);
    case FlashActive(flash) => TransitionExact(m, to, flash);
  }

  /** When the focused remote goes down, the master lights up. */
  lemma LosingFocusExact(m: Core, r: nat)
    requires Wf(m) && r < |m.conns|
    ensures var m1 := m.(conns := m.conns[r := Closed(m.conns[r])]);
      if m.focused == Remote(r) then
        var m2 := m1.(grabbed := false, last := Remote(r), focused := Master);
        Faded(m2, Disconnect(m, r), Master, LiftSteps(m.cfg.hint))
      else Disconnect(m, r) == m1
  {
    hide Wf, ScheduleFade;
    var m1 := Put(m, r, Closed(m.conns[r]));
    WfFocus(m1);
    if m.focused == Remote(r) {
      var m2 := m1.(grabbed := false, last := Remote(r), focused := Master);
      FadesScheduled(m2, Master, LiftSteps(m.cfg.hint));
      NoFade(m2, Master);
    }
  }

  // ---------------------------------------------------------------- focus requests that do not switch

  /** Does a request that does not switch show itself? */
  predicate Shows(cfg: Config, viaHotkey: bool) {
    cfg.nullSwitch.Always? || (cfg.nullSwitch.HotkeyOnly? && viaHotkey)
  }

  /** A request that does not switch: an absent remote is called again, from a failure count of zero and
      whatever came of earlier attempts, and no other connection changes; the node that keeps the focus
      lights up if so configured, and otherwise that is all. */
  lemma StayingExact(m: Core, target: Option<Node>, keys: seq<Word>, viaHotkey: bool)
    requires Inv(m) && (target.Some? ==> InRange(m, target.value)) && !Switches(m, target)
    requires m.focused.Remote? ==> Room(m.conns[m.focused.id]) >= |LiftMsgs(m.cfg.hint)|
    ensures var m' := FocusNode(m, target, keys, viaHotkey);
      && m'.focused == m.focused && m'.last == m.last && m'.grabbed == m.grabbed
      && forall q :: 0 <= q < |m.conns| ==>
           var c := m.conns[q];
           m'.conns[q] ==
             if target == Some(Remote(q)) && !c.state.Connected? then Calling(m, c.(failcount := 0))
             else if m.focused == Remote(q) && Shows(m.cfg, viaHotkey) then c.(sent := c.sent + LiftMsgs(m.cfg.hint))
             else c
    ensures !Shows(m.cfg, viaHotkey) && (target.None? || Reachable(m, target.value)) ==>
      FocusNode(m, target, keys, viaHotkey) == m
  {
    hide Inv, Wf, IndicateSwitch, ReconnectRemote;
    var away := target.Some? && target.value.Remote? && !m.conns[target.value.id].state.Connected?;
    var m1 := if away then ReconnectRemote(m, target.value.id) else m;
    if away {
      ReconnectKeeps(m, target.value.id);
      ReconnectRenews(m, target.value.id);
      ReconnectFocus(m, target.value.id);
    }
    NullIndicationExact(m1, m1.focused);
  }

  /** The same for the absent remote even if the lighting up fails the node that keeps the focus. */
  lemma CalledAgain(m: Core, r: nat, keys: seq<Word>, viaHotkey: bool)
    requires Inv(m) && r < |m.conns| && !m.conns[r].state.Connected?
    ensures FocusNode(m, Some(Remote(r)), keys, viaHotkey).conns[r] == Calling(m, m.conns[r].(failcount := 0))
  {
    hide Inv, Wf, Transition, ReconnectRemote;
    var m1 := ReconnectRemote(m, r);
    ReconnectKeeps(m, r);
    ReconnectRenews(m, r);
    NotFocused(m, r);
    match m.cfg.hint
    case NoHint =>
    case DimInactive(_, lift) => TransitionOthers(m1, m1.focused, lift);
    case FlashActive(flash) => TransitionOthers(m1, m1.focused, flash);
  }

  lemma ReconnectFocus(m: Core, r: nat)
    requires Inv(m) && r < |m.conns|
    ensures var m' := ReconnectRemote(m, r); m'.focused == m.focused && m'.last == m.last && m'.grabbed == m.grabbed
  {
    hide Inv, SetupRemote, Disconnect, Remove, Wf;
    var c := m.conns[r];
    if !c.state.Connected? {
      NotFocused(m, r);
      var m1 := if c.timer.Some? then CancelTask(m, c.timer.value) else m;
      DisconnectConn(m1, r);
      var m2 := if c.state.SettingUp? then Disconnect(m1, r) else m1;
      SetupRenews(Put(m2, r, m2.conns[r].(failcount := 0)), r);
    }
  }

  // ---------------------------------------------------------------- input

  /** An input event reaches the focused remote and nobody else; with the master focused it goes
      nowhere. */
  lemma ToFocusedExact(m: Core, msg: Message)
    requires Wf(m) && (m.focused.Remote? ==> Room(m.conns[m.focused.id]) >= 1)
    ensures ToFocused(m, msg) ==
      match m.focused
      case Master => m
      case Remote(q) => m.(conns := m.conns[q := m.conns[q].(sent := m.conns[q].sent + [msg])])
  {
    if m.focused.Remote? {
      EnqueueRoom(m, m.focused.id, msg);
    }
  }

  /** So does every key, a modifier or not; of the keys held, at most this one changes, and it only if
      it is a modifier. */
  lemma KeyExact(m: Core, key: Word, pr: Word)
    requires Wf(m) && (m.focused.Remote? ==> Room(m.conns[m.focused.id]) >= 1)
    ensures var m' := KeyStep(m, key, pr);
      && m' == m.(conns := m'.conns, held := m'.held)
      && (forall q :: 0 <= q < |m.conns| ==>
            var c := m.conns[q];
            m'.conns[q] == if m.focused == Remote(q) then c.(sent := c.sent + [KeyEvent(key, pr)]) else c)
      && (forall k :: k in m'.held <==>
            if k == key && key in m.cfg.modifiers then pr == PRESS else k in m.held)
  {
    var m1 := m.(held := PressedAfter(m.held, KeyEvent(key, pr), m.cfg.modifiers));
    ToFocusedExact(m1, KeyEvent(key, pr));
  }

  /** An ordinary click is one message.  A turn of the wheel is as many as the multiplier says, of the
      same button or, for a negative multiplier, of the opposite one. */
  lemma ClickContents(scrollmult: int, button: Word, pr: Word)
    ensures var ms := ClickMsgs(scrollmult, button, pr);
      if button == SCROLLUP || button == SCROLLDOWN then
        && |ms| == (if scrollmult < 0 then -scrollmult else scrollmult)
        && forall i :: 0 <= i < |ms| ==>
             && ms[i].ClickEvent? && ms[i].clickPr == pr && ms[i].button in {SCROLLUP, SCROLLDOWN}
             && (ms[i].button == button <==> scrollmult > 0)
      else ms == [ClickEvent(button, pr)]
  {
  }

  lemma ClickExact(m: Core, button: Word, pr: Word)
    requires Wf(m)
    requires m.focused.Remote? ==>
      var c := m.conns[m.focused.id]; |ClickMsgs(c.scrollmult, button, pr)| <= Room(c)
    ensures SendClick(m, button, pr) ==
      match m.focused
      case Master => m
      case Remote(q) =>
        var c := m.conns[q];
        m.(conns := m.conns[q := c.(sent := c.sent + ClickMsgs(c.scrollmult, button, pr))])
  {
    hide ClickMsgs, SendAll;
    if m.focused.Remote? {
      SendAllRoom(m, m.focused.id, ClickMsgs(m.conns[m.focused.id].scrollmult, button, pr));
    }
  }

  // ---------------------------------------------------------------- messages received

  /** READY while setting up: the remote is connected and its failures are forgotten; if inactive nodes
      are dimmed it is told to dim, and if even that is one too many, it fails once from zero. */
  lemma ReadyExact(m: Core, r: nat, msg: Message)
    requires Inv(m) && r < |m.conns| && m.conns[r].state.SettingUp? && msg.Ready?
    ensures var m', c := HandleMessage(m, r, msg), m.conns[r];
      && m'.conns == m.conns[r := m'.conns[r]] && m'.focused == m.focused && m'.grabbed == m.grabbed
      && if Room(c) >= |DimMsgs(m.cfg.hint)| then
           && m'.conns[r] == c.(state := Connected, failcount := 0, sent := c.sent + DimMsgs(m.cfg.hint))
           && multiset(m'.calls) ==
                multiset(m.calls) + multiset(FadeCalls(m.nextId, m.now, Remote(r), DimSteps(m.cfg.hint)))
         else
           && m'.conns[r].failcount == 1 && !m'.conns[r].open
           && m'.conns[r].state == if 1 > m.cfg.maxTries then PermFailed else Failed
  {
    hide Inv, Wf, Transition;
    RoomBounds(m, r);
    NotFocused(m, r);
    var c := m.conns[r].(state := Connected, failcount := 0);
    var m1 := Put(m, r, c);
    AppendNone(m1, Remote(r));
    NoFade(m1, Remote(r));
    if m.cfg.hint.DimInactive? {
      var fade := m.cfg.hint.dim;
      if Room(c) >= 1 {
        TransitionExact(m1, Remote(r), fade);
      } else {
        OverflowingTransition(m1, r, fade);
      }
    }
    assert m1.conns[r := HandleMessage(m, r, msg).conns[r]] == m.conns[r := HandleMessage(m, r, msg).conns[r]];
  }

  lemma OverflowingTransition(m: Core, r: nat, fade: Fade)
    requires Wf(m) && r < |m.conns| && Room(m.conns[r]) < 1 && m.focused != Remote(r)
    ensures var m', c := Transition(m, Remote(r), fade), m.conns[r];
      && m'.conns == m.conns[r := m'.conns[r]] && m'.focused == m.focused && m'.grabbed == m.grabbed
      && m'.conns[r].failcount == c.failcount + 1 && !m'.conns[r].open
      && m'.conns[r].state == if c.failcount + 1 > m.cfg.maxTries then PermFailed else Failed
  {
    hide Wf, Fail, ScheduleFade;
    var m1 := Put(m, r, m.conns[r].(sent := m.conns[r].sent + [SetBrightness(fade.first)]));
    FailFrame(m1, r);
    FadesScheduled(Fail(m1, r), Remote(r), fade.steps);
  }

  /** A clipboard is taken and passed on to the focused remote; log lines and pointer positions change
      nothing here; anything else, and READY at another time, fails the remote that sent it. */
  lemma OthersExact(m: Core, r: nat, msg: Message)
    requires Inv(m) && r < |m.conns| && !(msg.Ready? && m.conns[r].state.SettingUp?)
    requires msg.SetClipboard? && m.focused.Remote? ==> Room(m.conns[m.focused.id]) >= 1
    ensures var m' := HandleMessage(m, r, msg);
      match msg
      case SetClipboard(text) =>
        && m' == m.(conns := m'.conns, clip := text)
        && forall q :: 0 <= q < |m.conns| ==>
             var c := m.conns[q];
             m'.conns[q] == if m.focused == Remote(q) then c.(sent := c.sent + [SetClipboard(text)]) else c
      case LogMsg(_) => m' == m
      case MousePos(_) => m' == m
      case _ =>
        && m'.conns == m.conns[r := m'.conns[r]] && m'.clip == m.clip
        && !m'.conns[r].open && m'.conns[r].failcount == m.conns[r].failcount + 1
        && m'.focused == (if m.focused == Remote(r) then Master else m.focused)
  {
    hide Inv, Wf, Fail;
    FailFrame(m, r);
    if msg.SetClipboard? && m.focused.Remote? {
      ClipKeeps(m, msg.text);
      EnqueueRoom(m.(clip := msg.text), m.focused.id, msg);
    }
  }

  // ---------------------------------------------------------------- timers

  /** A reconnect call begins a session, and forgets its timer; a brightness call tells a connected
      remote its level; neither changes anything else but the list. */
  lemma FireExact(m: Core)
    requires Inv(m) && m.calls != []
    ensures var m', m1 := FireHead(m), m.(calls := m.calls[1..]);
      match m.calls[0].what
      case Reconnect(r) => r < |m.conns| && m' == m1.(conns := m.conns[r := Calling(m, m.conns[r].(timer := None))])
      case Brightness(Master, _) => m' == m1
      case Brightness(Remote(r), level) =>
        && r < |m.conns|
        && (!m.conns[r].state.Connected? ==> m' == m1)
        && (m.conns[r].state.Connected? && Room(m.conns[r]) >= 1 ==>
              m' == m1.(conns := m.conns[r := m.conns[r].(sent := m.conns[r].sent + [SetBrightness(level)])]))
  {
    hide Inv, Wf, SetupRemote, Fail;
    WfTask(m);
    var m1 := m.(calls := m.calls[1..]);
    assert Wf(m1) by { PopKeeps(m, if m.calls[0].what.Reconnect? then m.calls[0].what.rmt else 0); }
    if m.calls[0].what.Reconnect? {
      var r := m.calls[0].what.rmt;
      SetupRenews(Put(m1, r, m1.conns[r].(timer := None)), r);
    }
  }

  // ---------------------------------------------------------------- all remotes

  /** Start-up calls every enabled remote and leaves the others as they are. */
  lemma {:induction false} StartExact(m: Core, n: nat)
    requires Wf(m) && n <= |m.conns|
    ensures SetupAll(m, n) == m.(conns := SetupAll(m, n).conns)
    ensures forall q :: 0 <= q < |m.conns| ==>
      SetupAll(m, n).conns[q] == if q < n && m.conns[q].enabled then Calling(m, m.conns[q]) else m.conns[q]
  {
    hide Wf, SetupRemote;
    if n > 0 {
      StartExact(m, n - 1);
      SetupRenews(SetupAll(m, n - 1), n - 1);
    }
  }

  /** The settings that the actions over all remotes change. */
  lemma {:induction false} ActionSettings(m: Core, a: ForAll, n: nat)
    requires Inv(m) && n <= |m.conns| && ActionFits(m, a)
    ensures var m' := OnFirst(m, a, n);
      && m'.loglevel == (if a.StepLogLevel? then a.level else m.loglevel)
      && m'.clip == (if a.ClearClipboards? then [] else m.clip)
  {
    hide Inv, ReconnectRemote, HaltRemote, Enqueue;
    if n > 0 {
      ActionSettings(m, a, n - 1);
      OnFirstKeeps(m, a, n - 1);
      OneRemoteSettings(OnFirst(m, a, n - 1), a, n - 1);
    }
  }

  lemma OneRemoteSettings(m: Core, a: ForAll, r: nat)
    requires Inv(m) && r < |m.conns|
    ensures OnRemote(m, a, r).loglevel == m.loglevel
  {
    hide Inv, Fail, Wf, Disconnect, Remove, SetupRemote, ReconnectRemote;
    ReconnectRenews(m, r);
    DisconnectConn(m, r);
    match a
    case ClearClipboards => FailFrame(Put(m, r, m.conns[r].(sent := m.conns[r].sent + [SetClipboard([])])), r);
    case StepLogLevel(level) => FailFrame(Put(m, r, m.conns[r].(sent := m.conns[r].sent + [SetLogLevel(level)])), r);
    case _ =>
  }

  // ---------------------------------------------------------------- a switch's fades

  /** With room on both ends, a switch schedules exactly the fades of its indication. */
  lemma SwitchFades(m: Core, to: Node, keys: seq<Word>)
    requires Inv(m) && InRange(m, to) && to != m.focused && SwitchRoom(m, to, keys)
    ensures var m', dim, lift := Switch(m, to, keys), DimSteps(m.cfg.hint), LiftSteps(m.cfg.hint);
      multiset(m'.calls) == multiset(m.calls) + multiset(FadeCalls(m.nextId, m.now, m.focused, dim)) +
        multiset(FadeCalls(m.nextId + |dim|, m.now, to, lift))
  {
    hide Inv, Wf, IndicateSwitch, TransferClipboard, TransferModifiers, KeyMsgs, FadeCalls, ListOk;
    var from := m.focused;
    KeyMsgsLength(keys, RELEASE);
    KeyMsgsLength(keys, PRESS);
    var m1 := IndicationExact(m, from, to);
    var m2 := IndicateSwitch(m, from, to);
    InvList(m);
    IndicateRoom(m, to);
    FadesList(Append(Append(m, from, DimMsgs(m.cfg.hint)), to, LiftMsgs(m.cfg.hint)), m2);
    AppendedRoom(m, from, to, DimMsgs(m.cfg.hint), LiftMsgs(m.cfg.hint));
    AppendFields(m, from, to, DimMsgs(m.cfg.hint), LiftMsgs(m.cfg.hint));
    var m3 := m2.(grabbed := to.Remote?);
    WfGrab(m2, to.Remote?);
    TransfersRoom(m3, from, to, keys);
    AppendFields(m3, from, to, [GetClipboard] + KeyMsgs(keys, RELEASE),
                 (if from.Master? then [SetClipboard(m.clip)] else []) + KeyMsgs(keys, PRESS));
  }

  // ---------------------------------------------------------------- the timer loop

  /** What the due brightness calls tell a remote, in order. */
  function Levels(calls: seq<Call<Task>>, r: nat, when: nat): seq<Message> {
    if calls == [] then []
    else
      var c := calls[0];
      (if c.time <= when && c.what.Brightness? && c.what.node == Remote(r) then [SetBrightness(c.what.level)] else [])
      + Levels(calls[1..], r, when)
  }

  predicate AttemptDue(calls: seq<Call<Task>>, r: nat, when: nat) {
    exists c :: c in calls && c.what == Reconnect(r) && c.time <= when
  }

  /** A call that is about another remote, or about the master. */
  predicate NotAbout(c: Call<Task>, r: nat) {
    c.what != Reconnect(r) && (c.what.Brightness? ==> c.what.node != Remote(r))
  }

  /** The same calls as far as `r` is concerned, and no other lost. */
  ghost predicate SameFor(calls: seq<Call<Task>>, calls': seq<Call<Task>>, r: nat, when: nat) {
    && Levels(calls', r, when) == Levels(calls, r, when)
    && (AttemptDue(calls', r, when) <==> AttemptDue(calls, r, when))
    && forall c :: c in calls ==> c in calls'
  }

  lemma {:induction false} LevelsAppend(a: seq<Call<Task>>, b: seq<Call<Task>>, r: nat, when: nat)
    ensures Levels(a + b, r, when) == Levels(a, r, when) + Levels(b, r, when)
  {
    if a == [] {
      assert a + b == b;
    } else {
      assert (a + b)[1..] == a[1..] + b;
      LevelsAppend(a[1..], b, r, when);
    }
  }

  lemma InsertSame(calls: seq<Call<Task>>, c: Call<Task>, r: nat, when: nat)
    requires NotAbout(c, r)
    ensures SameFor(calls, Insert(calls, c), r, when)
  {
    hide Levels, Place, Insert;
    InsertLevels(calls, c, r, when);
  }

  lemma InsertLevels(calls: seq<Call<Task>>, c: Call<Task>, r: nat, when: nat)
    requires NotAbout(c, r)
    ensures Levels(Insert(calls, c), r, when) == Levels(calls, r, when)
  {
    hide Levels, Place;
    var i := Place(calls, c.time);
    var a, b := calls[..i], calls[i..];
    LevelsAppend(a, b, r, when);
    LevelsAppend(a, [c], r, when);
    LevelsAppend(a + [c], b, r, when);
    NoLevel(c, r, when);
    assert calls == a + b;
  }

  lemma NoLevel(c: Call<Task>, r: nat, when: nat)
    requires NotAbout(c, r)
    ensures Levels([c], r, when) == []
  {
    assert [c][1..] == [];
  }

  lemma {:induction false} FadeSameFor(m: Core, steps: seq<(nat, Word)>, r: nat, when: nat)
    requires Wf(m)
    ensures SameFor(m.calls, ScheduleFade(m, Master, steps).calls, r, when)
    decreases |steps|
  {
    hide Insert, Wf, Levels, AttemptDue;
    if steps != [] {
      var c := Call(m.nextId, m.now + steps[0].0, Brightness(Master, steps[0].1));
      assert TaskInRange(m, c.what) by { BrightnessInRange(m, Master, steps[0].1); }
      InsertSame(m.calls, c, r, when);
      FadeSameFor(ScheduleTask(m, c.what, steps[0].0), steps[1..], r, when);
    }
  }

  /** The failure of another remote. */
  lemma FailSameFor(m: Core, q: nat, r: nat, when: nat)
    requires Wf(m) && q < |m.conns| && r != q
    ensures SameFor(m.calls, Fail(m, q).calls, r, when) && (r < |m.conns| ==> Fail(m, q).conns[r] == m.conns[r])
  {
    hide Insert, Wf, ScheduleFade, Levels, AttemptDue;
    FailFrame(m, q);
    var m1 := Put(m, q, Closed(m.conns[q]));
    WfFocus(m1);
    var m2 := m1.(grabbed := false, last := m1.focused, focused := Master);
    FadeSameFor(m2, LiftSteps(m.cfg.hint), r, when);
    var m3 := Disconnect(m, q);
    var delay := Backoff.Delay(m3.conns[q].failcount + 1, m.cfg.maxInterval);
    InsertSame(m3.calls, Call(m3.nextId, m3.now + delay, Reconnect(q)), r, when);
  }

  /** What the whole timer loop means for a remote that is not in the first call. */
  predicate LoopOutcome(m: Core, c: Conn, c': Conn, r: nat, when: nat) {
    match c.state
    case Connected =>
      |Levels(m.calls, r, when)| <= Room(c) ==> c' == c.(sent := c.sent + Levels(m.calls, r, when))
    case Failed => c' == if AttemptDue(m.calls, r, when) then Calling(m, c.(timer := None)) else c
    case _ => c' == c
  }

  lemma HeadOf(calls: seq<Call<Task>>, r: nat, when: nat)
    requires calls != []
    ensures AttemptDue(calls, r, when) <==>
      AttemptDue(calls[1..], r, when) || (calls[0].what == Reconnect(r) && calls[0].time <= when)
  {
    assert calls == [calls[0]] + calls[1..];
  }

  /** One call of the loop, as remote `r` sees it. */
  lemma FireFor(m: Core, r: nat, when: nat)
    requires Inv(m) && m.calls != [] && r < |m.conns|
    ensures FireHead(m).loglevel == m.loglevel && forall c :: c in m.calls[1..] ==> c in FireHead(m).calls
    ensures NotAbout(m.calls[0], r) ==>
      SameFor(m.calls[1..], FireHead(m).calls, r, when) && FireHead(m).conns[r] == m.conns[r]
  {
    hide Inv, Wf, Fail, SetupRemote, Levels, AttemptDue;
    WfTask(m);
    var m1 := m.(calls := m.calls[1..]);
    assert Wf(m1) by { PopKeeps(m, if m.calls[0].what.Reconnect? then m.calls[0].what.rmt else 0); }
    FireExact(m);
    match m.calls[0].what
    case Reconnect(_) =>
    case Brightness(Master, _) =>
    case Brightness(Remote(q), level) =>
      if m.conns[q].state.Connected? {
        var x := Put(m1, q, m.conns[q].(sent := m.conns[q].sent + [SetBrightness(level)]));
        FailFrame(x, q);
        if q != r {
          FailSameFor(x, q, r, when);
        } else {
          FailSameFor(x, q, q + 1, when);
        }
      }
  }

  /** The timer loop, for every remote: a connected one with room is told the due levels, in order; a
      failed one is called again exactly if its reconnect call is due; the others are left alone.  No
      call that is not due is lost. */
  lemma {:induction false} FireDueExact(m: Core, when: nat, r: nat)
    requires Inv(m) && when <= m.now && r < |m.conns|
    ensures r < |FireDue(m, when).conns| && LoopOutcome(m, m.conns[r], FireDue(m, when).conns[r], r, when)
    ensures forall c :: c in m.calls && c.time > when ==> c in FireDue(m, when).calls
    decreases Ups(m.conns), |m.calls|
  {
    hide Inv, FireHead, Levels, AttemptDue, Ups, Calling;
    var c, m' := m.conns[r], FireDue(m, when);
    if m.calls == [] || m.calls[0].time > when {
      NothingDue(m, r, when);
    } else {
      var m1 := FireHead(m);
      FireEnds(m);
      FireFor(m, r, when);
      HeadOf(m.calls, r, when);
      assert m.calls == [m.calls[0]] + m.calls[1..];
      LevelsAppend([m.calls[0]], m.calls[1..], r, when);
      FireDueExact(m1, when, r);
      FireExact(m);
      CallingSame(m, m1, c.(timer := None));
      if NotAbout(m.calls[0], r) {
        NoLevel(m.calls[0], r, when);
      } else if m.calls[0].what.Reconnect? {
        ReconnectFires(m, r);
        StartsSettingUp(m, c.(timer := None));
      } else {
        OneLevel(m.calls[0], r, when);
        if c.state.Connected? && |Levels(m.calls, r, when)| <= Room(c) {
          assert c.sent + (Levels([m.calls[0]], r, when) + Levels(m.calls[1..], r, when)) ==
            c.sent + Levels([m.calls[0]], r, when) + Levels(m.calls[1..], r, when);
        }
      }
    }
  }

  lemma CallingSame(m: Core, m': Core, c: Conn)
    requires m'.loglevel == m.loglevel
    ensures Calling(m', c) == Calling(m, c)
  {
  }

  lemma StartsSettingUp(m: Core, c: Conn)
    ensures Calling(m, c).state.SettingUp?
  {
  }

  lemma OneLevel(c: Call<Task>, r: nat, when: nat)
    requires c.time <= when && c.what.Brightness? && c.what.node == Remote(r)
    ensures Levels([c], r, when) == [SetBrightness(c.what.level)]
  {
    assert [c][1..] == [];
  }

  lemma {:induction false} NoLevels(calls: seq<Call<Task>>, r: nat, when: nat)
    requires forall i :: 0 <= i < |calls| ==> calls[i].time > when
    ensures Levels(calls, r, when) == []
  {
    if calls != [] {
      NoLevels(calls[1..], r, when);
    }
  }

  lemma NothingDue(m: Core, r: nat, when: nat)
    requires Inv(m) && (m.calls != [] ==> m.calls[0].time > when)
    ensures Levels(m.calls, r, when) == [] && !AttemptDue(m.calls, r, when)
  {
    hide Inv, Levels;
    InvList(m);
    forall i | 0 <= i < |m.calls|
      ensures m.calls[i].time > when
    {
      assert i == 0 || Before(m.calls[0], m.calls[i]);
    }
    NoLevels(m.calls, r, when);
  }
}
