/** Moving the focus: what one switch sends, when it is safe, and that no modifier key is left
    stuck on the node that loses the focus. */
module Focus {
  import opened Base
  import opened Proto
  import opened Timers
  import opened MasterSpec
  import opened MasterInv

  // ---------------------------------------------------------------- what a switch sends

  function DimMsgs(hint: Hint): seq<Message> {
    if hint.DimInactive? then [SetBrightness(hint.dim.first)] else []
  }

  function LiftMsgs(hint: Hint): seq<Message> {
    match hint
    case NoHint => []
    case DimInactive(_, lift) => [SetBrightness(lift.first)]
    case FlashActive(flash) => [SetBrightness(flash.first)]
  }

  /** The departing remote: dim, hand over the clipboard, release the held modifiers. */
  function FromMsgs(m: Core, keys: seq<Word>): seq<Message> {
    DimMsgs(m.cfg.hint) + [GetClipboard] + KeyMsgs(keys, RELEASE)
  }

  /** The arriving remote: light up, take the master's clipboard, press the held modifiers. */
  function ToMsgs(m: Core, keys: seq<Word>): seq<Message> {
    LiftMsgs(m.cfg.hint) + (if m.focused.Master? then [SetClipboard(m.clip)] else []) + KeyMsgs(keys, PRESS)
  }

  /** Both send queues take what the switch sends. */
  predicate SwitchRoom(m: Core, to: Node, keys: seq<Word>)
    requires InRange(m, m.focused) && InRange(m, to)
  {
    && (m.focused.Remote? ==> |FromMsgs(m, keys)| <= Room(m.conns[m.focused.id]))
    && (to.Remote? ==> |ToMsgs(m, keys)| <= Room(m.conns[to.id]))
  }

  /** `n` has a connection to switch to. */
  predicate Reachable(m: Core, n: Node) {
    InRange(m, n) && (n.Remote? ==> m.conns[n.id].state.Connected?)
  }

  function Append(m: Core, n: Node, ms: seq<Message>): (m': Core)
    requires Wf(m) && InRange(m, n)
    ensures Shape(m, m')
  {
    if n.Remote? then Put(m, n.id, m.conns[n.id].(sent := m.conns[n.id].sent + ms)) else m
  }

  /** A switch, apart from brightness timers. */
  function Switched(m: Core, to: Node, keys: seq<Word>): (m': Core)
    requires Wf(m) && InRange(m, to)
    ensures Shape(m, m')
  {
    Append(Append(m, m.focused, FromMsgs(m, keys)), to, ToMsgs(m, keys))
      .(grabbed := to.Remote?, last := m.focused, focused := to)
  }

  lemma EnqueueRoom(m: Core, r: nat, msg: Message)
    requires Wf(m) && r < |m.conns| && Room(m.conns[r]) >= 1
    ensures Enqueue(m, r, msg) == Append(m, Remote(r), [msg])
  {
  }

  lemma AppendTwice(m: Core, n: Node, a: seq<Message>, b: seq<Message>)
    requires Wf(m) && InRange(m, n)
    ensures Append(Append(m, n, a), n, b) == Append(m, n, a + b)
  {
    if n.Remote? {
      assert m.conns[n.id].sent + a + b == m.conns[n.id].sent + (a + b);
    }
  }

  lemma AppendNone(m: Core, n: Node)
    requires Wf(m) && InRange(m, n)
    ensures Append(m, n, []) == m
  {
    if n.Remote? {
      assert m.conns[n.id].sent + [] == m.conns[n.id].sent;
    }
  }

  lemma AppendSwap(m: Core, n: Node, o: Node, a: seq<Message>, b: seq<Message>)
    requires Wf(m) && InRange(m, n) && InRange(m, o) && n != o
    ensures Append(Append(m, n, a), o, b) == Append(Append(m, o, b), n, a)
  {
    if n.Remote? && o.Remote? {
      assert m.conns[n.id := m.conns[n.id]] == m.conns;
    }
  }

  /** Within its room a queue takes them all. */
  lemma {:induction false} SendAllRoom(m: Core, r: nat, ms: seq<Message>)
    requires Wf(m) && r < |m.conns| && Room(m.conns[r]) >= |ms|
    ensures SendAll(m, r, ms) == Append(m, Remote(r), ms)
    decreases |ms|
  {
    hide Wf, Enqueue;
    if ms == [] {
      AppendNone(m, Remote(r));
    } else {
      EnqueueRoom(m, r, ms[0]);
      SendAllRoom(Append(m, Remote(r), [ms[0]]), r, ms[1..]);
      AppendTwice(m, Remote(r), [ms[0]], ms[1..]);
      assert [ms[0]] + ms[1..] == ms;
    }
  }

  // ---------------------------------------------------------------- up to brightness timers

  lemma FadesTrans(a: Core, b: Core, c: Core)
    requires SameButFades(a, b) && SameButFades(b, c)
    ensures SameButFades(a, c)
  {
    hide ReconIds, OwnTimer, ListOk, Wf;
  }

  lemma FadesAppend(a: Core, b: Core, n: Node, ms: seq<Message>)
    requires Wf(a) && SameButFades(a, b) && InRange(a, n)
    ensures SameButFades(Append(a, n, ms), Append(b, n, ms))
  {
    hide ReconIds, OwnTimer, ListOk;
  }

  lemma FadesRefl(m: Core)
    requires Wf(m) && ListOk(m.calls, m.nextId)
    ensures SameButFades(m, m)
  {
  }

  lemma TransitionRoom(a: Core, m: Core, n: Node, fade: Fade)
    requires Wf(a) && Wf(m) && InRange(m, n) && (n.Remote? ==> Room(m.conns[n.id]) >= 1)
    requires SameButFades(a, m)
    ensures SameButFades(Append(a, n, [SetBrightness(fade.first)]), Transition(m, n, fade))
  {
    hide ReconIds, OwnTimer, ListOk, Wf, Enqueue, ScheduleFade, SameButFades;
    var m1 := Append(m, n, [SetBrightness(fade.first)]);
    if n.Remote? {
      EnqueueRoom(m, n.id, SetBrightness(fade.first));
    }
    FadesList(a, m);
    FadesAppend(a, m, n, [SetBrightness(fade.first)]);
    FadesList(Append(a, n, [SetBrightness(fade.first)]), m1);
    FadeFrame(m1, n, fade.steps);
    FadesTrans(Append(a, n, [SetBrightness(fade.first)]), m1, ScheduleFade(m1, n, fade.steps));
  }

  lemma FadesList(a: Core, m: Core)
    requires SameButFades(a, m)
    ensures ListOk(m.calls, m.nextId) && m.conns == a.conns && m == a.(calls := m.calls, nextId := m.nextId)
  {
  }

  lemma IndicateRoom(m: Core, to: Node)
    requires Wf(m) && ListOk(m.calls, m.nextId) && InRange(m, to) && to != m.focused
    requires m.focused.Remote? ==> Room(m.conns[m.focused.id]) >= |DimMsgs(m.cfg.hint)|
    requires to.Remote? ==> Room(m.conns[to.id]) >= |LiftMsgs(m.cfg.hint)|
    ensures var a := Append(Append(m, m.focused, DimMsgs(m.cfg.hint)), to, LiftMsgs(m.cfg.hint));
      SameButFades(a, IndicateSwitch(m, m.focused, to))
  {
    hide Wf, ListOk, SameButFades, Transition;
    FadesRefl(m);
    match m.cfg.hint
    case NoHint =>
      AppendNone(m, m.focused);
      AppendNone(m, to);
    case DimInactive(dim, lift) =>
      TransitionRoom(m, m, m.focused, dim);
      var a1 := Append(m, m.focused, [SetBrightness(dim.first)]);
      FadesList(a1, Transition(m, m.focused, dim));
      TransitionRoom(a1, Transition(m, m.focused, dim), to, lift);
    case FlashActive(flash) =>
      AppendNone(m, m.focused);
      TransitionRoom(m, m, to, flash);
  }

  /** The clipboard and modifier hand-over that follows, as appended messages. */
  lemma TransfersRoom(m: Core, from: Node, to: Node, keys: seq<Word>)
    requires Wf(m) && InRange(m, from) && InRange(m, to) && from != to
    requires from.Remote? ==> Room(m.conns[from.id]) >= 1 + |keys|
    requires to.Remote? ==> Room(m.conns[to.id]) >= (if from.Master? then 1 else 0) + |keys|
    ensures TransferModifiers(TransferClipboard(m, from, to), from, to, keys) ==
      Append(Append(m, from, [GetClipboard] + KeyMsgs(keys, RELEASE)), to,
             (if from.Master? then [SetClipboard(m.clip)] else []) + KeyMsgs(keys, PRESS))
  {
    hide Wf, Enqueue, SendAll, KeyMsgs;
    KeyMsgsLength(keys, RELEASE);
    KeyMsgsLength(keys, PRESS);
    if from.Remote? {
      EnqueueRoom(m, from.id, GetClipboard);
      var m1 := Append(m, from, [GetClipboard]);
      SendAllRoom(m1, from.id, KeyMsgs(keys, RELEASE));
      AppendTwice(m, from, [GetClipboard], KeyMsgs(keys, RELEASE));
      var m2 := Append(m, from, [GetClipboard] + KeyMsgs(keys, RELEASE));
      assert [] + KeyMsgs(keys, PRESS) == KeyMsgs(keys, PRESS);
      if to.Remote? {
        SendAllRoom(m2, to.id, KeyMsgs(keys, PRESS));
      }
    } else {
      EnqueueRoom(m, to.id, SetClipboard(m.clip));
      var m1 := Append(m, to, [SetClipboard(m.clip)]);
      SendAllRoom(m1, to.id, KeyMsgs(keys, PRESS));
      AppendTwice(m, to, [SetClipboard(m.clip)], KeyMsgs(keys, PRESS));
    }
  }

  lemma RegroupAppends(
      m: Core, from: Node, to: Node, d: seq<Message>, l: seq<Message>, f: seq<Message>, t: seq<Message>)
    requires Wf(m) && InRange(m, from) && InRange(m, to) && from != to
    ensures Append(Append(Append(Append(m, from, d), to, l), from, f), to, t) ==
      Append(Append(m, from, d + f), to, l + t)
  {
    hide Append, Wf;
    var a := Append(m, from, d);
    AppendSwap(a, to, from, l, f);
    AppendTwice(m, from, d, f);
    AppendTwice(Append(m, from, d + f), to, l, t);
  }

  lemma KeyMsgsLength(keys: seq<Word>, pr: Word)
    ensures |KeyMsgs(keys, pr)| == |keys|
  {
  }

  lemma AppendedRoom(m: Core, from: Node, to: Node, d: seq<Message>, l: seq<Message>)
    requires Wf(m) && InRange(m, from) && InRange(m, to) && from != to
    ensures var a := Append(Append(m, from, d), to, l);
      && (from.Remote? ==> Room(a.conns[from.id]) == Room(m.conns[from.id]) - |d|)
      && (to.Remote? ==> Room(a.conns[to.id]) == Room(m.conns[to.id]) - |l|)
  {
  }

  lemma AppendFields(m: Core, from: Node, to: Node, d: seq<Message>, l: seq<Message>)
    requires Wf(m) && InRange(m, from) && InRange(m, to)
    ensures var a := Append(Append(m, from, d), to, l); a == m.(conns := a.conns)
  {
  }

  lemma FadesGrab(a: Core, m: Core, g: bool)
    requires SameButFades(a, m)
    ensures SameButFades(a.(grabbed := g), m.(grabbed := g))
  {
    hide ReconIds, OwnTimer, ListOk;
  }

  lemma WfGrab(m: Core, g: bool)
    requires Wf(m)
    ensures Wf(m.(grabbed := g))
  {
  }

  lemma GrabCommutes(a: Core, from: Node, to: Node, f: seq<Message>, t: seq<Message>, g: bool)
    requires Wf(a) && InRange(a, from) && InRange(a, to) && Wf(a.(grabbed := g))
    ensures Append(Append(a.(grabbed := g), from, f), to, t) == Append(Append(a, from, f), to, t).(grabbed := g)
  {
  }

  lemma FadesFocus(a: Core, m: Core, to: Node)
    requires SameButFades(a, m) && InRange(m, to) && InRange(m, m.focused)
    ensures SameButFades(a.(last := a.focused, focused := to), m.(last := m.focused, focused := to))
  {
    hide ReconIds, OwnTimer, ListOk;
  }

  /** With room on both ends, a switch sends exactly the hand-over messages, moves the focus and the
      grab, and changes nothing else but brightness timers. */
  lemma SwitchEffect(m: Core, to: Node, keys: seq<Word>)
    requires Wf(m) && ListOk(m.calls, m.nextId) && FocusOk(m) && InRange(m, to) && to != m.focused
    requires SwitchRoom(m, to, keys)
    ensures SameButFades(Switched(m, to, keys), Switch(m, to, keys))
  {
    hide Wf, ListOk, SameButFades, Append, IndicateSwitch, TransferClipboard, TransferModifiers, KeyMsgs;
    var from := m.focused;
    var d, l := DimMsgs(m.cfg.hint), LiftMsgs(m.cfg.hint);
    var f := [GetClipboard] + KeyMsgs(keys, RELEASE);
    var t := (if from.Master? then [SetClipboard(m.clip)] else []) + KeyMsgs(keys, PRESS);
    KeyMsgsLength(keys, RELEASE);
    KeyMsgsLength(keys, PRESS);
    IndicateRoom(m, to);
    var a1 := Append(Append(m, from, d), to, l);
    var m1 := IndicateSwitch(m, from, to);
    AppendedRoom(m, from, to, d, l);
    FadesList(a1, m1);
    AppendFields(m, from, to, d, l);
    assert m1.grabbed == m.grabbed && m1.clip == m.clip && m1.focused == m.focused;
    var m2 := m1.(grabbed := to.Remote?);
    var a2 := a1.(grabbed := to.Remote?);
    FadesGrab(a1, m1, to.Remote?);
    WfGrab(m1, to.Remote?);
    WfGrab(a1, to.Remote?);
    TransfersRoom(m2, from, to, keys);
    FadesAppend(a2, m2, from, f);
    FadesAppend(Append(a2, from, f), Append(m2, from, f), to, t);
    RegroupAppends(m, from, to, d, l, f, t);
    assert d + f == FromMsgs(m, keys) && l + t == ToMsgs(m, keys);
    GrabCommutes(a1, from, to, f, t, to.Remote?);
    var a3 := Append(Append(m, from, d + f), to, l + t).(grabbed := to.Remote?);
    var m3 := Append(Append(m2, from, f), to, t);
    AppendFields(m, from, to, d + f, l + t);
    FadesList(a3, m3);
    FadesFocus(a3, m3, to);
  }

  // ---------------------------------------------------------------- modifiers

  function KeySet(keys: seq<Word>): set<Word> {
    set k | k in keys
  }

  /** Replaying presses adds exactly those modifiers; replaying releases removes them. */
  lemma {:induction false} PressedKeys(ms: seq<Message>, keys: seq<Word>, pr: Word, mods: set<Word>)
    requires KeySet(keys) <= mods
    ensures Pressed(ms + KeyMsgs(keys, pr), mods) ==
      if pr == PRESS then Pressed(ms, mods) + KeySet(keys) else Pressed(ms, mods) - KeySet(keys)
    decreases |keys|
  {
    hide Pressed;
    if keys == [] {
      assert ms + KeyMsgs(keys, pr) == ms;
    } else {
      var n := |keys| - 1;
      var init, k := keys[..n], keys[n];
      assert keys == init + [k];
      assert k in keys && k in mods;
      assert KeySet(keys) == KeySet(init) + {k};
      PressedKeys(ms, init, pr, mods);
      assert ms + KeyMsgs(keys, pr) == (ms + KeyMsgs(init, pr)) + [KeyEvent(k, pr)];
      PressedSnoc(ms + KeyMsgs(init, pr), KeyEvent(k, pr), mods);
    }
  }

  /** Messages other than key events press nothing. */
  lemma {:induction false} PressedNeutral(ms: seq<Message>, extra: seq<Message>, mods: set<Word>)
    requires forall i :: 0 <= i < |extra| ==> !extra[i].KeyEvent?
    ensures Pressed(ms + extra, mods) == Pressed(ms, mods)
    decreases |extra|
  {
    hide Pressed;
    if extra == [] {
      assert ms + extra == ms;
    } else {
      var n := |extra| - 1;
      PressedNeutral(ms, extra[..n], mods);
      assert ms + extra == (ms + extra[..n]) + [extra[n]];
      PressedSnoc(ms + extra[..n], extra[n], mods);
    }
  }

  lemma HandOverPressed(ms: seq<Message>, extra: seq<Message>, keys: seq<Word>, pr: Word, mods: set<Word>)
    requires KeySet(keys) <= mods && forall i :: 0 <= i < |extra| ==> !extra[i].KeyEvent?
    ensures Pressed(ms + (extra + KeyMsgs(keys, pr)), mods) ==
      if pr == PRESS then Pressed(ms, mods) + KeySet(keys) else Pressed(ms, mods) - KeySet(keys)
  {
    hide Pressed, KeyMsgs;
    PressedNeutral(ms, extra, mods);
    PressedKeys(ms + extra, keys, pr, mods);
    assert ms + (extra + KeyMsgs(keys, pr)) == (ms + extra) + KeyMsgs(keys, pr);
  }

  lemma SessionAppend(sent: seq<Message>, extra: seq<Message>)
    requires SessionOk(sent) && forall i :: 0 <= i < |extra| ==> ToRemote(extra[i])
    ensures SessionOk(sent + extra)
  {
  }

  /** A connection that takes more messages within its room. */
  lemma ConnAppend(cfg: Config, c: Conn, ms: seq<Message>)
    requires ConnOk(cfg, c) && c.open && |ms| <= Room(c) && forall i :: 0 <= i < |ms| ==> ToRemote(ms[i])
    ensures ConnOk(cfg, c.(sent := c.sent + ms))
  {
    hide SessionOk;
    SessionAppend(c.sent, ms);
  }

  lemma HandOverTypes(m: Core, keys: seq<Word>)
    ensures forall i :: 0 <= i < |FromMsgs(m, keys)| ==> ToRemote(FromMsgs(m, keys)[i])
    ensures forall i :: 0 <= i < |ToMsgs(m, keys)| ==> ToRemote(ToMsgs(m, keys)[i])
  {
  }

  /** The remote that loses the focus is told to release every held modifier... */
  lemma DepartingOk(m: Core, keys: seq<Word>)
    requires Inv(m) && m.focused.Remote? && KeySet(keys) == m.held
    requires |FromMsgs(m, keys)| <= Room(m.conns[m.focused.id])
    ensures var c := m.conns[m.focused.id];
      && ConnOk(m.cfg, c.(sent := c.sent + FromMsgs(m, keys)))
      && Pressed(c.sent + FromMsgs(m, keys), m.cfg.modifiers) == {}
  {
    hide Inv, Others, ConnOk, TimerOk, OwnTimer, Pressed, KeyMsgs, KeySet;
    var r := m.focused.id;
    var c := m.conns[r];
    Split(m, r);
    OpenWhenConnected(m, r);
    HeldModifiers(m);
    HandOverTypes(m, keys);
    ConnAppend(m.cfg, c, FromMsgs(m, keys));
    HandOverPressed(c.sent, DimMsgs(m.cfg.hint) + [GetClipboard], keys, RELEASE, m.cfg.modifiers);
  }

  /** ...and the one that gains it is told to press exactly those. */
  lemma ArrivingOk(m: Core, to: Node, keys: seq<Word>)
    requires Inv(m) && to.Remote? && Reachable(m, to) && to != m.focused && KeySet(keys) == m.held
    requires |ToMsgs(m, keys)| <= Room(m.conns[to.id])
    ensures var c := m.conns[to.id];
      && ConnOk(m.cfg, c.(sent := c.sent + ToMsgs(m, keys)))
      && Pressed(c.sent + ToMsgs(m, keys), m.cfg.modifiers) == m.held
  {
    hide Inv, Others, ConnOk, TimerOk, OwnTimer, Pressed, KeyMsgs, KeySet;
    var c := m.conns[to.id];
    Split(m, to.id);
    OpenWhenConnected(m, to.id);
    HeldModifiers(m);
    HandOverTypes(m, keys);
    ConnAppend(m.cfg, c, ToMsgs(m, keys));
    HandOverPressed(c.sent, LiftMsgs(m.cfg.hint) + (if m.focused.Master? then [SetClipboard(m.clip)] else []),
                    keys, PRESS, m.cfg.modifiers);
  }

  lemma HeldModifiers(m: Core)
    requires Inv(m)
    ensures m.held <= m.cfg.modifiers
  {
  }

  lemma SwitchedKeeps(m: Core, to: Node, keys: seq<Word>)
    requires Inv(m) && Reachable(m, to) && to != m.focused && KeySet(keys) == m.held && SwitchRoom(m, to, keys)
    ensures Inv(Switched(m, to, keys))
  {
    hide ConnOk, ReconIds, OwnTimer, Pressed, FromMsgs, ToMsgs, ListOk, KeySet;
    if m.focused.Remote? {
      DepartingOk(m, keys);
    }
    if to.Remote? {
      ArrivingOk(m, to, keys);
    }
    var m' := Switched(m, to, keys);
    forall q | 0 <= q < |m.conns|
      ensures RemoteOk(m', q)
    {
      assert RemoteOk(m, q);
    }
  }

  /** A switch with room on both ends keeps the invariant: focus on a live node, inputs grabbed
      exactly for a remote, and no modifier stuck anywhere. */
  lemma SwitchKeeps(m: Core, to: Node, keys: seq<Word>)
    requires Inv(m) && Reachable(m, to) && to != m.focused && KeySet(keys) == m.held && SwitchRoom(m, to, keys)
    ensures Inv(Switch(m, to, keys)) && Switch(m, to, keys).focused == to && Switch(m, to, keys).last == m.focused
  {
    hide Inv, Switch, ListOk, SwitchRoom, KeySet, SameButFades;
    InvList(m);
    SwitchEffect(m, to, keys);
    SwitchedKeeps(m, to, keys);
    FadeKeepsInv(Switched(m, to, keys), Switch(m, to, keys));
    FadesList(Switched(m, to, keys), Switch(m, to, keys));
  }

  // ---------------------------------------------------------------- exactly when a switch is safe

  /** Too few places are left for `n` more messages to `r`, unless `r` is down already. */
  predicate Short(m: Core, r: nat, n: int)
    requires r < |m.conns|
  {
    m.conns[r].state.Connected? ==> 0 <= Room(m.conns[r]) < n
  }

  /** The same, unless the focus and the grab have been lost. */
  predicate ShortOrLost(m: Core, r: nat, n: int)
    requires r < |m.conns|
  {
    m.grabbed ==> m.focused == Remote(r) && 0 <= Room(m.conns[r]) < n
  }

  lemma EnqueueShort(m: Core, to: nat, n: int, r: nat, msg: Message)
    requires Wf(m) && to < |m.conns| && r < |m.conns| && Short(m, to, n)
    ensures Short(Enqueue(m, r, msg), to, if r == to then n - 1 else n)
  {
    hide Fail, Wf;
    var m1 := Put(m, r, m.conns[r].(sent := m.conns[r].sent + [msg]));
    FailFrame(m1, r);
  }

  lemma EnqueueLost(m: Core, from: nat, n: int, r: nat, msg: Message)
    requires Wf(m) && from < |m.conns| && r < |m.conns| && ShortOrLost(m, from, n)
    ensures ShortOrLost(Enqueue(m, r, msg), from, if r == from then n - 1 else n)
  {
    hide Fail, Wf;
    var m1 := Put(m, r, m.conns[r].(sent := m.conns[r].sent + [msg]));
    FailFrame(m1, r);
  }

  lemma {:induction false} AllShort(m: Core, to: nat, n: int, r: nat, ms: seq<Message>)
    requires Wf(m) && to < |m.conns| && r < |m.conns| && Short(m, to, n)
    ensures Short(SendAll(m, r, ms), to, if r == to then n - |ms| else n)
    decreases |ms|
  {
    hide Enqueue, Wf, Short;
    if ms != [] {
      EnqueueShort(m, to, n, r, ms[0]);
      AllShort(Enqueue(m, r, ms[0]), to, if r == to then n - 1 else n, r, ms[1..]);
    }
  }

  lemma {:induction false} AllLost(m: Core, from: nat, n: int, r: nat, ms: seq<Message>)
    requires Wf(m) && from < |m.conns| && r < |m.conns| && ShortOrLost(m, from, n)
    ensures ShortOrLost(SendAll(m, r, ms), from, if r == from then n - |ms| else n)
    decreases |ms|
  {
    hide Enqueue, Wf, ShortOrLost;
    if ms != [] {
      EnqueueLost(m, from, n, r, ms[0]);
      AllLost(Enqueue(m, r, ms[0]), from, if r == from then n - 1 else n, r, ms[1..]);
    }
  }

  lemma TransitionShort(m: Core, to: nat, n: int, node: Node, fade: Fade)
    requires Wf(m) && to < |m.conns| && InRange(m, node) && Short(m, to, n)
    ensures Short(Transition(m, node, fade), to, if node == Remote(to) then n - 1 else n)
  {
    hide Enqueue, Wf, ScheduleFade;
    var m1 := if node.Remote? then Enqueue(m, node.id, SetBrightness(fade.first)) else m;
    if node.Remote? {
      EnqueueShort(m, to, n, node.id, SetBrightness(fade.first));
    }
    FadeSame(m1, node, fade.steps);
  }

  lemma TransitionLost(m: Core, from: nat, n: int, node: Node, fade: Fade)
    requires Wf(m) && from < |m.conns| && InRange(m, node) && ShortOrLost(m, from, n)
    ensures ShortOrLost(Transition(m, node, fade), from, if node == Remote(from) then n - 1 else n)
  {
    hide Enqueue, Wf, ScheduleFade;
    var m1 := if node.Remote? then Enqueue(m, node.id, SetBrightness(fade.first)) else m;
    if node.Remote? {
      EnqueueLost(m, from, n, node.id, SetBrightness(fade.first));
    }
    FadeSame(m1, node, fade.steps);
  }

  lemma IndicateShort(m: Core, to: nat, n: int, from: Node)
    requires Wf(m) && to < |m.conns| && InRange(m, from) && from != Remote(to) && Short(m, to, n)
    ensures Short(IndicateSwitch(m, from, Remote(to)), to, n - |LiftMsgs(m.cfg.hint)|)
  {
    hide Transition, Wf, Short;
    match m.cfg.hint
    case NoHint =>
    case DimInactive(dim, lift) =>
      TransitionShort(m, to, n, from, dim);
      TransitionShort(Transition(m, from, dim), to, n, Remote(to), lift);
    case FlashActive(flash) => TransitionShort(m, to, n, Remote(to), flash);
  }

  lemma IndicateLost(m: Core, from: nat, n: int, to: Node)
    requires Wf(m) && from < |m.conns| && InRange(m, to) && to != Remote(from) && ShortOrLost(m, from, n)
    ensures ShortOrLost(IndicateSwitch(m, Remote(from), to), from, n - |DimMsgs(m.cfg.hint)|)
  {
    hide Transition, Wf, ShortOrLost;
    match m.cfg.hint
    case NoHint =>
    case DimInactive(dim, lift) =>
      TransitionLost(m, from, n, Remote(from), dim);
      TransitionLost(Transition(m, Remote(from), dim), from, n - 1, to, lift);
    case FlashActive(flash) => TransitionLost(m, from, n, to, flash);
  }

  /** If the destination's queue is too full, the switch ends on a remote that is down. */
  lemma ArrivesOnFailed(m: Core, to: nat, keys: seq<Word>)
    requires Inv(m) && to < |m.conns| && m.focused != Remote(to) && |ToMsgs(m, keys)| > Room(m.conns[to])
    ensures !Switch(m, Remote(to), keys).conns[to].state.Connected?
  {
    hide Enqueue, SendAll, IndicateSwitch, Inv, Wf, Short, KeyMsgs;
    var from := m.focused;
    var n := |ToMsgs(m, keys)|;
    KeyMsgsLength(keys, PRESS);
    KeyMsgsLength(keys, RELEASE);
    assert Short(m, to, n) by { RoomBounds(m, to); ShortStart(m, to, n); }
    IndicateShort(m, to, n, from);
    var m1 := IndicateSwitch(m, from, Remote(to));
    var m2 := if from.Master? then m1.(grabbed := true) else m1;
    ShortGrab(m1, to, n - |LiftMsgs(m.cfg.hint)|);
    var m3 := TransferClipboard(m2, from, Remote(to));
    EnqueueShort(m2, to, n - |LiftMsgs(m.cfg.hint)|, if from.Remote? then from.id else to,
                 if from.Remote? then GetClipboard else SetClipboard(m2.clip));
    var k := if from.Remote? then n - |LiftMsgs(m.cfg.hint)| else n - |LiftMsgs(m.cfg.hint)| - 1;
    var m4 := if from.Remote? then SendAll(m3, from.id, KeyMsgs(keys, RELEASE)) else m3;
    if from.Remote? {
      AllShort(m3, to, k, from.id, KeyMsgs(keys, RELEASE));
    }
    AllShort(m4, to, k, to, KeyMsgs(keys, PRESS));
    assert k - |keys| == 0;
    ShortEnd(SendAll(m4, to, KeyMsgs(keys, PRESS)), to);
  }

  lemma RoomBounds(m: Core, r: nat)
    requires Inv(m) && r < |m.conns|
    ensures Room(m.conns[r]) >= 0
  {
    hide Pressed, ReconIds, OwnTimer, ListOk;
    Split(m, r);
  }

  lemma ShortStart(m: Core, r: nat, n: int)
    requires r < |m.conns| && 0 <= Room(m.conns[r]) < n
    ensures Short(m, r, n)
  {
  }

  lemma ShortEnd(m: Core, r: nat)
    requires r < |m.conns| && Short(m, r, 0)
    ensures !m.conns[r].state.Connected?
  {
  }

  lemma ShortGrab(m: Core, r: nat, n: int)
    requires r < |m.conns| && Wf(m)
    ensures Wf(m.(grabbed := true)) && (Short(m, r, n) ==> Short(m.(grabbed := true), r, n))
  {
  }

  /** If the departing remote's queue is too full, its failure drops the grab in mid-switch. */
  lemma ArrivesUngrabbed(m: Core, to: nat, keys: seq<Word>)
    requires Inv(m) && to < |m.conns| && m.focused.Remote? && m.focused != Remote(to)
    requires |FromMsgs(m, keys)| > Room(m.conns[m.focused.id])
    ensures !Switch(m, Remote(to), keys).grabbed
  {
    hide Enqueue, SendAll, IndicateSwitch, Inv, Wf, KeyMsgs;
    var from := m.focused.id;
    var n := |FromMsgs(m, keys)|;
    KeyMsgsLength(keys, RELEASE);
    KeyMsgsLength(keys, PRESS);
    RoomBounds(m, from);
    assert ShortOrLost(m, from, n);
    hide ShortOrLost;
    IndicateLost(m, from, n, Remote(to));
    var m1 := IndicateSwitch(m, Remote(from), Remote(to));
    var k := n - |DimMsgs(m.cfg.hint)|;
    EnqueueLost(m1, from, k, from, GetClipboard);
    var m3 := Enqueue(m1, from, GetClipboard);
    AllLost(m3, from, k - 1, from, KeyMsgs(keys, RELEASE));
    var m4 := SendAll(m3, from, KeyMsgs(keys, RELEASE));
    AllLost(m4, from, k - 1 - |keys|, to, KeyMsgs(keys, PRESS));
    LostEnd(SendAll(m4, to, KeyMsgs(keys, PRESS)), from);
  }

  lemma LostEnd(m: Core, r: nat)
    requires r < |m.conns| && ShortOrLost(m, r, 0)
    ensures !m.grabbed
  {
  }

  /** Going home ends on the master with the grab dropped, whatever fails on the way. */
  lemma HomeUngrabbed(m: Core, keys: seq<Word>)
    requires Inv(m) && m.focused.Remote?
    ensures !Switch(m, Master, keys).grabbed
  {
    hide Enqueue, SendAll, IndicateSwitch, Inv;
    var from := m.focused.id;
    var m2 := IndicateSwitch(m, m.focused, Master).(grabbed := false);
    EnqueueLost(m2, from, 0, from, GetClipboard);
    AllLost(Enqueue(m2, from, GetClipboard), from, -1, from, KeyMsgs(keys, RELEASE));
  }

  lemma RoomSafe(m: Core, to: Node, keys: seq<Word>)
    requires Inv(m) && Reachable(m, to) && to != m.focused && SwitchRoom(m, to, keys)
    ensures FocusOk(Switch(m, to, keys))
  {
    hide Inv, Switch, ListOk, SwitchRoom, SameButFades, FromMsgs, ToMsgs;
    InvList(m);
    SwitchEffect(m, to, keys);
    FadesList(Switched(m, to, keys), Switch(m, to, keys));
  }

  /** The exact condition: a switch leaves the focus on the master or a connected remote, with
      inputs grabbed accordingly, if and only if it goes to the master or both send queues have
      room for what it sends. */
  lemma SwitchSafeExactly(m: Core, to: Node, keys: seq<Word>)
    requires Inv(m) && Reachable(m, to) && to != m.focused
    ensures FocusOk(Switch(m, to, keys)) <==> to.Master? || SwitchRoom(m, to, keys)
  {
    hide Inv, FromMsgs, ToMsgs, TransferClipboard, TransferModifiers, IndicateSwitch;
    if to.Master? {
      HomeUngrabbed(m, keys);
    } else if SwitchRoom(m, to, keys) {
      RoomSafe(m, to, keys);
    } else if |ToMsgs(m, keys)| > Room(m.conns[to.id]) {
      ArrivesOnFailed(m, to.id, keys);
    } else {
      ArrivesUngrabbed(m, to.id, keys);
    }
  }

  // ---------------------------------------------------------------- sending on after a failure

  /** The books of a closed connection as one failure leaves them. */
  ghost predicate FailedOnce(m: Core, r: nat)
    requires r < |m.conns|
  {
    var c := m.conns[r];
    || (c.state.Failed? && c.timer.Some? && c.timer.value in ReconIds(m.calls, r) && c.timer.value < m.nextId)
    || (c.state.PermFailed? && c.failcount == Cap(m.cfg) + 1)
  }

  /** As a second failure leaves them: counted twice, or with a reconnect call nobody remembers. */
  ghost predicate FailedAgain(m: Core, r: nat)
    requires r < |m.conns|
  {
    var c := m.conns[r];
    || c.failcount > Cap(m.cfg) + 1
    || exists id :: id in ReconIds(m.calls, r) && id < m.nextId && (c.state.Failed? ==> c.timer != Some(id))
  }

  /** Something has been sent on a closed channel, and may have failed the remote once more. */
  ghost predicate Broken(m: Core, r: nat)
    requires r < |m.conns|
  {
    !m.conns[r].open && (FailedAgain(m, r) || (m.conns[r].sent != [] && FailedOnce(m, r)))
  }

  /** `n` more messages to `r` are at least one too many: one fails it, and another follows. */
  ghost predicate Doomed(m: Core, r: nat, n: int)
    requires r < |m.conns|
  {
    var c := m.conns[r];
    || Broken(m, r)
    || (!c.open && n >= 1 && FailedOnce(m, r) && c.sent == [] && c.taken == 0)
    || (c.open && ReconIds(m.calls, r) == {} && 0 <= c.failcount <= Cap(m.cfg) && 0 <= Room(c) <= n - 2)
  }

  lemma BrokenNotInv(m: Core, r: nat)
    requires r < |m.conns| && Broken(m, r)
    ensures !Inv(m)
  {
    hide Pressed, OwnTimer, ReconIds, ListOk;
    if Inv(m) {
      Split(m, r);
      assert false;
    }
  }

  lemma SecondFailure(m: Core, r: nat)
    requires Wf(m) && r < |m.conns| && (FailedOnce(m, r) || FailedAgain(m, r))
    ensures FailedAgain(Fail(m, r), r) && !Fail(m, r).conns[r].open
  {
    hide Fail, Wf, ReconIds;
    FailFrame(m, r);
    var c, m' := m.conns[r], Fail(m, r);
    if FailedAgain(m, r) && c.failcount <= Cap(m.cfg) + 1 {
      var id :| id in ReconIds(m.calls, r) && id < m.nextId && (c.state.Failed? ==> c.timer != Some(id));
      assert id in ReconIds(m'.calls, r) && id < m'.nextId;
    } else if c.state.Failed? && c.timer.Some? {
      assert c.timer.value in ReconIds(m.calls, r) ==> c.timer.value in ReconIds(m'.calls, r);
    }
  }

  lemma EnqueueDoomed(m: Core, r: nat, n: int, msg: Message)
    requires Wf(m) && r < |m.conns| && Doomed(m, r, n)
    ensures Doomed(Enqueue(m, r, msg), r, n - 1)
  {
    hide Fail, Wf, ReconIds;
    var c := m.conns[r];
    var m1 := Put(m, r, c.(sent := c.sent + [msg]));
    assert FailedOnce(m1, r) == FailedOnce(m, r) && FailedAgain(m1, r) == FailedAgain(m, r);
    if Room(m1.conns[r]) < 0 {
      if c.open {
        FailFrame(m1, r);
      } else {
        SecondFailure(m1, r);
      }
    }
  }

  lemma {:induction false} AllDoomed(m: Core, r: nat, n: int, ms: seq<Message>)
    requires Wf(m) && r < |m.conns| && Doomed(m, r, n)
    ensures Doomed(SendAll(m, r, ms), r, n - |ms|)
    decreases |ms|
  {
    hide Enqueue, Wf, Doomed;
    if ms != [] {
      EnqueueDoomed(m, r, n, ms[0]);
      AllDoomed(Enqueue(m, r, ms[0]), r, n - 1, ms[1..]);
    }
  }

  /** Focus, grab and fades have no part in it. */
  lemma DoomedSame(m: Core, m': Core, r: nat, n: int)
    requires r < |m.conns| && Doomed(m, r, n) && m'.conns == m.conns && m'.cfg == m.cfg && m.nextId <= m'.nextId
    requires ReconIds(m'.calls, r) == ReconIds(m.calls, r)
    ensures Doomed(m', r, n)
  {
    hide ReconIds;
    if FailedAgain(m, r) && m.conns[r].failcount <= Cap(m.cfg) + 1 {
      var c := m.conns[r];
      var id :| id in ReconIds(m.calls, r) && id < m.nextId && (c.state.Failed? ==> c.timer != Some(id));
      assert id in ReconIds(m'.calls, r) && id < m'.nextId;
    }
  }

  lemma TransitionDoomed(m: Core, r: nat, n: int, node: Node, fade: Fade)
    requires Wf(m) && r < |m.conns| && (node == Remote(r) || node == Master) && Doomed(m, r, n)
    ensures Doomed(Transition(m, node, fade), r, if node.Remote? then n - 1 else n)
  {
    hide Enqueue, Wf, ScheduleFade, Doomed, ReconIds;
    var m1 := if node.Remote? then Enqueue(m, node.id, SetBrightness(fade.first)) else m;
    if node.Remote? {
      EnqueueDoomed(m, r, n, SetBrightness(fade.first));
    }
    FadeSame(m1, node, fade.steps);
    DoomedSame(m1, ScheduleFade(m1, node, fade.steps), r, if node.Remote? then n - 1 else n);
  }

  lemma IndicateDoomed(m: Core, r: nat, n: int)
    requires Wf(m) && r < |m.conns| && Doomed(m, r, n)
    ensures Doomed(IndicateSwitch(m, Remote(r), Master), r, n - |DimMsgs(m.cfg.hint)|)
  {
    hide Transition, Wf, Doomed;
    match m.cfg.hint
    case NoHint =>
    case DimInactive(dim, lift) =>
      TransitionDoomed(m, r, n, Remote(r), dim);
      TransitionDoomed(Transition(m, Remote(r), dim), r, n - 1, Master, lift);
    case FlashActive(flash) => TransitionDoomed(m, r, n, Master, flash);
  }

  lemma DoomedStart(m: Core, r: nat, n: int)
    requires Inv(m) && r < |m.conns| && m.conns[r].open && n >= Room(m.conns[r]) + 2
    ensures Doomed(m, r, n)
  {
    hide Pressed, OwnTimer, ReconIds, ListOk;
    Split(m, r);
  }

  lemma DoomedEnd(m: Core, r: nat)
    requires r < |m.conns| && Doomed(m, r, 0)
    ensures !Inv(m)
  {
    hide ReconIds, Broken;
    BrokenNotInv(m, r);
  }

  /** Going home from a remote whose queue has room for less than all but one of the messages. */
  lemma HomeBreaks(m: Core, keys: seq<Word>)
    requires Inv(m) && m.focused.Remote? && |FromMsgs(m, keys)| > Room(m.conns[m.focused.id]) + 1
    ensures !Inv(Switch(m, Master, keys))
  {
    hide Inv, Enqueue, SendAll, IndicateSwitch, Wf, Doomed, ReconIds, KeyMsgs;
    var r, n := m.focused.id, |FromMsgs(m, keys)|;
    KeyMsgsLength(keys, RELEASE);
    OpenWhenConnected(m, r);
    DoomedStart(m, r, n);
    IndicateDoomed(m, r, n);
    var m1 := IndicateSwitch(m, Remote(r), Master);
    var m2 := m1.(grabbed := false);
    assert Wf(m2) by { WfGrab(m1, false); }
    var k := n - |DimMsgs(m.cfg.hint)|;
    DoomedSame(m1, m2, r, k);
    EnqueueDoomed(m2, r, k, GetClipboard);
    AllDoomed(Enqueue(m2, r, GetClipboard), r, k - 1, KeyMsgs(keys, RELEASE));
    var m4 := SendAll(Enqueue(m2, r, GetClipboard), r, KeyMsgs(keys, RELEASE));
    DoomedSame(m4, m4.(last := m4.focused, focused := Master), r, 0);
    DoomedEnd(m4.(last := m4.focused, focused := Master), r);
  }

  // ---------------------------------------------------------------- failing with the last message

  /** One message more than there is room for: the last one fails the remote. */
  lemma {:induction false} SendAllOver(m: Core, r: nat, ms: seq<Message>)
    requires Wf(m) && r < |m.conns| && Room(m.conns[r]) >= 0 && |ms| == Room(m.conns[r]) + 1
    ensures SendAll(m, r, ms) == Fail(Append(m, Remote(r), ms), r)
    decreases |ms|
  {
    hide Wf, Fail;
    if |ms| == 1 {
      assert ms == [ms[0]] && ms[1..] == [];
    } else {
      EnqueueRoom(m, r, ms[0]);
      SendAllOver(Append(m, Remote(r), [ms[0]]), r, ms[1..]);
      AppendTwice(m, Remote(r), [ms[0]], ms[1..]);
      assert [ms[0]] + ms[1..] == ms;
    }
  }

  lemma FailGrab(m: Core, r: nat, g: bool)
    requires Wf(m) && Wf(m.(grabbed := g)) && r < |m.conns| && m.focused == Remote(r)
    ensures Fail(m.(grabbed := g), r) == Fail(m, r)
  {
    hide ScheduleFade, Insert, Wf;
  }

  lemma AppendGrab(m: Core, n: Node, ms: seq<Message>, g: bool)
    requires Wf(m) && Wf(m.(grabbed := g)) && InRange(m, n)
    ensures Append(m.(grabbed := g), n, ms) == Append(m, n, ms).(grabbed := g)
  {
  }

  /** Going home when just the last message is one too many: the switch ends in that failure. */
  lemma HomeOver(m: Core, keys: seq<Word>) returns (x: Core)
    requires Inv(m) && m.focused.Remote? && |FromMsgs(m, keys)| == Room(m.conns[m.focused.id]) + 1
    ensures Wf(x) && |x.conns| == |m.conns| && SameButFades(Append(m, m.focused, FromMsgs(m, keys)), x)
    ensures Switch(m, Master, keys) == Fail(x, m.focused.id).(last := Master, focused := Master)
  {
    hide Inv, Wf, ListOk, SameButFades, Append, IndicateSwitch, Enqueue, KeyMsgs, Fail;
    var from, r := m.focused, m.focused.id;
    var d, ms := DimMsgs(m.cfg.hint), [GetClipboard] + KeyMsgs(keys, RELEASE);
    KeyMsgsLength(keys, RELEASE);
    InvList(m);
    IndicateRoom(m, Master);
    var m1 := IndicateSwitch(m, from, Master);
    var a1 := Append(m, from, d);
    assert Append(a1, Master, LiftMsgs(m.cfg.hint)) == a1 by { AppendMaster(a1, LiftMsgs(m.cfg.hint)); }
    FadesList(a1, m1);
    AppendFields(m, from, Master, d, []);
    AppendMaster(a1, []);
    AppendedRoom(m, from, Master, d, []);
    WfGrab(m1, false);
    var m2 := m1.(grabbed := false);
    assert ms[0] == GetClipboard && ms[1..] == KeyMsgs(keys, RELEASE);
    assert SendAll(m2, r, ms) == SendAll(Enqueue(m2, r, GetClipboard), r, KeyMsgs(keys, RELEASE));
    SendAllOver(m2, r, ms);
    x := Append(m1, from, ms);
    AppendGrab(m1, from, ms, false);
    FadesAppend(a1, m1, from, ms);
    AppendTwice(m, from, d, ms);
    assert d + ms == FromMsgs(m, keys);
    AppendFields(m, from, Master, FromMsgs(m, keys), []);
    AppendMaster(Append(m, from, FromMsgs(m, keys)), []);
    FadesList(Append(m, from, FromMsgs(m, keys)), x);
    FailGrab(x, r, false);
    FailFrame(x, r);
  }

  lemma AppendMaster(m: Core, ms: seq<Message>)
    requires Wf(m)
    ensures Append(m, Master, ms) == m
  {
  }

  lemma HomeOverKeeps(m: Core, keys: seq<Word>)
    requires Inv(m) && m.focused.Remote? && |FromMsgs(m, keys)| == Room(m.conns[m.focused.id]) + 1
    ensures Inv(Switch(m, Master, keys))
  {
    hide Inv, Others, ConnOk, OwnTimer, Pressed, ListOk, ReconIds, Switch, Fail, FromMsgs;
    var r := m.focused.id;
    var c, ms := m.conns[r], FromMsgs(m, keys);
    var x := HomeOver(m, keys);
    Split(m, r);
    PutKeepsOthers(m, r, c.(sent := c.sent + ms));
    var a := Append(m, m.focused, ms);
    FadeKeepsOthers(a, x, r);
    CountBound(m, r);
    FailKeeps(x, r);
    FailFrame(x, r);
    LastKeeps(Fail(x, r), Master);
  }

  lemma CountBound(m: Core, r: nat)
    requires Inv(m) && r < |m.conns| && m.conns[r].state.Connected?
    ensures m.conns[r].failcount == 0
  {
    hide Pressed, ReconIds, OwnTimer, ListOk;
    Split(m, r);
  }

  lemma LastKeeps(m: Core, n: Node)
    requires Inv(m) && InRange(m, n)
    ensures Inv(m.(last := n))
  {
    hide ConnOk, TimerOk, OwnTimer, Pressed, ListOk;
    forall q | 0 <= q < |m.conns|
      ensures RemoteOk(m.(last := n), q)
    {
      assert RemoteOk(m, q);
    }
  }

  // ---------------------------------------------------------------- exactly when a switch keeps everything

  /** Enough room for a switch: to a remote, for all that it sends on both ends; home, for all but
      the last message. */
  predicate SwitchFits(m: Core, to: Node, keys: seq<Word>)
    requires InRange(m, m.focused) && InRange(m, to)
  {
    if to.Master? then m.focused.Remote? ==> |FromMsgs(m, keys)| <= Room(m.conns[m.focused.id]) + 1
    else SwitchRoom(m, to, keys)
  }

  /** The exact condition: a switch that names the modifiers really held keeps the invariant if and
      only if it fits. */
  lemma SwitchKeepsExactly(m: Core, to: Node, keys: seq<Word>)
    requires Inv(m) && Reachable(m, to) && to != m.focused && KeySet(keys) == m.held
    ensures Inv(Switch(m, to, keys)) <==> SwitchFits(m, to, keys)
    ensures Switch(m, to, keys).focused == to
  {
    hide Inv, FromMsgs, ToMsgs, TransferClipboard, TransferModifiers, IndicateSwitch, Switch;
    assert Switch(m, to, keys).focused == to by { SwitchEnds(m, to, keys); }
    if SwitchRoom(m, to, keys) {
      SwitchKeeps(m, to, keys);
    } else if to.Remote? {
      SwitchSafeExactly(m, to, keys);
    } else if SwitchFits(m, to, keys) {
      HomeOverKeeps(m, keys);
    } else {
      HomeBreaks(m, keys);
    }
  }

  lemma SwitchEnds(m: Core, to: Node, keys: seq<Word>)
    requires Wf(m) && InRange(m, to)
    ensures Switch(m, to, keys).focused == to
  {
    hide Wf, IndicateSwitch, TransferClipboard, TransferModifiers;
  }

  // ---------------------------------------------------------------- bursts of clicks

  /** A burst of messages about no modifier key keeps the invariant if and only if at most the last
      of them is one too many. */
  lemma SendAllExactly(m: Core, r: nat, ms: seq<Message>)
    requires Inv(m) && r < |m.conns| && m.conns[r].open
    requires forall i :: 0 <= i < |ms| ==> ToRemote(ms[i]) && !ms[i].KeyEvent?
    ensures Inv(SendAll(m, r, ms)) <==> |ms| <= Room(m.conns[r]) + 1
  {
    hide Inv, SendAll, Wf, Doomed;
    if |ms| <= Room(m.conns[r]) + 1 {
      SendAllKeeps(m, r, ms);
    } else {
      DoomedStart(m, r, |ms|);
      AllDoomed(m, r, |ms|, ms);
      DoomedEnd(SendAll(m, r, ms), r);
    }
  }

  lemma {:induction false} SendAllKeeps(m: Core, r: nat, ms: seq<Message>)
    requires Inv(m) && r < |m.conns| && m.conns[r].open && |ms| <= Room(m.conns[r]) + 1
    requires forall i :: 0 <= i < |ms| ==> ToRemote(ms[i]) && !ms[i].KeyEvent?
    ensures Inv(SendAll(m, r, ms))
    decreases |ms|
  {
    hide Inv, Wf, Fail;
    if ms != [] {
      SendKeeps(m, r, ms[0]);
      if |ms| > 1 {
        SendAllKeeps(Enqueue(m, r, ms[0]), r, ms[1..]);
      } else {
        assert ms[1..] == [];
      }
    }
  }

  /** Enough room for a click, which a scroll multiplier may turn into many. */
  predicate ClickFits(m: Core, button: Word, pr: Word)
    requires InRange(m, m.focused)
  {
    m.focused.Remote? ==>
      |ClickMsgs(m.conns[m.focused.id].scrollmult, button, pr)| <= Room(m.conns[m.focused.id]) + 1
  }

  /** The exact condition for a click. */
  lemma ClickKeepsExactly(m: Core, button: Word, pr: Word)
    requires Inv(m)
    ensures Inv(SendClick(m, button, pr)) <==> ClickFits(m, button, pr)
  {
    hide Inv, SendAll;
    if m.focused.Remote? {
      OpenWhenConnected(m, m.focused.id);
      SendAllExactly(m, m.focused.id, ClickMsgs(m.conns[m.focused.id].scrollmult, button, pr));
    }
  }

  /** A transition touches one connection at most. */
  lemma TransitionOthers(m: Core, node: Node, fade: Fade)
    requires Wf(m) && InRange(m, node)
    ensures forall q :: 0 <= q < |m.conns| && node != Remote(q) ==> Transition(m, node, fade).conns[q] == m.conns[q]
  {
    hide Enqueue, ScheduleFade, Wf;
    var m1 := if node.Remote? then Enqueue(m, node.id, SetBrightness(fade.first)) else m;
    if node.Remote? {
      EnqueueFrame(m, node.id, SetBrightness(fade.first));
    }
    FadeSame(m1, node, fade.steps);
  }

  // ---------------------------------------------------------------- all focus requests

  /** Where a focus request leads: nowhere, or from the focused node to another one. */
  predicate Switches(m: Core, target: Option<Node>) {
    target.Some? && Reachable(m, target.value) && target.value != m.focused
  }

  predicate FocusFits(m: Core, target: Option<Node>, keys: seq<Word>)
    requires Wf(m)
  {
    Switches(m, target) ==> SwitchFits(m, target.value, keys)
  }

  /** A focus request that names the modifiers really held, whether it switches, finds the remote
      away and asks for a reconnection, or has nowhere to go, keeps the invariant if and only if it
      fits. */
  lemma FocusKeepsExactly(m: Core, target: Option<Node>, keys: seq<Word>, viaHotkey: bool)
    requires Inv(m) && (target.Some? ==> InRange(m, target.value)) && KeySet(keys) == m.held
    ensures Inv(FocusNode(m, target, keys, viaHotkey)) <==> FocusFits(m, target, keys)
  {
    hide Inv, Switch, SwitchFits, KeySet, ReconnectRemote, IndicateSwitch;
    var away := target.Some? && target.value.Remote? && !m.conns[target.value.id].state.Connected?;
    if away {
      ReconnectKeeps(m, target.value.id);
      NullIndicationKeeps(ReconnectRemote(m, target.value.id));
    } else if target.Some? && target.value != m.focused {
      SwitchKeepsExactly(m, target.value, keys);
    } else {
      NullIndicationKeeps(m);
    }
  }

  /** A modifier key goes down or up at the master: the focused remote, if any, is told. */
  function KeyStep(m: Core, key: Word, pr: Word): (m': Core)
    requires Wf(m)
    ensures Wf(m') && |m'.conns| == |m.conns|
  {
    ToFocused(m.(held := PressedAfter(m.held, KeyEvent(key, pr), m.cfg.modifiers)), KeyEvent(key, pr))
  }

  lemma KeyKeeps(m: Core, key: Word, pr: Word)
    requires Inv(m)
    ensures Inv(KeyStep(m, key, pr))
  {
    hide ConnOk, TimerOk, OwnTimer, Pressed, ListOk;
    var msg := KeyEvent(key, pr);
    var m1 := m.(held := PressedAfter(m.held, msg, m.cfg.modifiers));
    forall q | 0 <= q < |m.conns| && m.focused != Remote(q)
      ensures RemoteOk(m1, q)
    {
      assert RemoteOk(m, q);
    }
    if m.focused.Remote? {
      var r := m.focused.id;
      assert RemoteOk(m, r);
      OpenWhenConnected(m, r);
      hide Inv, Enqueue, Wf;
      EnqueueKeeps(m1, r, msg);
    }
  }

  /** Any other input for the focused remote. */
  lemma InputKeeps(m: Core, msg: Message)
    requires Inv(m) && ToRemote(msg) && !msg.KeyEvent?
    ensures Inv(ToFocused(m, msg))
  {
    hide Inv, Enqueue;
    if m.focused.Remote? {
      OpenWhenConnected(m, m.focused.id);
      SendKeeps(m, m.focused.id, msg);
    }
  }

  // ---------------------------------------------------------------- actions over all remotes

  /** The log level goes to every enabled remote without a look at its state. */
  predicate AllOpen(m: Core) {
    forall q :: 0 <= q < |m.conns| && m.conns[q].enabled ==> m.conns[q].open
  }

  predicate ActionFits(m: Core, a: ForAll) {
    a.StepLogLevel? ==> AllOpen(m)
  }

  lemma OnRemoteKeeps(m: Core, a: ForAll, r: nat)
    requires Inv(m) && r < |m.conns| && (a.StepLogLevel? && m.conns[r].enabled ==> m.conns[r].open)
    ensures Inv(OnRemote(m, a, r))
    ensures forall q :: r < q < |m.conns| ==> OnRemote(m, a, r).conns[q] == m.conns[q]
  {
    hide Inv, Enqueue, ReconnectRemote, HaltRemote;
    OnRemoteFrame(m, a, r);
    if m.conns[r].enabled {
      match a
      case ReconnectAll => ReconnectKeeps(m, r);
      case HaltAll => HaltKeeps(m, r);
      case ClearClipboards =>
        if m.conns[r].state.Connected? {
          OpenWhenConnected(m, r);
          SendKeeps(m, r, SetClipboard([]));
        }
      case StepLogLevel(level) => SendKeeps(m, r, SetLogLevel(level));
    }
  }

  lemma EnqueueFrame(m: Core, r: nat, msg: Message)
    requires Wf(m) && r < |m.conns|
    ensures forall q :: 0 <= q < |m.conns| && q != r ==> Enqueue(m, r, msg).conns[q] == m.conns[q]
  {
    hide Fail, Wf;
    FailFrame(Put(m, r, m.conns[r].(sent := m.conns[r].sent + [msg])), r);
  }

  lemma SetupFrame(m: Core, r: nat)
    requires Wf(m) && r < |m.conns|
    ensures forall q :: 0 <= q < |m.conns| && q != r ==> SetupRemote(m, r).conns[q] == m.conns[q]
  {
    hide Enqueue, Wf;
    var c := m.conns[r];
    var m1 := Put(m, r, Closed(c).(state := SettingUp, open := true, session := c.session + 1));
    EnqueueFrame(m1, r, Setup(PROT_VERSION, m.loglevel, c.params));
  }

  lemma OnRemoteFrame(m: Core, a: ForAll, r: nat)
    requires Wf(m) && r < |m.conns|
    ensures forall q :: 0 <= q < |m.conns| && q != r ==> OnRemote(m, a, r).conns[q] == m.conns[q]
  {
    hide Enqueue, Wf, Remove, Disconnect, SetupRemote;
    EnqueueFrame(m, r, SetClipboard([]));
    if a.StepLogLevel? {
      EnqueueFrame(m, r, SetLogLevel(a.level));
    }
    var c := m.conns[r];
    DisconnectConn(m, r);
    var m1 := if c.timer.Some? then CancelTask(m, c.timer.value) else m;
    DisconnectConn(m1, r);
    var m2 := if c.state.SettingUp? then Disconnect(m1, r) else m1;
    SetupFrame(Put(m2, r, m2.conns[r].(failcount := 0)), r);
  }

  lemma {:induction false} OnFirstKeeps(m: Core, a: ForAll, n: nat)
    requires Inv(m) && n <= |m.conns| && ActionFits(m, a)
    ensures Inv(OnFirst(m, a, n))
    ensures forall q :: n <= q < |m.conns| ==> OnFirst(m, a, n).conns[q] == m.conns[q]
  {
    hide Inv, OnRemote;
    if n == 0 {
      ClipKeeps(m, []);
      if a.StepLogLevel? {
        LogLevelKeeps(m, a.level);
      }
    } else {
      OnFirstKeeps(m, a, n - 1);
      OnRemoteKeeps(OnFirst(m, a, n - 1), a, n - 1);
    }
  }

  /** An enabled remote that is not connected ends up with a message on its closed channel. */
  lemma {:induction false} LogLevelOnClosed(m: Core, level: Word, n: nat, q: nat)
    requires Inv(m) && q < n <= |m.conns| && m.conns[q].enabled && !m.conns[q].open
    ensures var c := OnFirst(m, StepLogLevel(level), n).conns[q]; !c.open && c.sent != []
  {
    hide Inv, OnRemote, Wf;
    var a := StepLogLevel(level);
    var m1 := OnFirst(m, a, n - 1);
    OnRemoteFrame(m1, a, n - 1);
    if q < n - 1 {
      LogLevelOnClosed(m, level, n - 1, q);
    } else {
      OnFirstUntouched(m, a, n - 1, q);
      ClosedEmpty(m, q);
      PushOnClosed(m1, level, q);
    }
  }

  lemma PushOnClosed(m: Core, level: Word, q: nat)
    requires Wf(m) && q < |m.conns| && m.conns[q].enabled && !m.conns[q].open
    requires m.conns[q].sent == [] && m.conns[q].taken == 0
    ensures var c := OnRemote(m, StepLogLevel(level), q).conns[q]; !c.open && c.sent != []
  {
    hide Fail, Wf;
  }

  lemma {:induction false} OnFirstUntouched(m: Core, a: ForAll, n: nat, q: nat)
    requires Wf(m) && n <= q < |m.conns|
    ensures OnFirst(m, a, n).conns[q] == m.conns[q]
  {
    hide OnRemote, Wf;
    if n > 0 {
      OnFirstUntouched(m, a, n - 1, q);
      OnRemoteFrame(OnFirst(m, a, n - 1), a, n - 1);
    }
  }

  lemma ClosedEmpty(m: Core, q: nat)
    requires Inv(m) && q < |m.conns| && !m.conns[q].open
    ensures m.conns[q].sent == [] && m.conns[q].taken == 0
  {
    hide Pressed, ReconIds, OwnTimer, ListOk;
    Split(m, q);
  }

  /** An action treats each remote once, by the state it finds it in. */
  lemma {:induction false} OnFirstAt(m: Core, a: ForAll, n: nat, q: nat)
    requires Wf(m) && q < n <= |m.conns|
    ensures OnFirst(m, a, q).conns[q] == m.conns[q]
    ensures OnFirst(m, a, n).conns[q] == OnRemote(OnFirst(m, a, q), a, q).conns[q]
  {
    hide OnRemote, Wf;
    OnFirstUntouched(m, a, q, q);
    if q < n - 1 {
      OnFirstAt(m, a, n - 1, q);
      OnRemoteFrame(OnFirst(m, a, n - 1), a, n - 1);
    }
  }

  /** Halting gives up every enabled remote that was connecting or waiting, and touches no other. */
  lemma HaltLeavesNothing(m: Core, q: nat)
    requires Inv(m) && q < |m.conns|
    ensures var c, c' := m.conns[q], OnFirst(m, HaltAll, |m.conns|).conns[q];
      c' == if c.enabled && (c.state.SettingUp? || c.state.Failed?) then Closed(c).(state := PermFailed) else c
  {
    hide Inv, Wf, Remove, Disconnect, OnFirst;
    OnFirstAt(m, HaltAll, |m.conns|, q);
    var m1 := OnFirst(m, HaltAll, q);
    DisconnectConn(m1, q);
    FailedIsClosed(m, q);
  }

  lemma FailedIsClosed(m: Core, r: nat)
    requires Inv(m) && r < |m.conns|
    ensures m.conns[r].state.Failed? ==> m.conns[r] == Closed(m.conns[r])
  {
    hide Pressed, ReconIds, OwnTimer, ListOk;
    Split(m, r);
  }

  /** Clearing reaches every enabled connected remote that has room, the log level every enabled one. */
  lemma BroadcastReaches(m: Core, a: ForAll, q: nat)
    requires Wf(m) && q < |m.conns| && m.conns[q].enabled && Room(m.conns[q]) >= 1
    requires a.ClearClipboards? || a.StepLogLevel?
    ensures var c, c' := m.conns[q], OnFirst(m, a, |m.conns|).conns[q];
      if a.StepLogLevel? then c' == c.(sent := c.sent + [SetLogLevel(a.level)])
      else if c.state.Connected? then c' == c.(sent := c.sent + [SetClipboard([])])
      else c' == c
  {
    hide Wf, OnFirst, Fail;
    OnFirstAt(m, a, |m.conns|, q);
  }

  /** The exact condition for the log-level action: it keeps the invariant if and only if every
      enabled remote has an open channel. */
  lemma LogLevelSafeExactly(m: Core, level: Word)
    requires Inv(m)
    ensures Inv(OnFirst(m, StepLogLevel(level), |m.conns|)) <==> AllOpen(m)
  {
    hide Inv, OnRemote, Wf;
    var m' := OnFirst(m, StepLogLevel(level), |m.conns|);
    if AllOpen(m) {
      OnFirstKeeps(m, StepLogLevel(level), |m.conns|);
    } else {
      var q :| 0 <= q < |m.conns| && m.conns[q].enabled && !m.conns[q].open;
      LogLevelOnClosed(m, level, |m.conns|, q);
      if Inv(m') {
        ClosedEmpty(m', q);
      }
    }
  }

  lemma LogLevelKeeps(m: Core, level: Word)
    requires Inv(m)
    ensures Inv(m.(loglevel := level))
  {
    hide ConnOk, TimerOk, OwnTimer, Pressed, ListOk;
    forall q | 0 <= q < |m.conns|
      ensures RemoteOk(m.(loglevel := level), q)
    {
      assert RemoteOk(m, q);
    }
  }

  // ---------------------------------------------------------------- start-up

  lemma StartupOk(m: Core)
    requires Startup(m) && m.held <= m.cfg.modifiers
    ensures Inv(m)
  {
    forall q | 0 <= q < |m.conns|
      ensures RemoteOk(m, q)
    {
      assert Pristine(m.conns[q]);
    }
  }

  lemma {:induction false} SetupAllOk(m: Core, n: nat)
    requires Startup(m) && m.held <= m.cfg.modifiers && n <= |m.conns|
    ensures Wf(m) && Inv(SetupAll(m, n)) && SetupAll(m, n).focused == Master && SetupAll(m, n).calls == []
    ensures forall q :: n <= q < |m.conns| ==> SetupAll(m, n).conns[q] == m.conns[q]
  {
    hide Inv, SetupRemote;
    StartupOk(m);
    if n > 0 {
      SetupAllOk(m, n - 1);
      var m1 := SetupAll(m, n - 1);
      if m1.conns[n - 1].enabled {
        FreshSetup(m1, n - 1);
      }
    }
  }

  lemma FreshSetup(m: Core, r: nat)
    requires Inv(m) && r < |m.conns| && Pristine(m.conns[r]) && m.focused == Master && m.calls == []
    ensures Inv(SetupRemote(m, r)) && SetupRemote(m, r).focused == Master && SetupRemote(m, r).calls == []
    ensures forall q :: 0 <= q < |m.conns| && q != r ==> SetupRemote(m, r).conns[q] == m.conns[q]
  {
    hide Inv, Pressed, Others, OwnTimer;
    Split(m, r);
    SetupFrame(m, r);
    SetupKeeps(m, r);
  }
}
