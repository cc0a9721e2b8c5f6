/** Runs that end where the source relies on room, or on an open channel, that is not there.  Each
    begins at start-up with one remote; what goes wrong next is what `System.Fits` excludes. */
module Limits {
  import opened Base
  import opened Proto
  import opened MasterSpec
  import opened MasterInv
  import opened Focus
  import opened System
  import opened Runs

  /** Some run leads here. */
  ghost predicate Reached(s: Sys) {
    exists m0, states, events :: Leads(m0, states, events, s)
  }

  ghost predicate Leads(m0: Core, states: seq<Sys>, events: seq<Event>, s: Sys) {
    Run(m0, states, events) && states[|events|] == s
  }

  lemma ReachedInv(s: Sys)
    requires Reached(s)
    ensures SysInv(s)
  {
    hide Run;
    var m0, states, events :| Leads(m0, states, events, s);
    assert |states| == |events| + 1 by { RunLength(m0, states, events); }
    AlwaysInv(m0, states, events, |events|);
  }

  lemma RunLength(m0: Core, states: seq<Sys>, events: seq<Event>)
    requires Run(m0, states, events)
    ensures |states| == |events| + 1
  {
  }

  lemma ReachedNext(s: Sys, e: Event)
    requires Reached(s) && Sized(s) && CanHappen(s, e)
    ensures Reached(Next(s, e))
  {
    hide CanHappen, Next, Initial;
    var m0, states, events :| Leads(m0, states, events, s);
    var states', events' := states + [Next(s, e)], events + [e];
    forall i | 0 <= i < |events'|
      ensures Sized(states'[i]) && CanHappen(states'[i], events'[i]) && states'[i + 1] == Next(states'[i], events'[i])
    {
      if i < |events| {
        assert Sized(states[i]) && CanHappen(states[i], events[i]) && states[i + 1] == Next(states[i], events[i]);
      }
    }
    assert Leads(m0, states', events', Next(s, e));
  }

  // ---------------------------------------------------------------- one remote

  const FADE := Fade(0, [])
  const SCREEN := Rectangle(Range(0, 0), Range(0, 0))
  const QUIET := Env([], Point(0, 0), SCREEN, true)

  /** Inactive nodes are dimmed, and a turn of the wheel counts twice. */
  const CONFIG := Config(3, 60_000_000, DimInactive(FADE, FADE), Never, {})
  const IDLE := Conn(true, [], 2, New, 0, None, false, 0, [], 0, 0)
  const SETUP := Setup(PROT_VERSION, 0, [])
  const CALLING := IDLE.(state := SettingUp, open := true, session := 1, sent := [SETUP])

  function Alone(c: Conn): Core {
    Core(CONFIG, 0, [c], [], 0, 0, Master, Master, false, [], {})
  }

  function Pair(c: Conn, p: Proc): (s: Sys)
    ensures Sized(s)
  {
    Sys(Alone(c), [p], [[]])
  }

  lemma StartedUp()
    ensures Reached(Pair(CALLING, FRESH_PROC))
  {
    var m0, s := Alone(IDLE), Pair(CALLING, FRESH_PROC);
    assert [] + [SETUP] == [SETUP];
    assert SetupRemote(m0, 0) == Alone(CALLING);
    assert SetupAll(m0, 1) == Alone(CALLING);
    assert Initial(s, m0);
    assert Leads(m0, [s], [], s);
  }

  lemma SameProcs(s: Sys, m': Core)
    requires Sized(s) && Wf(m') && |m'.conns| == |s.m.conns|
    requires forall r :: 0 <= r < |s.m.conns| ==> m'.conns[r].session == s.m.conns[r].session
    ensures Sync(s, m') == s.(m := m')
  {
  }

  const SENT := CALLING.(taken := 1)
  const ANSWERED := Proc(true, true, 1, {}, [Ready(SCREEN)], 0)
  const GREETED := SENT.(state := Connected, recvd := 1, sent := [SETUP, SetBrightness(0)])

  lemma SetupArrives()
    ensures Reached(Pair(SENT, ANSWERED))
  {
    hide Reached;
    StartedUp();
    var s0, s1 := Pair(CALLING, FRESH_PROC), Pair(SENT, FRESH_PROC);
    assert MasterStep(s0, Transmit(0)) == Alone(SENT);
    SameProcs(s0, Alone(SENT));
    ReachedNext(s0, Transmit(0));
    var e, s2 := RemoteReceives(0, QUIET), Pair(SENT, ANSWERED);
    assert [] + LogMsgs([]) + [Ready(SCREEN)] == [Ready(SCREEN)];
    assert RemoteStep(s1, e) == s2;
    SameProcs(s2, Alone(SENT));
    ReachedNext(s1, e);
  }

  /** The handshake: the remote is connected, and has been told to dim. */
  lemma Greets()
    ensures Reached(Pair(GREETED, ANSWERED.(flushed := 1)))
  {
    hide Reached;
    SetupArrives();
    var s2, s3 := Pair(SENT, ANSWERED), Pair(SENT, ANSWERED.(flushed := 1));
    assert RemoteStep(s2, TransmitReply(0)) == s3;
    SameProcs(s3, Alone(SENT));
    ReachedNext(s2, TransmitReply(0));
    assert [SETUP] + [SetBrightness(0)] == [SETUP, SetBrightness(0)];
    assert MasterStep(s3, MasterReceives(0)) == Alone(GREETED);
    SameProcs(s3, Alone(GREETED));
    ReachedNext(s3, MasterReceives(0));
  }

  /** A connected remote, and nothing else going on. */
  ghost predicate Standing(s: Sys, focused: Node) {
    && Reached(s) && SysInv(s) && |s.m.conns| == 1 && s.m.cfg == CONFIG && s.m.focused == focused && s.m.held == {}
    && s.m.conns[0].state.Connected? && s.m.conns[0].enabled && s.m.conns[0].scrollmult == 2
  }

  /** Clearing the clipboard often enough, while the network takes nothing, fills the queue. */
  lemma {:induction false} Fills(s: Sys, focused: Node) returns (t: Sys)
    requires Standing(s, focused)
    ensures Standing(t, focused) && Room(t.m.conns[0]) == 0
    decreases Room(s.m.conns[0])
  {
    hide Reached, Inv, Agree;
    RoomBounds(s.m, 0);
    if Room(s.m.conns[0]) == 0 {
      t := s;
    } else {
      var e := Action(ClearClipboards);
      var m1, msg := s.m.(clip := []), SetClipboard([]);
      EnqueueRoom(m1, 0, msg);
      assert OnFirst(s.m, ClearClipboards, 0) == m1;
      assert MasterStep(s, e) == Append(m1, Remote(0), [msg]);
      SameProcs(s, MasterStep(s, e));
      ReachedNext(s, e);
      ReachedInv(Next(s, e));
      t := Fills(Next(s, e), focused);
    }
  }

  lemma FullAtMaster() returns (s: Sys)
    ensures Standing(s, Master) && Room(s.m.conns[0]) == 0
  {
    hide Reached, SysInv;
    Greets();
    ReachedInv(Pair(GREETED, ANSWERED.(flushed := 1)));
    s := Fills(Pair(GREETED, ANSWERED.(flushed := 1)), Master);
  }

  lemma FullAtRemote() returns (s: Sys)
    ensures Standing(s, Remote(0)) && Room(s.m.conns[0]) == 0
  {
    hide Reached, SysInv, Switch;
    Greets();
    var s0 := Pair(GREETED, ANSWERED.(flushed := 1));
    ReachedInv(s0);
    var e := FocusRequest(Some(Remote(0)), [], true);
    assert KeySet([]) == {};
    KeyMsgsLength([], PRESS);
    assert SwitchRoom(s0.m, Remote(0), []);
    ReachedNext(s0, e);
    ReachedInv(Next(s0, e));
    InvList(s0.m);
    SwitchEffect(s0.m, Remote(0), []);
    FadesList(Switched(s0.m, Remote(0), []), Switch(s0.m, Remote(0), []));
    s := Fills(Next(s0, e), Remote(0));
  }

  // ---------------------------------------------------------------- what goes wrong

  /** A switch to a remote whose queue is full ends with the focus on a remote that is down. */
  lemma SwitchOntoFailed() returns (s: Sys)
    ensures Reached(s) && SysInv(s) && Possible(s, FocusRequest(Some(Remote(0)), [], true))
    ensures var m := Next(s, FocusRequest(Some(Remote(0)), [], true)).m;
      m.focused == Remote(0) && 0 < |m.conns| && !m.conns[0].state.Connected?
  {
    hide Reached, SysInv, Switch, Inv;
    s := FullAtMaster();
    assert KeySet([]) == {};
    ArrivesOnFailed(s.m, 0, []);
    SwitchEnds(s.m, Remote(0), []);
  }

  /** A switch home from a remote whose queue is full asks for the clipboard on a closed channel. */
  lemma HomeOnClosed() returns (s: Sys)
    ensures Reached(s) && SysInv(s) && Possible(s, FocusRequest(Some(Master), [], true))
    ensures !SysInv(Next(s, FocusRequest(Some(Master), [], true)))
    ensures var m := Next(s, FocusRequest(Some(Master), [], true)).m;
      0 < |m.conns| && !m.conns[0].open && m.conns[0].sent == [GetClipboard]
  {
    hide Reached, SysInv, Inv, Fail;
    s := FullAtRemote();
    assert KeySet([]) == {};
    var m1 := Put(s.m, 0, s.m.conns[0].(sent := s.m.conns[0].sent + [SetBrightness(0)]));
    FailFrame(m1, 0);
    assert IndicateSwitch(s.m, Remote(0), Master) == Fail(m1, 0);
    assert KeyMsgs([], RELEASE) == [];
    var m2 := Fail(m1, 0).(grabbed := false);
    assert m2.conns[0].sent == [] && [] + [GetClipboard] == [GetClipboard];
    var m3 := Put(m2, 0, m2.conns[0].(sent := [GetClipboard]));
    assert Enqueue(m2, 0, GetClipboard) == m3;
    assert Switch(s.m, Master, []) == m3.(last := m3.focused, focused := Master);
    StepKeepsExactly(s, FocusRequest(Some(Master), [], true));
    KeyMsgsLength([], RELEASE);
  }

  /** One turn of the wheel over a remote whose queue is full: the first click fails the remote, the
      second goes to a closed channel. */
  lemma BurstOnClosed() returns (s: Sys)
    ensures Reached(s) && SysInv(s) && Possible(s, Click(SCROLLUP, PRESS))
    ensures !SysInv(Next(s, Click(SCROLLUP, PRESS)))
    ensures var m := Next(s, Click(SCROLLUP, PRESS)).m;
      0 < |m.conns| && !m.conns[0].open && m.conns[0].sent == [ClickEvent(SCROLLUP, PRESS)]
  {
    hide Reached, SysInv, Inv, Fail;
    s := FullAtRemote();
    var msg := ClickEvent(SCROLLUP, PRESS);
    var ms := ClickMsgs(s.m.conns[0].scrollmult, SCROLLUP, PRESS);
    assert ms == [msg, msg] && ms[1..] == [msg] && [msg][1..] == [];
    var m1 := Put(s.m, 0, s.m.conns[0].(sent := s.m.conns[0].sent + [msg]));
    FailFrame(m1, 0);
    assert Enqueue(s.m, 0, msg) == Fail(m1, 0);
    var m2 := Fail(m1, 0);
    assert m2.conns[0].sent == [] && [] + [msg] == [msg];
    var m3 := Put(m2, 0, m2.conns[0].(sent := [msg]));
    assert Enqueue(m2, 0, msg) == m3;
    assert SendAll(m2, 0, ms[1..]) == SendAll(m3, 0, []);
    assert SendClick(s.m, SCROLLUP, PRESS) == m3;
    StepKeepsExactly(s, Click(SCROLLUP, PRESS));
  }

  /** The log level is stepped while the connection attempt has just failed. */
  lemma LogLevelOnFailed() returns (s: Sys)
    ensures Reached(s) && SysInv(s) && Possible(s, Action(StepLogLevel(1)))
    ensures !SysInv(Next(s, Action(StepLogLevel(1))))
    ensures var m := Next(s, Action(StepLogLevel(1))).m;
      0 < |m.conns| && !m.conns[0].open && m.conns[0].sent == [SetLogLevel(1)]
  {
    hide Reached, SysInv, Inv, Fail;
    StartedUp();
    var s0 := Pair(CALLING, FRESH_PROC);
    ReachedNext(s0, ChannelFails(0));
    s := Next(s0, ChannelFails(0));
    ReachedInv(s);
    FailFrame(s0.m, 0);
    assert [] + [SetLogLevel(1)] == [SetLogLevel(1)];
    StepKeepsExactly(s, Action(StepLogLevel(1)));
    assert OnFirst(s.m, StepLogLevel(1), 0) == s.m.(loglevel := 1);
  }
}
