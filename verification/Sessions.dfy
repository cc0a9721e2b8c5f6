/** How each master operation treats a session: it stays, growing only at its end, or it is closed,
    or it is replaced by a fresh one. */
module Sessions {
  import opened Base
  import opened Proto
  import opened Timers
  import opened MasterSpec
  import opened MasterInv
  import opened Focus

  /** How many automatic reconnect attempts a remote can still make before it is given up. */
  function Budget(cfg: Config, c: Conn): nat {
    var left := Cap(cfg) - c.failcount + if c.state.Failed? then 1 else 0;
    if c.state.PermFailed? || left < 0 then 0 else left
  }

  predicate IsClip(msg: Message) {
    msg.GetClipboard? || msg.SetClipboard?
  }

  /** The clipboard messages in a sequence. */
  function Clips(ms: seq<Message>): seq<Message> {
    if ms == [] then [] else (if IsClip(ms[0]) then [ms[0]] else []) + Clips(ms[1..])
  }

  lemma {:induction false} ClipsAppend(a: seq<Message>, b: seq<Message>)
    ensures Clips(a + b) == Clips(a) + Clips(b)
  {
    if a == [] {
      assert a + b == b;
    } else {
      assert (a + b)[1..] == a[1..] + b;
      ClipsAppend(a[1..], b);
    }
  }

  /** No new attempt was made: an open channel has only been appended to (with `quiet`, by nothing
      about the clipboard), the attempts left have not grown, and a remote that was given up stays
      so. */
  predicate Stays(cfg: Config, c: Conn, c': Conn, quiet: bool) {
    && c'.session == c.session
    && (c'.open ==> c.open && c.sent <= c'.sent && c'.taken == c.taken && c'.recvd == c.recvd && c'.state == c.state)
    && (quiet && c'.open ==> Clips(c'.sent[|c.sent|..]) == [])
    && Budget(cfg, c') <= Budget(cfg, c)
    && (c.state.PermFailed? ==> c'.state.PermFailed?)
  }

  /** A fresh session, just being set up. */
  predicate Renewed(c: Conn, c': Conn) {
    && c'.session == c.session + 1 && c'.open && c'.state.SettingUp? && c'.taken == 0 && c'.recvd == 0
    && Clips(c'.sent) == []
  }

  predicate AllStay(m: Core, m': Core, quiet: bool) {
    |m'.conns| == |m.conns| && forall q :: 0 <= q < |m.conns| ==> Stays(m.cfg, m.conns[q], m'.conns[q], quiet)
  }

  lemma StayRefl(cfg: Config, c: Conn)
    ensures Stays(cfg, c, c, true) && Stays(cfg, c, c, false)
  {
  }

  lemma AllStaySame(m: Core, m': Core)
    requires m'.conns == m.conns
    ensures AllStay(m, m', true) && AllStay(m, m', false)
  {
  }

  lemma StayTrans(cfg: Config, a: Conn, b: Conn, c: Conn, quiet: bool)
    requires Stays(cfg, a, b, quiet) && Stays(cfg, b, c, quiet)
    ensures Stays(cfg, a, c, quiet)
  {
    hide Budget, Clips;
    if c.open {
      assert c.sent[|a.sent|..] == b.sent[|a.sent|..] + c.sent[|b.sent|..];
      ClipsAppend(b.sent[|a.sent|..], c.sent[|b.sent|..]);
    }
  }

  lemma AllStayTrans(a: Core, b: Core, c: Core, quiet: bool)
    requires AllStay(a, b, quiet) && AllStay(b, c, quiet) && b.cfg == a.cfg
    ensures AllStay(a, c, quiet)
  {
    hide Stays;
    forall q | 0 <= q < |a.conns|
      ensures Stays(a.cfg, a.conns[q], c.conns[q], quiet)
    {
      StayTrans(a.cfg, a.conns[q], b.conns[q], c.conns[q], quiet);
    }
  }

  lemma Louder(m: Core, m': Core, quiet: bool)
    requires AllStay(m, m', quiet)
    ensures AllStay(m, m', false)
  {
    hide Budget, Clips;
  }

  lemma AllStayOne(m: Core, m': Core, r: nat, quiet: bool)
    requires |m'.conns| == |m.conns| && r < |m.conns| && Stays(m.cfg, m.conns[r], m'.conns[r], quiet)
    requires forall q :: 0 <= q < |m.conns| && q != r ==> m'.conns[q] == m.conns[q]
    ensures AllStay(m, m', quiet)
  {
    hide Stays;
    forall q | 0 <= q < |m.conns|
      ensures Stays(m.cfg, m.conns[q], m'.conns[q], quiet)
    {
      StayRefl(m.cfg, m.conns[q]);
    }
  }

  lemma FailStays(m: Core, r: nat)
    requires Wf(m) && r < |m.conns| && !m.conns[r].state.PermFailed?
    ensures AllStay(m, Fail(m, r), true) && AllStay(m, Fail(m, r), false)
  {
    hide Fail, Wf, Clips, AllStay;
    FailFrame(m, r);
    AllStayOne(m, Fail(m, r), r, true);
    AllStayOne(m, Fail(m, r), r, false);
  }

  lemma EnqueueStays(m: Core, r: nat, msg: Message)
    requires Wf(m) && r < |m.conns| && !m.conns[r].state.PermFailed?
    ensures AllStay(m, Enqueue(m, r, msg), !IsClip(msg))
  {
    hide Fail, Wf, AllStay, Stays;
    var m1 := Put(m, r, m.conns[r].(sent := m.conns[r].sent + [msg]));
    PushStays(m.cfg, m.conns[r], msg);
    AllStayOne(m, m1, r, !IsClip(msg));
    FailStays(m1, r);
    AllStayTrans(m, m1, Fail(m1, r), !IsClip(msg));
  }

  lemma PushStays(cfg: Config, c: Conn, msg: Message)
    ensures Stays(cfg, c, c.(sent := c.sent + [msg]), !IsClip(msg))
  {
    assert (c.sent + [msg])[|c.sent|..] == [msg];
  }

  lemma TransitionStays(m: Core, n: Node, fade: Fade)
    requires Wf(m) && InRange(m, n) && (n.Remote? ==> !m.conns[n.id].state.PermFailed?)
    ensures AllStay(m, Transition(m, n, fade), true)
  {
    hide Enqueue, ScheduleFade, Wf, AllStay;
    var m1 := if n.Remote? then Enqueue(m, n.id, SetBrightness(fade.first)) else m;
    if n.Remote? {
      EnqueueStays(m, n.id, SetBrightness(fade.first));
    } else {
      AllStaySame(m, m);
    }
    FadeSame(m1, n, fade.steps);
    AllStaySame(m1, ScheduleFade(m1, n, fade.steps));
    AllStayTrans(m, m1, ScheduleFade(m1, n, fade.steps), true);
  }

  lemma NullIndicationStays(m: Core)
    requires Wf(m) && FocusOk(m)
    ensures AllStay(m, IndicateSwitch(m, m.focused, m.focused), true)
  {
    hide Transition, Wf;
    match m.cfg.hint
    case NoHint => AllStaySame(m, m);
    case DimInactive(dim, lift) => TransitionStays(m, m.focused, lift);
    case FlashActive(flash) => TransitionStays(m, m.focused, flash);
  }

  lemma AppendStays(m: Core, n: Node, ms: seq<Message>)
    requires Wf(m) && InRange(m, n)
    ensures AllStay(m, Append(m, n, ms), false)
  {
    hide AllStay;
    AllStaySame(m, m);
    if n.Remote? {
      AllStayOne(m, Append(m, n, ms), n.id, false);
    }
  }

  lemma SwitchStays(m: Core, to: Node, keys: seq<Word>)
    requires Inv(m) && Reachable(m, to) && to != m.focused && SwitchFits(m, to, keys)
    ensures AllStay(m, Switch(m, to, keys), false)
  {
    hide Inv, Switch, SameButFades, FromMsgs, ToMsgs, Append, AllStay, Fail;
    InvList(m);
    var m1 := Append(m, m.focused, FromMsgs(m, keys));
    AppendStays(m, m.focused, FromMsgs(m, keys));
    if SwitchRoom(m, to, keys) {
      SwitchEffect(m, to, keys);
      var m2 := Append(m1, to, ToMsgs(m, keys));
      AppendStays(m1, to, ToMsgs(m, keys));
      AllStayTrans(m, m1, m2, false);
      FadesList(Switched(m, to, keys), Switch(m, to, keys));
      AllStaySame(m2, Switch(m, to, keys));
      AllStayTrans(m, m2, Switch(m, to, keys), false);
    } else {
      var r := m.focused.id;
      var x := HomeOver(m, keys);
      FadesList(m1, x);
      AllStaySame(m1, x);
      AllStayTrans(m, m1, x, false);
      assert x.conns[r].state.Connected? by { AppendedState(m, m.focused, FromMsgs(m, keys)); }
      FailStays(x, r);
      AllStayTrans(m, x, Fail(x, r), false);
      AllStaySame(Fail(x, r), Switch(m, to, keys));
      AllStayTrans(m, Fail(x, r), Switch(m, to, keys), false);
    }
  }

  lemma AppendedState(m: Core, n: Node, ms: seq<Message>)
    requires Wf(m) && InRange(m, n) && n.Remote?
    ensures Append(m, n, ms).conns[n.id].state == m.conns[n.id].state
  {
  }

  /** A burst of which at most the last message is one too many. */
  lemma {:induction false} SendAllStays(m: Core, r: nat, ms: seq<Message>)
    requires Wf(m) && r < |m.conns| && !m.conns[r].state.PermFailed? && |ms| <= Room(m.conns[r]) + 1
    requires forall i :: 0 <= i < |ms| ==> !IsClip(ms[i])
    ensures AllStay(m, SendAll(m, r, ms), true)
    decreases |ms|
  {
    hide Wf, AllStay, Fail;
    if ms == [] {
      AllStaySame(m, m);
    } else {
      var m1 := Enqueue(m, r, ms[0]);
      EnqueueStays(m, r, ms[0]);
      if |ms| > 1 {
        SendAllStays(m1, r, ms[1..]);
        AllStayTrans(m, m1, SendAll(m, r, ms), true);
      } else {
        assert ms[1..] == [];
      }
    }
  }

  /** The connection at the start of a session: everything but its configuration, its count of failures
      and its remembered timer is new, and just SETUP has been sent. */
  function Calling(m: Core, c: Conn): Conn {
    Closed(c).(state := SettingUp, open := true, session := c.session + 1,
               sent := [Setup(PROT_VERSION, m.loglevel, c.params)])
  }

  lemma SetupRenews(m: Core, r: nat)
    requires Wf(m) && r < |m.conns|
    ensures SetupRemote(m, r) == m.(conns := m.conns[r := Calling(m, m.conns[r])])
    ensures Renewed(m.conns[r], SetupRemote(m, r).conns[r])
    ensures SetupRemote(m, r).conns[r].failcount == m.conns[r].failcount
    ensures SetupRemote(m, r).conns[r].sent == [Setup(PROT_VERSION, m.loglevel, m.conns[r].params)]
    ensures forall q :: 0 <= q < |m.conns| && q != r ==> SetupRemote(m, r).conns[q] == m.conns[q]
  {
    hide Fail, Wf;
    SetupFrame(m, r);
    var msg := Setup(PROT_VERSION, m.loglevel, m.conns[r].params);
    assert [] + [msg] == [msg];
    assert Clips([msg]) == [];
  }

  /** A requested reconnection replaces the session, unless it is connected. */
  lemma ReconnectRenews(m: Core, r: nat)
    requires Wf(m) && r < |m.conns|
    ensures var m' := ReconnectRemote(m, r);
      && (if m.conns[r].state.Connected? then m' == m
          else Renewed(m.conns[r], m'.conns[r]) && m'.conns[r] == Calling(m, m.conns[r].(failcount := 0)))
      && m'.loglevel == m.loglevel
      && forall q :: 0 <= q < |m.conns| && q != r ==> m'.conns[q] == m.conns[q]
  {
    hide SetupRemote, Disconnect, Remove, Wf;
    var c := m.conns[r];
    var m1 := if c.timer.Some? then CancelTask(m, c.timer.value) else m;
    var m2 := if c.state.SettingUp? then Disconnect(m1, r) else m1;
    DisconnectConn(m1, r);
    SetupRenews(Put(m2, r, m2.conns[r].(failcount := 0)), r);
  }

  lemma HaltStays(m: Core, r: nat)
    requires Inv(m) && r < |m.conns|
    ensures AllStay(m, HaltRemote(m, r), true)
  {
    hide Disconnect, Remove, Wf, Inv, AllStay;
    OpenIsLive(m, r);
    DisconnectConn(m, r);
    StayRefl(m.cfg, m.conns[r]);
    AllStayOne(m, HaltRemote(m, r), r, true);
  }

  /** Every action but a reconnection. */
  lemma OnRemoteStays(m: Core, a: ForAll, r: nat)
    requires Inv(m) && r < |m.conns| && !a.ReconnectAll? && (a.StepLogLevel? && m.conns[r].enabled ==> m.conns[r].open)
    ensures AllStay(m, OnRemote(m, a, r), !a.ClearClipboards?)
  {
    hide Inv, Enqueue, HaltRemote, AllStay;
    AllStaySame(m, m);
    match a
    case HaltAll => HaltStays(m, r);
    case ClearClipboards =>
      if m.conns[r].state.Connected? {
        EnqueueStays(m, r, SetClipboard([]));
      }
    case StepLogLevel(level) =>
      if m.conns[r].enabled {
        OpenIsLive(m, r);
        EnqueueStays(m, r, SetLogLevel(level));
      }
  }

  lemma OpenIsLive(m: Core, r: nat)
    requires Inv(m) && r < |m.conns|
    ensures m.conns[r].open <==> Live(m.conns[r])
  {
    hide Pressed, ReconIds, OwnTimer, ListOk;
    Split(m, r);
  }

  lemma {:induction false} OnFirstStays(m: Core, a: ForAll, n: nat)
    requires Inv(m) && n <= |m.conns| && ActionFits(m, a) && !a.ReconnectAll?
    ensures AllStay(m, OnFirst(m, a, n), !a.ClearClipboards?)
  {
    hide Inv, OnRemote, AllStay;
    if n == 0 {
      AllStaySame(m, OnFirst(m, a, 0));
    } else {
      OnFirstStays(m, a, n - 1);
      OnFirstKeeps(m, a, n - 1);
      OnRemoteStays(OnFirst(m, a, n - 1), a, n - 1);
      AllStayTrans(m, OnFirst(m, a, n - 1), OnFirst(m, a, n), !a.ClearClipboards?);
    }
  }

  /** Reconnecting everything replaces exactly the enabled sessions that are not connected. */
  lemma {:induction false} ReconnectAllRenews(m: Core, n: nat)
    requires Wf(m) && n <= |m.conns|
    ensures OnFirst(m, ReconnectAll, n).loglevel == m.loglevel
    ensures forall q :: 0 <= q < |m.conns| ==>
      var c, c' := m.conns[q], OnFirst(m, ReconnectAll, n).conns[q];
      if q < n && c.enabled && !c.state.Connected? then Renewed(c, c') && c' == Calling(m, c.(failcount := 0))
      else c' == c
  {
    hide ReconnectRemote, Wf;
    if n > 0 {
      var m1 := OnFirst(m, ReconnectAll, n - 1);
      ReconnectAllRenews(m, n - 1);
      ReconnectRenews(m1, n - 1);
    }
  }

  /** The timer: a reconnect call replaces the session and spends one of the attempts left; a
      brightness call leaves every session. */
  lemma FireSessions(m: Core)
    requires Inv(m) && m.calls != []
    ensures !m.calls[0].what.Reconnect? ==> AllStay(m, FireHead(m), true)
    ensures m.calls[0].what.Reconnect? ==>
      var r, m' := m.calls[0].what.rmt, FireHead(m);
      && r < |m.conns| && Renewed(m.conns[r], m'.conns[r])
      && Budget(m.cfg, m'.conns[r]) + 1 == Budget(m.cfg, m.conns[r])
      && forall q :: 0 <= q < |m.conns| && q != r ==> m'.conns[q] == m.conns[q]
  {
    hide Inv, SetupRemote, Enqueue, Wf, AllStay;
    var m1 := m.(calls := m.calls[1..]);
    WfTask(m);
    assert Wf(m1) by { PopKeeps(m, if m.calls[0].what.Reconnect? then m.calls[0].what.rmt else 0); }
    match m.calls[0].what
    case Reconnect(r) =>
      ReconnectFires(m, r);
      FailcountBound(m, r);
      SetupRenews(Put(m1, r, m1.conns[r].(timer := None)), r);
    case Brightness(node, level) =>
      AllStaySame(m, m1);
      if node.Remote? && m.conns[node.id].state.Connected? {
        EnqueueStays(m1, node.id, SetBrightness(level));
        AllStayTrans(m, m1, FireHead(m), true);
      }
  }

  lemma FailcountBound(m: Core, r: nat)
    requires Inv(m) && r < |m.conns| && m.conns[r].state.Failed?
    ensures 1 <= m.conns[r].failcount <= Cap(m.cfg)
  {
    hide Pressed, ReconIds, OwnTimer, ListOk;
    Split(m, r);
  }

  /** A focus request leaves every session, unless it names a remote that is not connected: then it
      replaces that one. */
  lemma FocusSessions(m: Core, target: Option<Node>, keys: seq<Word>, viaHotkey: bool)
    requires Inv(m) && (target.Some? ==> InRange(m, target.value)) && FocusFits(m, target, keys)
    ensures var m' := FocusNode(m, target, keys, viaHotkey);
      if target.Some? && target.value.Remote? && !m.conns[target.value.id].state.Connected? then
        var r := target.value.id;
        && (forall q :: 0 <= q < |m.conns| && q != r ==> Stays(m.cfg, m.conns[q], m'.conns[q], true))
        && exists c :: Renewed(m.conns[r], c) && Stays(m.cfg, c, m'.conns[r], true)
      else AllStay(m, m', target.None? || target.value == m.focused)
  {
    hide Inv, Switch, SwitchFits, ReconnectRemote, IndicateSwitch, Stays;
    var away := target.Some? && target.value.Remote? && !m.conns[target.value.id].state.Connected?;
    var m' := FocusNode(m, target, keys, viaHotkey);
    if away {
      var r := target.value.id;
      ReconnectKeeps(m, r);
      ReconnectRenews(m, r);
      var m1 := ReconnectRemote(m, r);
      NullIndicationStays(m1);
      AllStaySame(m1, m1);
      assert AllStay(m1, m', true);
      assert Renewed(m.conns[r], m1.conns[r]) && Stays(m.cfg, m1.conns[r], m'.conns[r], true);
    } else if target.Some? && target.value != m.focused {
      SwitchStays(m, target.value, keys);
    } else {
      NullIndicationStays(m);
      AllStaySame(m, m);
    }
  }

  // ---------------------------------------------------------------- the timer loop ends

  /** How many remotes are connected. */
  function Ups(conns: seq<Conn>): nat {
    if conns == [] then 0 else Ups(conns[..|conns| - 1]) + if conns[|conns| - 1].state.Connected? then 1 else 0
  }

  lemma {:induction false} UpsPut(conns: seq<Conn>, r: nat, c: Conn)
    requires r < |conns|
    ensures Ups(conns[r := c]) + (if conns[r].state.Connected? then 1 else 0) ==
      Ups(conns) + if c.state.Connected? then 1 else 0
    decreases |conns|
  {
    var n := |conns| - 1;
    if r == n {
      assert conns[r := c][..n] == conns[..n];
    } else {
      assert conns[r := c][..n] == conns[..n][r := c];
      UpsPut(conns[..n], r, c);
    }
  }

  /** Every call that fires takes one off the list, or loses a connected remote. */
  lemma FireEnds(m: Core)
    requires Inv(m) && m.calls != []
    ensures Inv(FireHead(m)) && FireHead(m).now == m.now
    ensures var m' := FireHead(m);
      Ups(m'.conns) < Ups(m.conns) || (Ups(m'.conns) == Ups(m.conns) && |m'.calls| < |m.calls|)
  {
    hide Inv, Fail, Wf, Ups;
    FireKeeps(m);
    WfTask(m);
    var m1 := m.(calls := m.calls[1..]);
    assert Wf(m1) by { PopKeeps(m, if m.calls[0].what.Reconnect? then m.calls[0].what.rmt else 0); }
    match m.calls[0].what
    case Reconnect(r) =>
      ReconnectFires(m, r);
      SetupFrame(Put(m1, r, m1.conns[r].(timer := None)), r);
      assert FireHead(m).conns == m.conns[r := FireHead(m).conns[r]];
      UpsPut(m.conns, r, FireHead(m).conns[r]);
    case Brightness(node, level) =>
      if node.Remote? && m.conns[node.id].state.Connected? {
        var r := node.id;
        var c := m.conns[r].(sent := m.conns[r].sent + [SetBrightness(level)]);
        FailFrame(Put(m1, r, c), r);
        UpsPut(m.conns, r, c);
        assert Fail(Put(m1, r, c), r).conns == m.conns[r := Fail(Put(m1, r, c), r).conns[r]];
        UpsPut(m.conns, r, Fail(Put(m1, r, c), r).conns[r]);
      }
  }

  /** Everything due is called in turn, including what the callbacks make due at once. */
  ghost function FireDue(m: Core, when: nat): (m': Core)
    requires Inv(m) && when <= m.now
    ensures Inv(m') && m'.now == m.now && (m'.calls != [] ==> m'.calls[0].time > when)
    decreases Ups(m.conns), |m.calls|
  {
    if m.calls == [] || m.calls[0].time > when then m
    else
      FireEnds(m);
      FireDue(FireHead(m), when)
  }
}
