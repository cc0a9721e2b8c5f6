/** The clipboard follows the focus: after a switch, once the messages under way have been
    delivered, the node that gained the focus has the clipboard of the node that lost it. */
module Handoff {
  import opened Base
  import opened Proto
  import opened MasterSpec
  import opened MasterInv
  import opened Focus
  import opened Sessions
  import opened System
  import opened Runs

  function ClipOf(s: Sys, n: Node): Text
    requires Sized(s) && InRange(s.m, n)
  {
    if n.Master? then s.m.clip else s.clips[n.id]
  }

  /** Clipboard messages sent to a remote and not yet handled by it. */
  function OutClips(c: Conn, p: Proc): seq<Message> {
    if p.got <= |c.sent| then Clips(c.sent[p.got..]) else []
  }

  /** Clipboard messages sent by a remote and not yet handled by the master. */
  function InClips(c: Conn, p: Proc): seq<Message> {
    if c.recvd <= |p.replies| then Clips(p.replies[c.recvd..]) else []
  }

  /** What session `r` has under way about the clipboard, out and in. */
  predicate UnderWay(s: Sys, r: nat, out: seq<Message>, back: seq<Message>)
    requires Sized(s) && r < |s.m.conns|
  {
    s.m.conns[r].open ==> OutClips(s.m.conns[r], s.procs[r]) == out && InClips(s.m.conns[r], s.procs[r]) == back
  }

  predicate NothingBut(s: Sys, x: Option<nat>)
    requires Sized(s)
  {
    forall r :: 0 <= r < |s.m.conns| && x != Some(r) ==> UnderWay(s, r, [], [])
  }

  /** No clipboard message is under way anywhere. */
  predicate Quiescent(s: Sys)
    requires Sized(s)
  {
    NothingBut(s, None)
  }

  predicate Steady(s: Sys, n: Node, session: nat)
    requires Sized(s) && InRange(s.m, n)
  {
    n.Remote? ==> s.m.conns[n.id].open && s.m.conns[n.id].state.Connected? && s.m.conns[n.id].session == session
  }

  /** Where the text is on its way from `a` to `b`. */
  datatype Phase = Asked | Answered | Forwarded | Arrived

  /** The hand-over stays where it is or moves one leg on: the reply to the request goes no further
      than the master if that is where the focus went. */
  predicate Follows(b: Node, phase: Phase, next: Phase) {
    || next == phase
    || (phase.Asked? && next.Answered?)
    || (phase.Answered? && next == if b.Master? then Arrived else Forwarded)
    || (phase.Forwarded? && next.Arrived?)
  }

  ghost predicate Handing(s: Sys, a: Node, b: Node, text: Text, phase: Phase)
    requires Sized(s) && InRange(s.m, a) && InRange(s.m, b)
  {
    && s.m.focused == b && a != b && ClipOf(s, a) == text
    && match phase
       case Asked => a.Remote? && UnderWay(s, a.id, [GetClipboard], []) && NothingBut(s, Some(a.id))
       case Answered => a.Remote? && UnderWay(s, a.id, [], [SetClipboard(text)]) && NothingBut(s, Some(a.id))
       case Forwarded => b.Remote? && UnderWay(s, b.id, [SetClipboard(text)], []) && NothingBut(s, Some(b.id))
       case Arrived => Quiescent(s) && ClipOf(s, b) == text
  }

  // ---------------------------------------------------------------- silent steps

  /** A session that goes on without a word about the clipboard, or a fresh one. */
  predicate Hushed(cfg: Config, c: Conn, c': Conn) {
    || Stays(cfg, c, c', true)
    || (c'.session != c.session && (c'.open ==> Clips(c'.sent) == [] && c'.recvd == 0))
  }

  predicate GotWithin(s: Sys)
    requires Sized(s)
  {
    forall r :: 0 <= r < |s.m.conns| && s.m.conns[r].open ==> s.procs[r].got <= |s.m.conns[r].sent|
  }

  lemma HushedUnderWay(s: Sys, m': Core, r: nat, out: seq<Message>, back: seq<Message>)
    requires Sized(s) && GotWithin(s) && Wf(m') && |m'.conns| == |s.m.conns| && r < |m'.conns|
    requires Hushed(s.m.cfg, s.m.conns[r], m'.conns[r]) && UnderWay(s, r, out, back)
    ensures m'.conns[r].session == s.m.conns[r].session ==> UnderWay(Sync(s, m'), r, out, back)
    ensures m'.conns[r].session != s.m.conns[r].session ==> UnderWay(Sync(s, m'), r, [], [])
  {
    hide Clips, Budget, Wf;
    var c, c', p := s.m.conns[r], m'.conns[r], s.procs[r];
    if c'.open {
      if c'.session == c.session {
        assert c'.sent[p.got..] == c.sent[p.got..] + c'.sent[|c.sent|..];
        ClipsAppend(c.sent[p.got..], c'.sent[|c.sent|..]);
      } else {
        assert c'.sent[0..] == c'.sent;
        NoClips();
      }
    }
  }

  lemma NoClips()
    ensures Clips([]) == []
  {
  }

  /** The clipboard message under way stays where it is when all sessions are hushed. */
  lemma HushedHanding(s: Sys, m': Core, a: Node, b: Node, text: Text, phase: Phase, sa: nat, sb: nat)
    requires Sized(s) && GotWithin(s) && Wf(m') && |m'.conns| == |s.m.conns| && InRange(s.m, a) && InRange(s.m, b)
    requires forall r :: 0 <= r < |s.m.conns| ==> Hushed(s.m.cfg, s.m.conns[r], m'.conns[r])
    requires Handing(s, a, b, text, phase) && m'.focused == b && m'.clip == s.m.clip
    requires Steady(s, a, sa) && Steady(s, b, sb) && Steady(Sync(s, m'), a, sa) && Steady(Sync(s, m'), b, sb)
    ensures Handing(Sync(s, m'), a, b, text, phase)
  {
    hide UnderWay, Hushed, GotWithin;
    var s' := Sync(s, m');
    var x := Waiting(a, b, phase);
    forall r | 0 <= r < |s.m.conns| && x != Some(r)
      ensures UnderWay(s', r, [], [])
    {
      HushedUnderWay(s, m', r, [], []);
    }
    match phase
    case Asked => HushedUnderWay(s, m', a.id, [GetClipboard], []);
    case Answered => HushedUnderWay(s, m', a.id, [], [SetClipboard(text)]);
    case Forwarded => HushedUnderWay(s, m', b.id, [SetClipboard(text)], []);
    case Arrived =>
  }

  lemma AllStayHushed(m: Core, m': Core)
    requires AllStay(m, m', true)
    ensures forall q :: 0 <= q < |m.conns| ==> Hushed(m.cfg, m.conns[q], m'.conns[q])
  {
    hide Stays;
  }

  lemma RenewedHushed(cfg: Config, c: Conn, c1: Conn, c': Conn)
    requires Renewed(c, c1) && Stays(cfg, c1, c', true)
    ensures Hushed(cfg, c, c')
  {
    hide Budget, Clips;
    if c'.open {
      assert c'.sent == c1.sent + c'.sent[|c1.sent|..];
      ClipsAppend(c1.sent, c'.sent[|c1.sent|..]);
    }
  }

  /** Every step in which only the master acts, short of clearing the clipboards and of a switch,
      is silent about the clipboard. */
  lemma MasterEventHushed(s: Sys, e: Event)
    requires SysInv(s) && CanHappen(s, e)
    requires OfMaster(e)
    requires e.Action? ==> !e.a.ClearClipboards?
    requires MasterStep(s, e).focused == s.m.focused
    ensures forall r :: 0 <= r < |s.m.conns| ==> Hushed(s.m.cfg, s.m.conns[r], MasterStep(s, e).conns[r])
  {
    hide Inv, Stays, FireHead, KeyStep, ToFocused, SendClick, ClickFits, FocusNode, OnFirst, Fail, Hushed;
    var m := s.m;
    var m' := MasterStep(s, e);
    match e
    case ChannelFails(r) =>
      OpenIsLive(m, r);
      FailStays(m, r);
      AllStayHushed(m, m');
    case TimerFires =>
      FireSessions(m);
      if m.calls[0].what.Reconnect? {
        RenewedAlone(m, m', m.calls[0].what.rmt);
      } else {
        AllStayHushed(m, m');
      }
    case ClockTicks(now) =>
      AllStaySame(m, m');
      AllStayHushed(m, m');
    case Key(key, pr) =>
      KeyStays(m, key, pr);
      AllStayHushed(m, m');
    case Move(msg) =>
      InputStays(m, msg);
      AllStayHushed(m, m');
    case Click(button, pr) =>
      ClickStays(m, button, pr);
      AllStayHushed(m, m');
    case FocusRequest(target, keys, viaHotkey) => FocusHushed(m, target, keys, viaHotkey);
    case Action(a) =>
      if a.ReconnectAll? {
        ReconnectAllRenews(m, |m.conns|);
        forall q | 0 <= q < |m.conns|
          ensures Hushed(m.cfg, m.conns[q], m'.conns[q])
        {
          StayRefl(m.cfg, m.conns[q]);
          StayRefl(m.cfg, m'.conns[q]);
          if m'.conns[q] == m.conns[q] {
            SameHushed(m.cfg, m.conns[q]);
          } else {
            RenewedHushed(m.cfg, m.conns[q], m'.conns[q], m'.conns[q]);
          }
        }
      } else {
        OnFirstStays(m, a, |m.conns|);
        AllStayHushed(m, m');
      }
  }

  lemma SameHushed(cfg: Config, c: Conn)
    ensures Hushed(cfg, c, c)
  {
    StayRefl(cfg, c);
  }

  lemma RenewedAlone(m: Core, m': Core, r: nat)
    requires |m'.conns| == |m.conns| && r < |m.conns| && Renewed(m.conns[r], m'.conns[r])
    requires forall q :: 0 <= q < |m.conns| && q != r ==> m'.conns[q] == m.conns[q]
    ensures forall q :: 0 <= q < |m.conns| ==> Hushed(m.cfg, m.conns[q], m'.conns[q])
  {
    hide Hushed;
    StayRefl(m.cfg, m'.conns[r]);
    RenewedHushed(m.cfg, m.conns[r], m'.conns[r], m'.conns[r]);
    forall q | 0 <= q < |m.conns| && q != r
      ensures Hushed(m.cfg, m.conns[q], m'.conns[q])
    {
      SameHushed(m.cfg, m.conns[q]);
    }
  }

  /** A focus request that leaves the focus where it is. */
  lemma FocusHushed(m: Core, target: Option<Node>, keys: seq<Word>, viaHotkey: bool)
    requires Inv(m) && (target.Some? ==> InRange(m, target.value)) && FocusFits(m, target, keys)
    requires FocusNode(m, target, keys, viaHotkey).focused == m.focused
    ensures forall q :: 0 <= q < |m.conns| ==>
      Hushed(m.cfg, m.conns[q], FocusNode(m, target, keys, viaHotkey).conns[q])
  {
    hide Inv, Stays, Switch, IndicateSwitch, ReconnectRemote, Renewed, Hushed;
    var m' := FocusNode(m, target, keys, viaHotkey);
    FocusSessions(m, target, keys, viaHotkey);
    if target.Some? && target.value.Remote? && !m.conns[target.value.id].state.Connected? {
      var r := target.value.id;
      var c :| Renewed(m.conns[r], c) && Stays(m.cfg, c, m'.conns[r], true);
      RenewedHushed(m.cfg, m.conns[r], c, m'.conns[r]);
      forall q | 0 <= q < |m.conns| && q != r
        ensures Hushed(m.cfg, m.conns[q], m'.conns[q])
      {
        StaysHushed(m.cfg, m.conns[q], m'.conns[q]);
      }
    } else {
      if target.Some? && target.value != m.focused {
        SwitchEnds(m, target.value, keys);
        assert false;
      }
      AllStayHushed(m, m');
    }
  }

  lemma StaysHushed(cfg: Config, c: Conn, c': Conn)
    requires Stays(cfg, c, c', true)
    ensures Hushed(cfg, c, c')
  {
  }

  // ---------------------------------------------------------------- the remote handles a message

  lemma ClipsPop(ms: seq<Message>, n: nat)
    requires n < |ms|
    ensures Clips(ms[n..]) == (if IsClip(ms[n]) then [ms[n]] else []) + Clips(ms[n + 1..])
  {
    assert ms[n..][1..] == ms[n + 1..];
  }

  lemma {:induction false} ClipsLogs(logs: seq<Text>)
    ensures Clips(LogMsgs(logs)) == []
    decreases |logs|
  {
    if logs != [] {
      assert LogMsgs(logs)[1..] == LogMsgs(logs[1..]);
      ClipsLogs(logs[1..]);
    }
  }

  lemma ReplyClips(c: Conn, p: Proc, logs: seq<Text>, ms: seq<Message>)
    requires c.recvd <= |p.replies|
    ensures InClips(c, Reply(p, logs, ms)) == InClips(c, p) + Clips(ms)
  {
    hide Clips;
    var r := p.replies + LogMsgs(logs) + ms;
    assert r[c.recvd..] == p.replies[c.recvd..] + (LogMsgs(logs) + ms);
    ClipsAppend(p.replies[c.recvd..], LogMsgs(logs) + ms);
    ClipsAppend(LogMsgs(logs), ms);
    ClipsLogs(logs);
  }

  /** A remote that is set up takes one clipboard message at most, and answers a request for its
      clipboard with the clipboard. */
  lemma HandlingClips(c: Conn, p: Proc, clip: Text, env: Env, modifiers: set<Word>)
    requires Agree(c, p, modifiers) && RemoteExpects(c, p) && p.alive && c.open && p.got < c.taken
    ensures var msg := c.sent[p.got];
      var (p', clip') := RemoteHandles(p, clip, msg, env, modifiers);
      && OutClips(c, p) == (if IsClip(msg) then [msg] else []) + OutClips(c, p')
      && InClips(c, p') == InClips(c, p) + (if msg.GetClipboard? then [SetClipboard(clip)] else [])
      && clip' == (if msg.SetClipboard? then msg.text else clip)
  {
    hide Clips, Reply, Pressed, Count;
    var msg := c.sent[p.got];
    ClipsPop(c.sent, p.got);
    var p0 := p.(got := p.got + 1);
    var p1 := p0.(pressed := PressedAfter(p.pressed, msg, modifiers));
    NoClips();
    OneClip(SetClipboard(clip));
    OneClip(MousePos(env.pos));
    OneClip(Ready(env.screen));
    ReplyClips(c, p0.(initialized := true), env.logs, [Ready(env.screen)]);
    ReplyClips(c, p0, env.logs, []);
    ReplyClips(c, p1, env.logs, []);
    ReplyClips(c, p1, env.logs, [MousePos(env.pos)]);
    ReplyClips(c, p1, env.logs, [SetClipboard(clip)]);
    ReplyKeepsGot(p0, env.logs);
  }

  lemma OneClip(msg: Message)
    ensures Clips([msg]) == if IsClip(msg) then [msg] else []
  {
    assert [msg][1..] == [];
  }

  lemma ReplyKeepsGot(p: Proc, logs: seq<Text>)
    ensures forall q: Proc, ms :: Reply(q, logs, ms).got == q.got
  {
  }

  /** Another remote's step leaves what session `q` has under way. */
  lemma UnderWaySame(s: Sys, s': Sys, q: nat, out: seq<Message>, back: seq<Message>)
    requires Sized(s) && Sized(s') && q < |s.m.conns| == |s'.m.conns|
    requires s'.m.conns[q] == s.m.conns[q] && s'.procs[q] == s.procs[q]
    ensures UnderWay(s, q, out, back) <==> UnderWay(s', q, out, back)
  {
  }

  lemma NothingElse(s: Sys, s': Sys, r: nat, x: Option<nat>)
    requires Sized(s) && Sized(s') && r < |s.m.conns| && s'.m == s.m && NothingBut(s, x)
    requires forall q :: 0 <= q < |s.m.conns| && q != r ==> s'.procs[q] == s.procs[q]
    requires x != Some(r) ==> UnderWay(s', r, [], [])
    ensures NothingBut(s', x)
  {
    hide UnderWay;
    forall q | 0 <= q < |s.m.conns| && x != Some(q)
      ensures UnderWay(s', q, [], [])
    {
      if q != r {
        UnderWaySame(s, s', q, [], []);
      }
    }
  }

  /** Which session the hand-over is waiting for. */
  function Waiting(a: Node, b: Node, phase: Phase): Option<nat>
    requires (phase.Asked? || phase.Answered? ==> a.Remote?) && (phase.Forwarded? ==> b.Remote?)
  {
    match phase
    case Asked => Some(a.id)
    case Answered => Some(a.id)
    case Forwarded => Some(b.id)
    case Arrived => None
  }

  function Awaited(text: Text, phase: Phase): (seq<Message>, seq<Message>) {
    match phase
    case Asked => ([GetClipboard], [])
    case Answered => ([], [SetClipboard(text)])
    case Forwarded => ([SetClipboard(text)], [])
    case Arrived => ([], [])
  }

  /** What any one session has under way during a hand-over. */
  lemma HandingAt(s: Sys, a: Node, b: Node, text: Text, phase: Phase, r: nat)
    requires Sized(s) && InRange(s.m, a) && InRange(s.m, b) && r < |s.m.conns| && Handing(s, a, b, text, phase)
    ensures if Waiting(a, b, phase) == Some(r) then UnderWay(s, r, Awaited(text, phase).0, Awaited(text, phase).1)
            else UnderWay(s, r, [], [])
  {
    hide UnderWay;
  }

  lemma MakeHanding(s: Sys, a: Node, b: Node, text: Text, phase: Phase)
    requires Sized(s) && InRange(s.m, a) && InRange(s.m, b)
    requires (phase.Asked? || phase.Answered? ==> a.Remote?) && (phase.Forwarded? ==> b.Remote?)
    requires s.m.focused == b && a != b && ClipOf(s, a) == text && (phase.Arrived? ==> ClipOf(s, b) == text)
    requires NothingBut(s, Waiting(a, b, phase))
    requires !phase.Arrived? ==> UnderWay(s, Waiting(a, b, phase).value, Awaited(text, phase).0, Awaited(text, phase).1)
    ensures Handing(s, a, b, text, phase)
  {
    hide UnderWay;
  }

  /** How one remote's step moves the hand-over along. */
  lemma RemoteMoves(s: Sys, r: nat, env: Env, a: Node, b: Node, text: Text, phase: Phase) returns (next: Phase)
    requires SysInv(s) && CanHappen(s, RemoteReceives(r, env)) && InRange(s.m, a) && InRange(s.m, b)
    requires Handing(s, a, b, text, phase)
    ensures Handing(Next(s, RemoteReceives(r, env)), a, b, text, next) && Follows(b, phase, next)
  {
    hide Inv, Agree, OutClips, InClips, RemoteHandles, NothingBut, Handing;
    var e := RemoteReceives(r, env);
    var s' := Next(s, e);
    var c, p := s.m.conns[r], s.procs[r];
    var msg := c.sent[p.got];
    assert s'.m == s.m && s'.procs == RemoteStep(s, e).procs && s'.clips == RemoteStep(s, e).clips;
    ExpectedByRemote(s, r);
    HandlingClips(c, p, s.clips[r], env, s.m.cfg.modifiers);
    HandingAt(s, a, b, text, phase, r);
    HandingFacts(s, a, b, text, phase);
    var mine := Waiting(a, b, phase) == Some(r);
    if !IsClip(msg) {
      next := phase;
      NothingElse(s, s', r, Waiting(a, b, phase));
      if !phase.Arrived? && !mine {
        UnderWaySame(s, s', Waiting(a, b, phase).value, Awaited(text, phase).0, Awaited(text, phase).1);
      }
    } else {
      assert mine && OutClips(c, p) == Awaited(text, phase).0;
      assert OutClips(c, p)[0] == msg;
      next := if phase.Asked? then Answered else Arrived;
      NothingElse(s, s', r, Some(r));
      if phase.Forwarded? {
        assert UnderWay(s', r, [], []);
        AllButOne(s', r);
      }
    }
    MakeHanding(s', a, b, text, next);
  }

  lemma AllButOne(s: Sys, r: nat)
    requires Sized(s) && r < |s.m.conns| && NothingBut(s, Some(r)) && UnderWay(s, r, [], [])
    ensures NothingBut(s, None)
  {
    hide UnderWay;
  }

  lemma HandingFacts(s: Sys, a: Node, b: Node, text: Text, phase: Phase)
    requires Sized(s) && InRange(s.m, a) && InRange(s.m, b) && Handing(s, a, b, text, phase)
    ensures (phase.Asked? || phase.Answered? ==> a.Remote?) && (phase.Forwarded? ==> b.Remote?)
    ensures s.m.focused == b && a != b && ClipOf(s, a) == text && (phase.Arrived? ==> ClipOf(s, b) == text)
    ensures NothingBut(s, Waiting(a, b, phase))
    ensures !phase.Arrived? ==> UnderWay(s, Waiting(a, b, phase).value, Awaited(text, phase).0, Awaited(text, phase).1)
  {
    hide UnderWay;
  }

  /** The other steps of the remotes say nothing about the clipboard. */
  lemma RemoteHushed(s: Sys, e: Event, a: Node, b: Node, text: Text, phase: Phase)
    requires SysInv(s) && CanHappen(s, e) && InRange(s.m, a) && InRange(s.m, b) && Handing(s, a, b, text, phase)
    requires e.TransmitReply? || e.RemoteLogs? || e.RemoteExits?
    ensures Handing(Next(s, e), a, b, text, phase)
  {
    hide Inv, Reply, NothingBut, Handing, Clips, Pressed, Count;
    var s' := Next(s, e);
    var r := e.r;
    var c, p := s.m.conns[r], s.procs[r];
    assert s'.m == s.m && s'.clips == s.clips && s'.procs == RemoteStep(s, e).procs;
    if e.RemoteLogs? && c.open {
      ReplyClips(c, p, [e.line], []);
      NoClips();
      ReplyKeepsGot(p, [e.line]);
    }
    var p' := s'.procs[r];
    assert c.open ==> OutClips(c, p') == OutClips(c, p) && InClips(c, p') == InClips(c, p);
    HandingAt(s, a, b, text, phase, r);
    HandingFacts(s, a, b, text, phase);
    NothingElse(s, s', r, Waiting(a, b, phase));
    if !phase.Arrived? && Waiting(a, b, phase) != Some(r) {
      UnderWaySame(s, s', Waiting(a, b, phase).value, Awaited(text, phase).0, Awaited(text, phase).1);
    }
    MakeHanding(s', a, b, text, phase);
  }

  // ---------------------------------------------------------------- the master handles a message

  /** Only what `UnderWay` looks at matters. */
  lemma SameSessions(s: Sys, s': Sys, a: Node, b: Node, text: Text, phase: Phase)
    requires Sized(s) && Sized(s') && InRange(s.m, a) && InRange(s.m, b) && |s'.m.conns| == |s.m.conns|
    requires Handing(s, a, b, text, phase)
    requires s'.m.focused == s.m.focused && s'.m.clip == s.m.clip && s'.clips == s.clips
    requires forall q :: 0 <= q < |s.m.conns| ==>
      var c, c' := s.m.conns[q], s'.m.conns[q];
      && c'.open == c.open
      && (c.open ==> OutClips(c', s'.procs[q]) == OutClips(c, s.procs[q]))
      && (c.open ==> InClips(c', s'.procs[q]) == InClips(c, s.procs[q]))
    ensures Handing(s', a, b, text, phase)
  {
    hide OutClips, InClips;
    forall q, out, back | 0 <= q < |s.m.conns| && UnderWay(s, q, out, back)
      ensures UnderWay(s', q, out, back)
    {
    }
  }

  lemma TransmitHushed(s: Sys, r: nat, a: Node, b: Node, text: Text, phase: Phase)
    requires SysInv(s) && CanHappen(s, Transmit(r)) && InRange(s.m, a) && InRange(s.m, b)
    requires Handing(s, a, b, text, phase)
    ensures Handing(Next(s, Transmit(r)), a, b, text, phase)
  {
    hide SysInv, Handing, Clips;
    var s' := Next(s, Transmit(r));
    assert s'.procs == s.procs;
    SameSessions(s, s', a, b, text, phase);
  }

  lemma AgreeGot(s: Sys)
    requires SysInv(s)
    ensures GotWithin(s)
  {
    hide Inv, Pressed, Count;
  }

  /** A reply that is not a clipboard leaves the hand-over where it is. */
  lemma OtherReplyHushed(s: Sys, r: nat, a: Node, b: Node, text: Text, phase: Phase, sa: nat, sb: nat)
    requires SysInv(s) && CanHappen(s, MasterReceives(r)) && InRange(s.m, a) && InRange(s.m, b)
    requires Handing(s, a, b, text, phase) && !s.procs[r].replies[s.m.conns[r].recvd].SetClipboard?
    requires var s' := Next(s, MasterReceives(r));
      && s'.m.focused == b && Steady(s, a, sa) && Steady(s, b, sb)
      && InRange(s'.m, a) && InRange(s'.m, b) && Steady(s', a, sa) && Steady(s', b, sb)
    ensures Handing(Next(s, MasterReceives(r)), a, b, text, phase)
  {
    hide SysInv, Agree, Inv, HandleMessage, Handing, Clips, Hushed, AllStay, GotWithin, Sync, Steady;
    var c, p := s.m.conns[r], s.procs[r];
    var msg := p.replies[c.recvd];
    ExpectedByMaster(s, r);
    CountReceived(s.m, r);
    var m1 := Put(s.m, r, c.(recvd := c.recvd + 1));
    ReceivedStays(m1, r, msg);
    var s0 := Popped(s, r, msg.Ready?);
    assert msg.Ready? ==> s0.m.conns == m1.conns[r := m1.conns[r].(state := Connected, failcount := 0)];
    SyncMaster(s, HandleMessage(m1, r, msg));
    PoppedHanding(s, r, a, b, text, phase);
    AllStayHushed(s0.m, HandleMessage(m1, r, msg));
    SyncSame(s, s0, HandleMessage(m1, r, msg));
    PoppedSteady(s, r, msg.Ready?, a, sa);
    PoppedSteady(s, r, msg.Ready?, b, sb);
    HushedHanding(s0, HandleMessage(m1, r, msg), a, b, text, phase, sa, sb);
  }

  /** The state right after a reply has been taken off the channel, and READY noted. */
  function Popped(s: Sys, r: nat, ready: bool): (s': Sys)
    requires Sized(s) && r < |s.m.conns|
    ensures Sized(s')
  {
    var c := s.m.conns[r].(recvd := s.m.conns[r].recvd + 1);
    s.(m := Put(s.m, r, if ready then c.(state := Connected, failcount := 0) else c))
  }

  lemma PoppedHanding(s: Sys, r: nat, a: Node, b: Node, text: Text, phase: Phase)
    requires SysInv(s) && CanHappen(s, MasterReceives(r)) && InRange(s.m, a) && InRange(s.m, b)
    requires Handing(s, a, b, text, phase) && MasterExpects(s.m.conns[r], s.procs[r])
    requires !s.procs[r].replies[s.m.conns[r].recvd].SetClipboard?
    ensures var s0 := Popped(s, r, s.procs[r].replies[s.m.conns[r].recvd].Ready?);
      Handing(s0, a, b, text, phase) && GotWithin(s0)
  {
    hide SysInv, Handing, Clips;
    var c, p := s.m.conns[r], s.procs[r];
    ClipsPop(p.replies, c.recvd);
    AgreeGot(s);
    SameSessions(s, Popped(s, r, p.replies[c.recvd].Ready?), a, b, text, phase);
  }

  lemma PoppedSteady(s: Sys, r: nat, ready: bool, n: Node, session: nat)
    requires Sized(s) && r < |s.m.conns| && InRange(s.m, n) && Steady(s, n, session)
    ensures Steady(Popped(s, r, ready), n, session)
  {
  }

  /** The reply arrives: the master takes the clipboard and, if a remote is focused, passes it on. */
  lemma ReplyArrives(s: Sys, r: nat, a: Node, b: Node, text: Text, phase: Phase, sa: nat, sb: nat) returns (next: Phase)
    requires SysInv(s) && CanHappen(s, MasterReceives(r)) && InRange(s.m, a) && InRange(s.m, b)
    requires Handing(s, a, b, text, phase) && s.procs[r].replies[s.m.conns[r].recvd].SetClipboard?
    requires var s' := Next(s, MasterReceives(r));
      InRange(s'.m, b) && Steady(s', b, sb) && Steady(s, b, sb) && Steady(s, a, sa)
    ensures Handing(Next(s, MasterReceives(r)), a, b, text, next) && Follows(b, phase, next)
  {
    hide Inv, Pressed, Count, Handing, Clips, Enqueue, Fail, NothingBut, Wf;
    var c, p := s.m.conns[r], s.procs[r];
    var msg := p.replies[c.recvd];
    ClipsPop(p.replies, c.recvd);
    HandingAt(s, a, b, text, phase, r);
    HandingFacts(s, a, b, text, phase);
    assert phase == Answered && a == Remote(r) by {
      assert InClips(c, p)[0] == msg;
    }
    OnlyOne(msg, Clips(p.replies[c.recvd + 1..]), SetClipboard(text));
    var m1 := Put(s.m, r, c.(recvd := c.recvd + 1)).(clip := text);
    assert Wf(m1) by { WfClip(Put(s.m, r, c.(recvd := c.recvd + 1)), text); }
    var s1 := s.(m := m1);
    NothingApart(s, s1, r);
    AllButOne(s1, r);
    var s' := Next(s, MasterReceives(r));
    if b.Master? {
      next := Arrived;
      assert s'.procs == s1.procs;
      MakeHanding(s', a, b, text, next);
    } else {
      next := Forwarded;
      var m' := Enqueue(m1, b.id, SetClipboard(text));
      EnqueuesOrFails(m1, b.id, SetClipboard(text));
      assert s'.procs == s1.procs;
      OneAppended(s1, s', b.id, SetClipboard(text));
      MakeHanding(s', a, b, text, next);
    }
  }

  lemma OnlyOne(x: Message, rest: seq<Message>, y: Message)
    requires [x] + rest == [y]
    ensures x == y && rest == []
  {
    assert ([x] + rest)[0] == x;
  }

  lemma WfClip(m: Core, text: Text)
    requires Wf(m)
    ensures Wf(m.(clip := text))
  {
  }

  lemma NothingApart(s: Sys, s': Sys, r: nat)
    requires Sized(s) && Sized(s') && r < |s.m.conns| == |s'.m.conns| && NothingBut(s, Some(r)) && s'.procs == s.procs
    requires forall q :: 0 <= q < |s.m.conns| && q != r ==> s'.m.conns[q] == s.m.conns[q]
    ensures NothingBut(s', Some(r))
  {
    hide UnderWay;
    forall q | 0 <= q < |s.m.conns| && q != r
      ensures UnderWay(s', q, [], [])
    {
      UnderWaySame(s, s', q, [], []);
    }
  }

  /** A connection that is still up after an enqueue has just got the message. */
  lemma EnqueuesOrFails(m: Core, r: nat, msg: Message)
    requires Wf(m) && r < |m.conns|
    ensures Enqueue(m, r, msg).conns[r].state.Connected? ==> Enqueue(m, r, msg) == Append(m, Remote(r), [msg])
  {
    hide Fail, Wf;
    FailFrame(Put(m, r, m.conns[r].(sent := m.conns[r].sent + [msg])), r);
  }

  lemma OneAppended(s: Sys, s': Sys, r: nat, msg: Message)
    requires Sized(s) && Quiescent(s) && GotWithin(s) && r < |s.m.conns| && IsClip(msg)
    requires s' == s.(m := Append(s.m, Remote(r), [msg])) && s.m.conns[r].open
    ensures NothingBut(s', Some(r)) && UnderWay(s', r, [msg], [])
  {
    hide Clips;
    NothingAll(s, r);
    NothingApart(s, s', r);
    assert UnderWay(s, r, [], []);
    var c, p := s.m.conns[r], s.procs[r];
    assert (c.sent + [msg])[p.got..] == c.sent[p.got..] + [msg];
    ClipsAppend(c.sent[p.got..], [msg]);
    OneClip(msg);
  }

  lemma NothingAll(s: Sys, r: nat)
    requires Sized(s) && Quiescent(s)
    ensures NothingBut(s, Some(r))
  {
    hide UnderWay;
  }

  // ---------------------------------------------------------------- the switch starts it

  lemma {:induction false} ClipsKeys(keys: seq<Word>, pr: Word)
    ensures Clips(KeyMsgs(keys, pr)) == []
    decreases |keys|
  {
    if keys != [] {
      assert KeyMsgs(keys, pr)[1..] == KeyMsgs(keys[1..], pr);
      ClipsKeys(keys[1..], pr);
    }
  }

  lemma HandOverClips(m: Core, keys: seq<Word>)
    ensures Clips(FromMsgs(m, keys)) == [GetClipboard]
    ensures Clips(ToMsgs(m, keys)) == if m.focused.Master? then [SetClipboard(m.clip)] else []
  {
    hide Clips, KeyMsgs;
    ClipsKeys(keys, RELEASE);
    ClipsKeys(keys, PRESS);
    NoClips();
    OneClip(GetClipboard);
    OneClip(SetClipboard(m.clip));
    BrightnessClips(m.cfg.hint);
    ClipsAppend(DimMsgs(m.cfg.hint) + [GetClipboard], KeyMsgs(keys, RELEASE));
    ClipsAppend(DimMsgs(m.cfg.hint), [GetClipboard]);
    var c := if m.focused.Master? then [SetClipboard(m.clip)] else [];
    ClipsAppend(LiftMsgs(m.cfg.hint) + c, KeyMsgs(keys, PRESS));
    ClipsAppend(LiftMsgs(m.cfg.hint), c);
  }

  lemma BrightnessClips(hint: Hint)
    ensures Clips(DimMsgs(hint)) == [] && Clips(LiftMsgs(hint)) == []
  {
  }

  /** Appending to a session that has nothing under way. */
  lemma AppendUnderWay(s: Sys, s': Sys, r: nat, ms: seq<Message>)
    requires Sized(s) && Sized(s') && GotWithin(s) && r < |s.m.conns| == |s'.m.conns| && UnderWay(s, r, [], [])
    requires s'.procs[r] == s.procs[r] && s'.m.conns[r] == s.m.conns[r].(sent := s.m.conns[r].sent + ms)
    ensures UnderWay(s', r, Clips(ms), [])
  {
    hide Clips;
    var c, p := s.m.conns[r], s.procs[r];
    if c.open {
      assert (c.sent + ms)[p.got..] == c.sent[p.got..] + ms;
      ClipsAppend(c.sent[p.got..], ms);
    }
  }

  /** A switch that leaves the departing remote connected had room for everything. */
  lemma StillUpMeansRoom(m: Core, to: Node, keys: seq<Word>)
    requires Inv(m) && Reachable(m, to) && to != m.focused && SwitchFits(m, to, keys)
    requires m.focused.Remote? ==> Switch(m, to, keys).conns[m.focused.id].open
    ensures SwitchRoom(m, to, keys)
  {
    hide Inv, Switch, FromMsgs, ToMsgs, Fail, SameButFades, Append;
    if !SwitchRoom(m, to, keys) {
      var x := HomeOver(m, keys);
      FailFrame(x, m.focused.id);
      assert false;
    }
  }

  /** A switch from a quiescent state asks the departing remote for its clipboard, or sends the
      master's. */
  lemma SwitchStarts(s: Sys, b: Node, keys: seq<Word>, viaHotkey: bool, sa: nat)
    requires SysInv(s) && Quiescent(s) && InRange(s.m, b) && Reachable(s.m, b) && b != s.m.focused
    requires CanHappen(s, FocusRequest(Some(b), keys, viaHotkey))
    requires var s' := Next(s, FocusRequest(Some(b), keys, viaHotkey));
      InRange(s'.m, s.m.focused) && Steady(s', s.m.focused, sa)
    ensures var s' := Next(s, FocusRequest(Some(b), keys, viaHotkey));
      var a := s.m.focused;
      InRange(s'.m, a) && InRange(s'.m, b) &&
      Handing(s', a, b, ClipOf(s, a), if a.Remote? then Asked else Forwarded)
  {
    hide SysInv, Inv, Switch, ListOk, KeySet, SameButFades, FromMsgs, ToMsgs, UnderWay, GotWithin;
    var a := s.m.focused;
    var s' := Next(s, FocusRequest(Some(b), keys, viaHotkey));
    InvList(s.m);
    StillUpMeansRoom(s.m, b, keys);
    SwitchEffect(s.m, b, keys);
    FadesList(Switched(s.m, b, keys), Switch(s.m, b, keys));
    assert s'.m.conns == Switched(s.m, b, keys).conns && s'.m.clip == s.m.clip;
    assert s'.procs == s.procs;
    AgreeGot(s);
    HandOverClips(s.m, keys);
    var x := if a.Remote? then Some(a.id) else Some(b.id);
    forall q | 0 <= q < |s.m.conns| && x != Some(q)
      ensures UnderWay(s', q, [], [])
    {
      if b == Remote(q) {
        AppendUnderWay(s, s', q, ToMsgs(s.m, keys));
      } else {
        UnderWaySame(s, s', q, [], []);
      }
    }
    if a.Remote? {
      AppendUnderWay(s, s', a.id, FromMsgs(s.m, keys));
    } else {
      AppendUnderWay(s, s', b.id, ToMsgs(s.m, keys));
    }
    hide NothingBut;
    MakeHanding(s', a, b, ClipOf(s, a), if a.Remote? then Asked else Forwarded);
  }

  // ---------------------------------------------------------------- every interleaving

  /** No clipboard is changed from outside. */
  predicate Undisturbed(e: Event) {
    !e.ClipboardChanges? && !(e.Action? && e.a.ClearClipboards?)
  }

  lemma MasterStepMoves(s: Sys, e: Event, a: Node, b: Node, text: Text, phase: Phase, sa: nat, sb: nat)
    requires SysInv(s) && CanHappen(s, e) && Undisturbed(e) && InRange(s.m, a) && InRange(s.m, b)
    requires OfMaster(e)
    requires Handing(s, a, b, text, phase) && Steady(s, a, sa) && Steady(s, b, sb)
    requires var s' := Next(s, e);
      s'.m.focused == b && InRange(s'.m, a) && InRange(s'.m, b) && Steady(s', a, sa) && Steady(s', b, sb)
    ensures Handing(Next(s, e), a, b, text, phase)
  {
    hide SysInv, Inv, MasterStep, CanHappen, Hushed, GotWithin, Steady, Handing, Wf;
    OnlyMaster(s, e);
    HandingFacts(s, a, b, text, phase);
    AgreeGot(s);
    var m' := MasterStep(s, e);
    SyncMaster(s, m');
    MasterEventHushed(s, e);
    ClipFixed(s, e);
    HushedHanding(s, m', a, b, text, phase, sa, sb);
  }

  lemma ClipFixed(s: Sys, e: Event)
    requires Sized(s) && CanHappen(s, e) && Undisturbed(e) && !e.MasterReceives?
    ensures MasterStep(s, e).clip == s.m.clip
  {
    hide Fail, FireHead, Enqueue, SendClick, FocusNode, OnFirst, Wf;
  }

  /** One step of a hand-over, whatever the step is. */
  lemma StepMoves(s: Sys, e: Event, a: Node, b: Node, text: Text, phase: Phase, sa: nat, sb: nat) returns (next: Phase)
    requires SysInv(s) && CanHappen(s, e) && Undisturbed(e) && InRange(s.m, a) && InRange(s.m, b)
    requires Handing(s, a, b, text, phase) && Steady(s, a, sa) && Steady(s, b, sb)
    requires var s' := Next(s, e);
      s'.m.focused == b && InRange(s'.m, a) && InRange(s'.m, b) && Steady(s', a, sa) && Steady(s', b, sb)
    ensures Handing(Next(s, e), a, b, text, next) && Follows(b, phase, next)
  {
    hide SysInv, Inv, MasterStep, RemoteStep, Next, Handing, Steady;
    next := phase;
    match e
    case Transmit(r) => TransmitHushed(s, r, a, b, text, phase);
    case TransmitReply(_) => RemoteHushed(s, e, a, b, text, phase);
    case RemoteLogs(_, _) => RemoteHushed(s, e, a, b, text, phase);
    case RemoteExits(_) => RemoteHushed(s, e, a, b, text, phase);
    case RemoteReceives(r, env) => next := RemoteMoves(s, r, env, a, b, text, phase);
    case MasterReceives(r) =>
      if s.procs[r].replies[s.m.conns[r].recvd].SetClipboard? {
        next := ReplyArrives(s, r, a, b, text, phase, sa, sb);
      } else {
        OtherReplyHushed(s, r, a, b, text, phase, sa, sb);
      }
    case _ => MasterStepMoves(s, e, a, b, text, phase, sa, sb);
  }

  /** From a switch on: the focus stays, both ends stay connected, no clipboard is changed. */
  ghost predicate Carried(states: seq<Sys>, events: seq<Event>, i: nat, j: nat, a: Node, b: Node, sa: nat, sb: nat)
    requires i < j <= |events| && |states| == |events| + 1
  {
    && (forall k :: i < k <= j ==>
          && Sized(states[k]) && states[k].m.focused == b
          && InRange(states[k].m, a) && InRange(states[k].m, b) && Steady(states[k], a, sa) && Steady(states[k], b, sb))
    && (forall k :: i < k < j ==> Undisturbed(events[k]))
  }

  lemma {:induction false} CarriedAlong(
      m0: Core, states: seq<Sys>, events: seq<Event>, i: nat, j: nat,
      b: Node, keys: seq<Word>, viaHotkey: bool, sa: nat, sb: nat)
    returns (phase: Phase)
    requires Run(m0, states, events) && i < j <= |events| && events[i] == FocusRequest(Some(b), keys, viaHotkey)
    requires Sized(states[i]) && Quiescent(states[i]) && Reachable(states[i].m, b) && b != states[i].m.focused
    requires Carried(states, events, i, j, states[i].m.focused, b, sa, sb)
    ensures Handing(states[j], states[i].m.focused, b, ClipOf(states[i], states[i].m.focused), phase)
    decreases j
  {
    hide SysInv, Handing, Next, Quiescent, Initial, CanHappen, Steady;
    var a := states[i].m.focused;
    var k := j - 1;
    assert Sized(states[k]) && CanHappen(states[k], events[k]) && states[k + 1] == Next(states[k], events[k]);
    AlwaysInv(m0, states, events, k);
    if k == i {
      SwitchStarts(states[i], b, keys, viaHotkey, sa);
      phase := if a.Remote? then Asked else Forwarded;
    } else {
      phase := CarriedAlong(m0, states, events, i, k, b, keys, viaHotkey, sa, sb);
      phase := StepMoves(states[k], events[k], a, b, ClipOf(states[i], a), phase, sa, sb);
    }
  }

  /** A hand-over with nothing left under way has arrived. */
  lemma DrainedMeansArrived(s: Sys, a: Node, b: Node, text: Text, phase: Phase, sa: nat, sb: nat)
    requires Sized(s) && InRange(s.m, a) && InRange(s.m, b) && Handing(s, a, b, text, phase)
    requires Steady(s, a, sa) && Steady(s, b, sb) && Quiescent(s)
    ensures phase.Arrived?
  {
    hide OutClips, InClips;
  }

  /** The clipboard follows the focus, in every interleaving: take a run, a moment with no clipboard
      message under way, and a switch at that moment.  If afterwards the focus stays, both ends stay
      connected and no clipboard is changed from outside, then as soon as no clipboard message is
      under way again, the node that gained the focus has the clipboard that the other one had at
      the switch, and so has the other one still.  It holds from master to remote, from remote to
      master, and from remote to remote by way of the master. */
  lemma ClipboardFollowsFocus(
      m0: Core, states: seq<Sys>, events: seq<Event>, i: nat, j: nat,
      b: Node, keys: seq<Word>, viaHotkey: bool, sa: nat, sb: nat)
    requires Run(m0, states, events) && i < j <= |events| && events[i] == FocusRequest(Some(b), keys, viaHotkey)
    requires Sized(states[i]) && Quiescent(states[i]) && Reachable(states[i].m, b) && b != states[i].m.focused
    requires Carried(states, events, i, j, states[i].m.focused, b, sa, sb)
    requires Quiescent(states[j])
    ensures var a := states[i].m.focused;
      ClipOf(states[j], b) == ClipOf(states[i], a) && ClipOf(states[j], a) == ClipOf(states[i], a)
  {
    hide Initial, Next, CanHappen, Quiescent, Steady;
    var a := states[i].m.focused;
    var phase := CarriedAlong(m0, states, events, i, j, b, keys, viaHotkey, sa, sb);
    DrainedMeansArrived(states[j], a, b, ClipOf(states[i], a), phase, sa, sb);
  }
}
