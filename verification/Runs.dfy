/** What holds in every state of every run of the system. */
module Runs {
  import opened Base
  import opened Proto
  import opened Timers
  import opened MasterSpec
  import opened MasterInv
  import opened Focus
  import opened Sessions
  import opened System
  import opened Effects

  /** Right after start-up: every enabled remote is being connected to. */
  predicate Initial(s: Sys, m0: Core) {
    && Startup(m0) && Wf(m0) && m0.held <= m0.cfg.modifiers
    && s.m == SetupAll(m0, |m0.conns|)
    && |s.procs| == |s.clips| == |m0.conns|
    && forall r :: 0 <= r < |s.procs| ==> s.procs[r] == FRESH_PROC
  }

  ghost predicate Run(m0: Core, states: seq<Sys>, events: seq<Event>) {
    && |states| == |events| + 1 && Initial(states[0], m0)
    && forall i :: 0 <= i < |events| ==>
         Sized(states[i]) && CanHappen(states[i], events[i]) && states[i + 1] == Next(states[i], events[i])
  }

  lemma {:induction false} SetupAllSessions(m: Core, n: nat)
    requires Wf(m) && n <= |m.conns| && forall r :: 0 <= r < |m.conns| ==> Pristine(m.conns[r])
    ensures forall q :: 0 <= q < |m.conns| ==>
      var c := SetupAll(m, n).conns[q]; c.open ==> c.taken == 0 && c.recvd == 0 && c.state.SettingUp?
    ensures forall q :: n <= q < |m.conns| ==> SetupAll(m, n).conns[q] == m.conns[q]
  {
    hide SetupRemote, Wf;
    if n == 0 {
      assert forall q :: 0 <= q < |m.conns| ==> Pristine(m.conns[q]);
    } else {
      SetupAllSessions(m, n - 1);
      SetupRenews(SetupAll(m, n - 1), n - 1);
    }
  }

  lemma InitialOk(s: Sys, m0: Core)
    requires Initial(s, m0)
    ensures SysInv(s)
  {
    hide Inv, Agree, SetupAll, Pristine;
    SetupAllOk(m0, |m0.conns|);
    SetupAllSessions(m0, |m0.conns|);
    forall r | 0 <= r < |s.m.conns| && s.m.conns[r].open
      ensures Agree(s.m.conns[r], s.procs[r], s.m.cfg.modifiers)
    {
      TakenBound(s.m, r);
      FreshAgree(s.m.conns[r], s.m.cfg.modifiers);
    }
  }

  /** The invariant holds throughout. */
  lemma {:induction false} AlwaysInv(m0: Core, states: seq<Sys>, events: seq<Event>, n: nat)
    requires Run(m0, states, events) && n < |states|
    ensures SysInv(states[n])
  {
    hide SysInv, Initial, CanHappen, Next;
    if n == 0 {
      InitialOk(states[0], m0);
    } else {
      AlwaysInv(m0, states, events, n - 1);
      var i := n - 1;
      assert Sized(states[i]) && CanHappen(states[i], events[i]) && states[i + 1] == Next(states[i], events[i]);
      StepKeeps(states[i], events[i]);
    }
  }

  /** Handshake safety, in every interleaving: a remote's next message is SETUP exactly until it is
      initialised and one it handles afterwards; the master's next message is READY only while it
      is setting up and otherwise one it handles; and a remote that the master considers connected
      has processed SETUP. */
  lemma HandshakeSafe(m0: Core, states: seq<Sys>, events: seq<Event>, n: nat, r: nat)
    requires Run(m0, states, events) && n < |states| && r < |states[n].m.conns| && r < |states[n].procs|
    ensures RemoteExpects(states[n].m.conns[r], states[n].procs[r])
    ensures MasterExpects(states[n].m.conns[r], states[n].procs[r])
    ensures states[n].m.conns[r].state.Connected? ==> states[n].procs[r].initialized
  {
    hide Run, Inv, Pressed, Count;
    AlwaysInv(m0, states, events, n);
    var s := states[n];
    ExpectedByRemote(s, r);
    ExpectedByMaster(s, r);
    if s.m.conns[r].state.Connected? {
      OpenWhenConnected(s.m, r);
      CountPrefix(s.procs[r].replies, s.m.conns[r].recvd, READY);
    }
  }

  /** Every request is answered exactly once: a remote has sent one MOUSEPOS for each MOVEREL and one
      SETCLIPBOARD for each GETCLIPBOARD that it has handled, and one READY for SETUP. */
  lemma RepliesMatch(m0: Core, states: seq<Sys>, events: seq<Event>, n: nat, r: nat)
    requires Run(m0, states, events) && n < |states| && r < |states[n].m.conns| && r < |states[n].procs|
    requires states[n].m.conns[r].open
    ensures var c, p := states[n].m.conns[r], states[n].procs[r];
      && p.got <= |c.sent|
      && Count(p.replies, MOUSEPOS) == Count(c.sent[..p.got], MOVEREL)
      && Count(p.replies, SETCLIPBOARD) == Count(c.sent[..p.got], GETCLIPBOARD)
      && Count(p.replies, READY) == (if p.initialized then 1 else 0)
  {
    hide Run, Inv, Pressed, Count;
    AlwaysInv(m0, states, events, n);
  }

  /** Focus safety: always the master or a connected remote, with inputs grabbed exactly for the
      latter. */
  lemma FocusSafe(m0: Core, states: seq<Sys>, events: seq<Event>, n: nat)
    requires Run(m0, states, events) && n < |states|
    ensures FocusOk(states[n].m)
  {
    hide Run;
    AlwaysInv(m0, states, events, n);
  }

  /** The reconnect calls pending for a remote, as positions in the timer list. */
  predicate ReconnectAt(calls: seq<Call<Task>>, r: nat, i: int) {
    0 <= i < |calls| && calls[i].what == Reconnect(r)
  }

  lemma PendingExactly(m: Core, r: nat)
    requires Inv(m) && r < |m.conns|
    ensures m.conns[r].state.Failed? <==> exists i :: ReconnectAt(m.calls, r, i)
    ensures forall i, j :: ReconnectAt(m.calls, r, i) && ReconnectAt(m.calls, r, j) ==> i == j
  {
    hide Pressed, OwnTimer, Inv;
    Split(m, r);
    InvList(m);
    var ids := ReconIds(m.calls, r);
    forall i | ReconnectAt(m.calls, r, i)
      ensures m.calls[i].id in ids
    {
      assert m.calls[i] in m.calls;
    }
    if m.conns[r].state.Failed? {
      assert m.conns[r].timer.value in ids;
      var c :| c in m.calls && c.what == Reconnect(r) && c.id == m.conns[r].timer.value;
      var i :| 0 <= i < |m.calls| && m.calls[i] == c;
      assert ReconnectAt(m.calls, r, i);
    }
  }

  /** The connection lifecycle: the channel is open exactly in SETTINGUP and CONNECTED; exactly one
      reconnect call is pending in FAILED and none in any other state; a FAILED remote always
      remembers its timer; failures are counted within bounds; the timer list is sorted. */
  lemma LifecycleSafe(m0: Core, states: seq<Sys>, events: seq<Event>, n: nat, r: nat)
    requires Run(m0, states, events) && n < |states| && r < |states[n].m.conns|
    ensures var m := states[n].m;
      var c := m.conns[r];
      && (c.open <==> c.state.SettingUp? || c.state.Connected?)
      && (c.state.Failed? <==> exists i :: ReconnectAt(m.calls, r, i))
      && (forall i, j :: ReconnectAt(m.calls, r, i) && ReconnectAt(m.calls, r, j) ==> i == j)
      && (c.state.Failed? ==> c.timer.Some?)
      && 0 <= c.failcount <= Cap(m.cfg) + 1
      && (!c.state.PermFailed? ==> c.failcount <= Cap(m.cfg))
      && (c.state.Connected? ==> c.failcount == 0)
      && Queued(c) <= MAX_SEND_BACKLOG
      && Sorted(m.calls)
  {
    hide Run, Pressed, OwnTimer, ReconIds;
    AlwaysInv(m0, states, events, n);
    hide Inv;
    PendingExactly(states[n].m, r);
    Split(states[n].m, r);
    InvList(states[n].m);
  }

  /** No stuck modifiers: replaying all key events ever enqueued in a session yields exactly the
      held modifiers for the focused remote and none for any other; and a remote that has handled
      everything sent to it has exactly those keys down. */
  lemma NoStuckModifiers(m0: Core, states: seq<Sys>, events: seq<Event>, n: nat, r: nat)
    requires Run(m0, states, events) && n < |states| && r < |states[n].m.conns| && r < |states[n].procs|
    ensures var m := states[n].m;
      var due := if m.focused == Remote(r) then m.held else {};
      && Pressed(m.conns[r].sent, m.cfg.modifiers) == due
      && (m.conns[r].open && states[n].procs[r].got == |m.conns[r].sent| ==> states[n].procs[r].pressed == due)
  {
    hide Run, Inv, Pressed, Count, OwnTimer, ReconIds;
    AlwaysInv(m0, states, events, n);
    var c, p := states[n].m.conns[r], states[n].procs[r];
    Split(states[n].m, r);
    if c.open && p.got == |c.sent| {
      assert c.sent[..p.got] == c.sent;
    }
  }

  // ---------------------------------------------------------------- bounded retries

  /** An automatic reconnect attempt to `r`. */
  predicate Attempt(s: Sys, e: Event, r: nat) {
    e.TimerFires? && s.m.calls != [] && s.m.calls[0].what == Reconnect(r)
  }

  /** What resets the failure count of `r`: READY from it, or a user's wish to reconnect it. */
  predicate Resets(s: Sys, e: Event, r: nat)
    requires Sized(s) && CanHappen(s, e) && r < |s.m.conns|
  {
    match e
    case MasterReceives(q) => q == r && s.procs[r].replies[s.m.conns[r].recvd].Ready?
    case FocusRequest(target, _, _) => target == Some(Remote(r))
    case Action(a) => a.ReconnectAll?
    case _ => false
  }

  lemma SpendsStay(m: Core, m': Core, r: nat, quiet: bool)
    requires AllStay(m, m', quiet) && r < |m.conns|
    ensures Budget(m.cfg, m'.conns[r]) <= Budget(m.cfg, m.conns[r])
    ensures m.conns[r].state.PermFailed? ==> m'.conns[r].state.PermFailed?
  {
    hide Budget, Clips;
    assert Stays(m.cfg, m.conns[r], m'.conns[r], quiet);
  }

  /** Short of a reset, each attempt spends one of the attempts left, nothing adds to them, and a
      remote that was given up stays given up. */
  lemma AttemptSpends(s: Sys, e: Event, r: nat)
    requires SysInv(s) && CanHappen(s, e) && r < |s.m.conns| && !Resets(s, e, r)
    ensures var c, c' := s.m.conns[r], Next(s, e).m.conns[r];
      && Budget(s.m.cfg, c') + (if Attempt(s, e, r) then 1 else 0) <= Budget(s.m.cfg, c)
      && (c.state.PermFailed? ==> c'.state.PermFailed?)
  {
    hide SysInv, Inv, AllStay, Wf, Sync, ClickFits;
    hide Fail, FireHead, KeyStep, ToFocused, SendClick, FocusNode, OnFirst, HandleMessage;
    var m := s.m;
    var m' := MasterStep(s, e);
    SyncMaster(RemoteStep(s, e), m');
    AllStaySame(m, m);
    match e
    case ChannelFails(q) =>
      OpenIsLive(m, q);
      FailStays(m, q);
      SpendsStay(m, m', r, true);
    case TimerFires =>
      FireSessions(m);
      if !m.calls[0].what.Reconnect? {
        SpendsStay(m, m', r, true);
      } else if m.calls[0].what.rmt == r {
        ReconnectFires(m, r);
      }
    case Key(key, pr) =>
      KeyStays(m, key, pr);
      SpendsStay(m, m', r, true);
    case Move(msg) =>
      InputStays(m, msg);
      SpendsStay(m, m', r, !IsClip(msg));
    case Click(button, pr) =>
      ClickStays(m, button, pr);
      SpendsStay(m, m', r, true);
    case FocusRequest(target, keys, viaHotkey) => FocusSpends(m, target, keys, viaHotkey, r);
    case Action(a) =>
      OnFirstStays(m, a, |m.conns|);
      SpendsStay(m, m', r, !a.ClearClipboards?);
    case MasterReceives(q) => ReceiveSpends(s, q, r);
    case _ =>
  }

  lemma SyncMaster(s: Sys, m': Core)
    requires Sized(s) && Wf(m') && |m'.conns| == |s.m.conns|
    ensures Sync(s, m').m == m'
  {
  }

  lemma FocusSpends(m: Core, target: Option<Node>, keys: seq<Word>, viaHotkey: bool, r: nat)
    requires Inv(m) && (target.Some? ==> InRange(m, target.value)) && FocusFits(m, target, keys)
    requires r < |m.conns| && target != Some(Remote(r))
    ensures var c, c' := m.conns[r], FocusNode(m, target, keys, viaHotkey).conns[r];
      Budget(m.cfg, c') <= Budget(m.cfg, c) && (c.state.PermFailed? ==> c'.state.PermFailed?)
  {
    hide Inv, FocusNode, FocusFits, Budget, Clips;
    FocusSessions(m, target, keys, viaHotkey);
  }

  lemma ReceiveSpends(s: Sys, q: nat, r: nat)
    requires SysInv(s) && CanHappen(s, MasterReceives(q)) && r < |s.m.conns| && !Resets(s, MasterReceives(q), r)
    ensures var c, c' := s.m.conns[r], MasterStep(s, MasterReceives(q)).conns[r];
      Budget(s.m.cfg, c') <= Budget(s.m.cfg, c) && (c.state.PermFailed? ==> c'.state.PermFailed?)
  {
    hide Inv, HandleMessage, AllStay, Count, Pressed;
    var c, p := s.m.conns[q], s.procs[q];
    var msg := p.replies[c.recvd];
    ExpectedByMaster(s, q);
    CountReceived(s.m, q);
    var m1 := Put(s.m, q, c.(recvd := c.recvd + 1));
    var m0 := if msg.Ready? then Put(m1, q, m1.conns[q].(state := Connected, failcount := 0)) else m1;
    ReceivedStays(m1, q, msg);
    SpendsStay(m0, HandleMessage(m1, q, msg), r, !msg.SetClipboard?);
  }

  ghost function Attempts(states: seq<Sys>, events: seq<Event>, r: nat, i: nat, j: nat): nat
    requires i <= j <= |events| <= |states|
    decreases j
  {
    if i == j then 0
    else Attempts(states, events, r, i, j - 1) + if Attempt(states[j - 1], events[j - 1], r) then 1 else 0
  }

  ghost predicate NoReset(states: seq<Sys>, events: seq<Event>, r: nat, i: nat, j: nat)
    requires i <= j <= |events| <= |states|
  {
    forall k :: i <= k < j ==>
      Sized(states[k]) && CanHappen(states[k], events[k]) && r < |states[k].m.conns| && !Resets(states[k], events[k], r)
  }

  lemma {:induction false} AttemptsWithinBudget(m0: Core, states: seq<Sys>, events: seq<Event>, r: nat, i: nat, j: nat)
    requires Run(m0, states, events) && i <= j <= |events| && r < |states[i].m.conns|
    requires NoReset(states, events, r, i, j)
    ensures |states[j].m.conns| == |states[i].m.conns| && states[j].m.cfg == states[i].m.cfg
    ensures Attempts(states, events, r, i, j) + Budget(states[i].m.cfg, states[j].m.conns[r])
      <= Budget(states[i].m.cfg, states[i].m.conns[r])
    ensures states[i].m.conns[r].state.PermFailed? ==> states[j].m.conns[r].state.PermFailed?
    decreases j
  {
    hide SysInv, Budget, Next, CanHappen, Attempt, Resets, Initial;
    if i < j {
      AttemptsWithinBudget(m0, states, events, r, i, j - 1);
      var k := j - 1;
      assert Sized(states[k]) && CanHappen(states[k], events[k]) && states[k + 1] == Next(states[k], events[k]);
      AlwaysInv(m0, states, events, k);
      AttemptSpends(states[k], events[k], r);
      ConfigFixed(states[k], events[k]);
    }
  }

  lemma ConfigFixed(s: Sys, e: Event)
    requires Sized(s) && CanHappen(s, e)
    ensures Next(s, e).m.cfg == s.m.cfg && |Next(s, e).m.conns| == |s.m.conns|
  {
    hide Fail, FireHead, Enqueue, SendClick, FocusNode, OnFirst, HandleMessage, Wf;
  }

  /** Bounded retries: from a reset of the failure count, and until the next one, a run makes at
      most `maxTries` automatic attempts to reconnect a remote; and a remote that has been given up
      is left alone until the user asks. */
  lemma BoundedRetries(m0: Core, states: seq<Sys>, events: seq<Event>, r: nat, i: nat, j: nat)
    requires Run(m0, states, events) && i <= j <= |events| && r < |states[i].m.conns|
    requires NoReset(states, events, r, i, j)
    ensures states[i].m.conns[r].failcount == 0 ==> Attempts(states, events, r, i, j) <= Cap(states[i].m.cfg)
    ensures states[i].m.conns[r].state.PermFailed? ==>
      Attempts(states, events, r, i, j) == 0 && states[j].m.conns[r].state.PermFailed?
  {
    hide NoReset, Attempts, Initial, Next;
    AttemptsWithinBudget(m0, states, events, r, i, j);
    AlwaysInv(m0, states, events, i);
    var m := states[i].m;
    if m.conns[r].state.Failed? {
      FailcountBound(m, r);
    }
  }

  /** A step that begins the count of failures anew: READY from `r`, or a wish to call it while it is
      not connected. */
  predicate Anew(s: Sys, e: Event, r: nat)
    requires Sized(s) && CanHappen(s, e) && r < |s.m.conns|
  {
    Resets(s, e, r) &&
    match e
    case FocusRequest(_, _, _) => !s.m.conns[r].state.Connected?
    case Action(_) => s.m.conns[r].enabled && !s.m.conns[r].state.Connected?
    case _ => true
  }

  /** READY leaves a connected remote with no failure counted, or one that the brightness message which
      READY brings has just failed, with one. */
  lemma ReadyResets(s: Sys, r: nat)
    requires SysInv(s) && CanHappen(s, MasterReceives(r)) && s.procs[r].replies[s.m.conns[r].recvd].Ready?
    ensures r < |Next(s, MasterReceives(r)).m.conns|
    ensures var c, c' := s.m.conns[r], Next(s, MasterReceives(r)).m.conns[r];
      if Room(c) >= |DimMsgs(s.m.cfg.hint)| then c'.state.Connected? && c'.failcount == 0
      else c'.failcount == 1 && !c'.open
  {
    hide Inv, HandleMessage, Pressed, Count;
    var c := s.m.conns[r];
    ExpectedByMaster(s, r);
    CountReceived(s.m, r);
    ReadyExact(Put(s.m, r, c.(recvd := c.recvd + 1)), r, s.procs[r].replies[c.recvd]);
  }

  /** A wish to call an absent remote begins a session with no failure counted. */
  lemma WishResets(s: Sys, e: Event, r: nat)
    requires SysInv(s) && CanHappen(s, e) && r < |s.m.conns| && Anew(s, e, r) && !e.MasterReceives?
    ensures r < |Next(s, e).m.conns|
    ensures var c' := Next(s, e).m.conns[r];
      c'.state.SettingUp? && c'.failcount == 0 && c'.session == s.m.conns[r].session + 1
  {
    hide Inv, FocusNode, OnFirst, Pressed, Count;
    match e
    case FocusRequest(_, keys, viaHotkey) => CalledAgain(s.m, r, keys, viaHotkey);
    case Action(_) => ReconnectAllRenews(s.m, |s.m.conns|);
  }

  /** So after each such step at most `maxTries` automatic attempts follow until the next one, and that
      many are left unless the step itself has failed the remote. */
  lemma BoundedAfterReset(m0: Core, states: seq<Sys>, events: seq<Event>, r: nat, i: nat, j: nat)
    requires Run(m0, states, events) && i < j <= |events| && r < |states[i].m.conns|
    requires Sized(states[i]) && CanHappen(states[i], events[i]) && Anew(states[i], events[i], r)
    requires NoReset(states, events, r, i + 1, j)
    ensures r < |states[i + 1].m.conns|
    ensures Attempts(states, events, r, i + 1, j) <= Cap(states[i].m.cfg)
    ensures var c, cfg := states[i + 1].m.conns[r], states[i].m.cfg;
      c.open ==> c.failcount == 0 && Budget(cfg, c) == Cap(cfg)
  {
    hide NoReset, Attempts, Initial, Next, Resets, Inv, CanHappen;
    AlwaysInv(m0, states, events, i);
    AlwaysInv(m0, states, events, i + 1);
    var s, e, t := states[i], events[i], states[i + 1];
    assert CanHappen(s, e) && t == Next(s, e);
    ConfigFixed(s, e);
    AttemptsWithinBudget(m0, states, events, r, i + 1, j);
    BudgetWithin(t.m, r);
    if e.MasterReceives? {
      FromIsOwn(s, e, r);
      ReadyResets(s, r);
    } else {
      WishResets(s, e, r);
    }
    OpenIsLive(t.m, r);
  }

  lemma FromIsOwn(s: Sys, e: Event, r: nat)
    requires Sized(s) && CanHappen(s, e) && r < |s.m.conns| && Resets(s, e, r) && e.MasterReceives?
    ensures e == MasterReceives(r) && s.procs[r].replies[s.m.conns[r].recvd].Ready?
  {
  }

  lemma BudgetWithin(m: Core, r: nat)
    requires Inv(m) && r < |m.conns|
    ensures Budget(m.cfg, m.conns[r]) <= Cap(m.cfg)
    ensures m.conns[r].failcount == 0 && Live(m.conns[r]) ==> Budget(m.cfg, m.conns[r]) == Cap(m.cfg)
  {
    hide Pressed, ReconIds, OwnTimer, ListOk;
    Split(m, r);
  }
}
