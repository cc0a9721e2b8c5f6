/** What every operation of the master keeps: the connection lifecycle, the reconnect timers, the
    focus and the input grab, the bounded retry counts, and the modifier keys each remote has been
    told about. */
module MasterInv {
  import opened Base
  import opened Proto
  import opened Timers
  import opened MasterSpec
  import Backoff

  predicate Live(c: Conn) {
    c.state.SettingUp? || c.state.Connected?
  }

  /** The messages that a set-up remote handles. */
  predicate ToRemote(msg: Message) {
    msg.MoveRel? || msg.MoveAbs? || msg.ClickEvent? || msg.KeyEvent? || msg.GetClipboard? ||
    msg.SetClipboard? || msg.SetBrightness? || msg.SetLogLevel?
  }

  /** A session opens with SETUP, which is never repeated. */
  predicate SessionOk(sent: seq<Message>) {
    && sent != [] && sent[0].Setup? && sent[0].version == PROT_VERSION
    && forall i :: 1 <= i < |sent| ==> ToRemote(sent[i])
  }

  function Cap(cfg: Config): int {
    if cfg.maxTries < 0 then 0 else cfg.maxTries
  }

  /** The channel is open exactly in SETTINGUP and CONNECTED; retries are counted and bounded, from zero
      at each connection. */
  predicate ConnOk(cfg: Config, c: Conn) {
    && (c.open <==> Live(c))
    && (c.open ==> SessionOk(c.sent))
    && (!c.open ==> c.sent == [] && c.taken == 0 && c.recvd == 0)
    && c.taken <= |c.sent| && Queued(c) <= MAX_SEND_BACKLOG
    && 0 <= c.failcount <= Cap(cfg) + 1
    && (!c.state.PermFailed? ==> c.failcount <= Cap(cfg))
    && (c.state.Failed? ==> c.failcount >= 1 && c.timer.Some?)
    && (c.state.Connected? ==> c.failcount == 0)
  }

  /** The pending reconnect calls for a remote. */
  ghost function ReconIds(calls: seq<Call<Task>>, r: nat): set<nat> {
    set c | c in calls && c.what == Reconnect(r) :: c.id
  }

  /** Exactly one reconnect call is pending in FAILED, namely the remembered one; none otherwise. */
  ghost predicate TimerOk(calls: seq<Call<Task>>, r: nat, c: Conn) {
    ReconIds(calls, r) == if c.state.Failed? && c.timer.Some? then {c.timer.value} else {}
  }

  /** Even when it is stale, the remembered timer never names a call that is not this remote's. */
  predicate OwnTimer(calls: seq<Call<Task>>, nextId: nat, r: nat, timer: Option<nat>) {
    timer.Some? ==>
      timer.value < nextId &&
      forall i :: 0 <= i < |calls| && calls[i].id == timer.value ==> calls[i].what == Reconnect(r)
  }

  /** Replays key events: the modifiers that a remote has been told are down. */
  function Pressed(ms: seq<Message>, modifiers: set<Word>): set<Word> {
    if ms == [] then {}
    else PressedAfter(Pressed(ms[..|ms| - 1], modifiers), ms[|ms| - 1], modifiers)
  }

  function PressedAfter(p: set<Word>, msg: Message, modifiers: set<Word>): set<Word> {
    if msg.KeyEvent? && msg.keycode in modifiers then
      if msg.keyPr == PRESS then p + {msg.keycode} else p - {msg.keycode}
    else p
  }

  /** The modifiers that should be down on a remote. */
  function Due(m: Core, r: nat): set<Word> {
    if m.focused == Remote(r) then m.held else {}
  }

  ghost predicate RemoteOk(m: Core, r: nat)
    requires r < |m.conns|
  {
    && ConnOk(m.cfg, m.conns[r])
    && TimerOk(m.calls, r, m.conns[r])
    && OwnTimer(m.calls, m.nextId, r, m.conns[r].timer)
    && Pressed(m.conns[r].sent, m.cfg.modifiers) == Due(m, r)
  }

  predicate ListOk(calls: seq<Call<Task>>, nextId: nat) {
    Sorted(calls) && IdsBelow(calls, nextId) && DistinctIds(calls)
  }

  /** The focused node is the master or a connected remote, and inputs are grabbed exactly while a
      remote is focused. */
  predicate FocusOk(m: Core) {
    && InRange(m, m.focused)
    && (m.focused.Remote? ==> m.conns[m.focused.id].state.Connected?)
    && (m.grabbed <==> m.focused.Remote?)
  }

  /** Everything but what is particular to remote `r`. */
  ghost predicate Others(m: Core, r: nat)
    ensures Others(m, r) ==> Wf(m)
  {
    && Wf(m) && ListOk(m.calls, m.nextId) && FocusOk(m) && m.held <= m.cfg.modifiers
    && forall q :: 0 <= q < |m.conns| && q != r ==> RemoteOk(m, q)
  }

  ghost predicate Inv(m: Core)
    ensures Inv(m) ==> Wf(m) && FocusOk(m)
  {
    && Wf(m) && ListOk(m.calls, m.nextId) && FocusOk(m) && m.held <= m.cfg.modifiers
    && forall q :: 0 <= q < |m.conns| ==> RemoteOk(m, q)
  }

  // ---------------------------------------------------------------- timers

  lemma InsertRecon(calls: seq<Call<Task>>, c: Call<Task>, r: nat)
    ensures ReconIds(Insert(calls, c), r) == ReconIds(calls, r) + if c.what == Reconnect(r) then {c.id} else {}
  {
    hide Insert;
  }

  lemma RemoveRecon(calls: seq<Call<Task>>, id: nat, r: nat)
    ensures ReconIds(Remove(calls, id), r) == ReconIds(calls, r) - {id}
  {
    hide Remove;
  }

  /** Only the list of calls differs, and not in its reconnect calls. */
  ghost predicate SameButFades(m: Core, m': Core) {
    && m' == m.(calls := m'.calls, nextId := m'.nextId)
    && Wf(m') && ListOk(m'.calls, m'.nextId)
    && (forall q: nat :: ReconIds(m'.calls, q) == ReconIds(m.calls, q))
    && OwnKept(m, m')
  }

  ghost predicate OwnKept(m: Core, m': Core) {
    forall q: nat, t: Option<nat> :: OwnTimer(m.calls, m.nextId, q, t) ==> OwnTimer(m'.calls, m'.nextId, q, t)
  }

  /** A call with a fresh id is nobody's remembered timer. */
  lemma InsertOwn(m: Core, c: Call<Task>)
    requires c.id == m.nextId
    ensures OwnKept(m, m.(calls := Insert(m.calls, c), nextId := m.nextId + 1))
  {
    hide Insert;
    var calls := Insert(m.calls, c);
    forall q: nat, x: Option<nat> | OwnTimer(m.calls, m.nextId, q, x)
      ensures OwnTimer(calls, m.nextId + 1, q, x)
    {
      forall i | 0 <= i < |calls| && x.Some? && calls[i].id == x.value
        ensures calls[i].what == Reconnect(q)
      {
        assert calls[i] in calls;
      }
    }
  }

  lemma ScheduleList(m: Core, what: Task, delay: nat)
    requires Wf(m) && ListOk(m.calls, m.nextId) && TaskInRange(m, what)
    ensures var m' := ScheduleTask(m, what, delay); ListOk(m'.calls, m'.nextId)
  {
    hide Insert;
    var c := Call(m.nextId, m.now + delay, what);
    InsertSorted(m.calls, c, m.nextId);
    InsertDistinct(m.calls, c, m.nextId);
  }

  lemma {:induction false} FadeFrame(m: Core, node: Node, steps: seq<(nat, Word)>)
    requires Wf(m) && ListOk(m.calls, m.nextId) && InRange(m, node)
    ensures SameButFades(m, ScheduleFade(m, node, steps))
    decreases |steps|
  {
    hide Insert, ListOk, ReconIds, Wf, TaskInRange, OwnTimer;
    if steps != [] {
      var what := Brightness(node, steps[0].1);
      assert TaskInRange(m, what) by { BrightnessInRange(m, node, steps[0].1); }
      var m1 := ScheduleTask(m, what, steps[0].0);
      ScheduleList(m, what, steps[0].0);
      forall q: nat
        ensures ReconIds(m1.calls, q) == ReconIds(m.calls, q)
      {
        InsertRecon(m.calls, Call(m.nextId, m.now + steps[0].0, what), q);
      }
      InsertOwn(m, Call(m.nextId, m.now + steps[0].0, what));
      FadeFrame(m1, node, steps[1..]);
    }
  }

  lemma BrightnessInRange(m: Core, node: Node, level: Word)
    requires InRange(m, node)
    ensures TaskInRange(m, Brightness(node, level))
  {
  }

  lemma FadeKeepsInv(m: Core, m': Core)
    requires Inv(m) && SameButFades(m, m')
    ensures Inv(m')
  {
    hide ReconIds, ListOk, Pressed, ConnOk, Wf, OwnTimer;
    forall q | 0 <= q < |m'.conns|
      ensures RemoteOk(m', q)
    {
      assert RemoteOk(m, q);
    }
  }

  lemma FadeKeepsOthers(m: Core, m': Core, r: nat)
    requires Others(m, r) && SameButFades(m, m')
    ensures Others(m', r)
  {
    hide ReconIds, ListOk, Pressed, ConnOk, Wf, OwnTimer;
    forall q | 0 <= q < |m'.conns| && q != r
      ensures RemoteOk(m', q)
    {
      assert RemoteOk(m, q);
    }
  }

  // ---------------------------------------------------------------- failing

  /** Fades only add to the list of calls, and never a reconnect call. */
  lemma {:induction false} FadeSame(m: Core, n: Node, steps: seq<(nat, Word)>)
    requires Wf(m) && InRange(m, n)
    ensures var m' := ScheduleFade(m, n, steps);
      && m' == m.(calls := m'.calls, nextId := m'.nextId) && m.nextId <= m'.nextId
      && forall q :: ReconIds(m'.calls, q) == ReconIds(m.calls, q)
    decreases |steps|
  {
    hide Insert, Wf, ReconIds;
    if steps != [] {
      var what := Brightness(n, steps[0].1);
      assert TaskInRange(m, what) by { BrightnessInRange(m, n, steps[0].1); }
      forall q
        ensures ReconIds(ScheduleTask(m, what, steps[0].0).calls, q) == ReconIds(m.calls, q)
      {
        InsertRecon(m.calls, Call(m.nextId, m.now + steps[0].0, what), q);
      }
      FadeSame(ScheduleTask(m, what, steps[0].0), n, steps[1..]);
    }
  }

  lemma WfFocus(m: Core)
    requires Wf(m)
    ensures Wf(m.(grabbed := false, last := m.focused, focused := Master))
  {
  }

  /** Closing a channel touches one connection, takes focus and grab away only from that one, and
      schedules nothing but fades. */
  lemma DisconnectConn(m: Core, r: nat)
    requires Wf(m) && r < |m.conns|
    ensures var m', lost := Disconnect(m, r), m.focused == Remote(r);
      && m'.conns == m.conns[r := Closed(m.conns[r])]
      && m'.focused == (if lost then Master else m.focused) && m'.grabbed == (m.grabbed && !lost)
      && m'.last == (if lost then m.focused else m.last)
      && m.nextId <= m'.nextId && m'.loglevel == m.loglevel
      && forall q :: ReconIds(m'.calls, q) == ReconIds(m.calls, q)
  {
    hide ScheduleFade, Wf, ReconIds;
    var m1 := Put(m, r, Closed(m.conns[r]));
    var m2 := m1.(grabbed := false, last := m1.focused, focused := Master);
    WfFocus(m1);
    match m.cfg.hint
    case NoHint =>
    case DimInactive(_, lift) => FadeSame(m2, Master, lift.steps);
    case FlashActive(flash) => FadeSame(m2, Master, flash.steps);
  }

  /** So does a failure, which also counts, and schedules one reconnect call unless it gives up. */
  lemma FailFrame(m: Core, r: nat)
    requires Wf(m) && r < |m.conns|
    ensures var m', c := Fail(m, r), m.conns[r];
      var t, lost := m'.conns[r].timer, m.focused == Remote(r);
      var givenUp := c.failcount + 1 > m.cfg.maxTries;
      && m'.conns == m.conns[r := m'.conns[r]]
      && m'.conns[r] ==
           Closed(c).(failcount := c.failcount + 1, state := if givenUp then PermFailed else Failed, timer := t)
      && m'.focused == (if lost then Master else m.focused) && m'.grabbed == (m.grabbed && !lost)
      && m'.last == (if lost then m.focused else m.last) && m'.loglevel == m.loglevel
      && (if givenUp then t == c.timer && ReconIds(m'.calls, r) == ReconIds(m.calls, r)
          else
            && t.Some? && m.nextId <= t.value < m'.nextId
            && ReconIds(m'.calls, r) == ReconIds(m.calls, r) + {t.value})
      && m.nextId <= m'.nextId
  {
    hide Insert, Wf, Disconnect, ReconIds;
    DisconnectConn(m, r);
    var m1 := Disconnect(m, r);
    var delay := Backoff.Delay(m.conns[r].failcount + 1, m.cfg.maxInterval);
    InsertRecon(m1.calls, Call(m1.nextId, m1.now + delay, Reconnect(r)), r);
  }

  lemma FocusMasterFrame(m: Core)
    requires Wf(m) && ListOk(m.calls, m.nextId)
    ensures SameButFades(m.(grabbed := false, last := m.focused, focused := Master), FocusMaster(m))
  {
    hide Insert, ReconIds;
    var m1 := m.(grabbed := false, last := m.focused, focused := Master);
    match m.cfg.hint
    case NoHint =>
    case DimInactive(_, lift) => FadeFrame(m1, Master, lift.steps);
    case FlashActive(flash) => FadeFrame(m1, Master, flash.steps);
  }

  /** Closing a channel leaves the other remotes alone, and takes the focus from this one. */
  lemma DisconnectKeeps(m: Core, r: nat)
    requires Others(m, r) && r < |m.conns|
    ensures var m' := Disconnect(m, r);
      && Others(m', r) && m'.focused != Remote(r)
      && m'.conns == m.conns[r := Closed(m.conns[r])]
      && ReconIds(m'.calls, r) == ReconIds(m.calls, r) && OwnKept(m, m')
  {
    hide ReconIds, ListOk, Pressed, ConnOk, Wf, TimerOk, OwnTimer;
    var m1 := Put(m, r, Closed(m.conns[r]));
    forall q | 0 <= q < |m1.conns| && q != r
      ensures RemoteOk(m1, q)
    {
      assert RemoteOk(m, q);
    }
    if m.focused == Remote(r) {
      var m2 := m1.(grabbed := false, last := m1.focused, focused := Master);
      MoveFocus(m1, m2, r);
      FocusMasterFrame(m1);
      FadeKeepsOthers(m2, FocusMaster(m1), r);
    }
  }

  lemma MoveFocus(m: Core, m': Core, r: nat)
    requires Wf(m) && ListOk(m.calls, m.nextId) && m.held <= m.cfg.modifiers
    requires forall q :: 0 <= q < |m.conns| && q != r ==> RemoteOk(m, q)
    requires m.focused == Remote(r) && m' == m.(grabbed := false, last := m.focused, focused := Master)
    ensures Others(m', r)
  {
    hide ReconIds, ListOk, Pressed, ConnOk, TimerOk, OwnTimer;
    forall q | 0 <= q < |m'.conns| && q != r
      ensures RemoteOk(m', q)
    {
      assert RemoteOk(m, q);
    }
  }

  /** Replacing one connection. */
  lemma PutKeepsOthers(m: Core, r: nat, c: Conn)
    requires Others(m, r) && r < |m.conns| && (m.focused == Remote(r) ==> c.state.Connected?)
    ensures Others(Put(m, r, c), r)
    ensures RemoteOk(Put(m, r, c), r) ==> Inv(Put(m, r, c))
  {
    hide ReconIds, ListOk, Pressed, ConnOk, TimerOk, OwnTimer, Wf;
    forall q | 0 <= q < |m.conns| && q != r
      ensures RemoteOk(Put(m, r, c), q)
    {
      assert RemoteOk(m, q);
    }
  }

  lemma ReconnectScheduled(m: Core, r: nat, delay: nat)
    requires Others(m, r) && r < |m.conns| && ReconIds(m.calls, r) == {}
    ensures var m' := ScheduleTask(m, Reconnect(r), delay);
      && Others(m', r) && ReconIds(m'.calls, r) == {m.nextId}
      && m' == m.(calls := m'.calls, nextId := m.nextId + 1) && OwnKept(m, m')
      && OwnTimer(m'.calls, m'.nextId, r, Some(m.nextId))
  {
    hide ReconIds, ListOk, Pressed, ConnOk, Insert, Wf, OwnTimer;
    var m' := ScheduleTask(m, Reconnect(r), delay);
    ScheduleList(m, Reconnect(r), delay);
    var c := Call(m.nextId, m.now + delay, Reconnect(r));
    InsertRecon(m.calls, c, r);
    InsertOwn(m, c);
    forall q | 0 <= q < |m.conns| && q != r
      ensures RemoteOk(m', q)
    {
      assert RemoteOk(m, q);
      InsertRecon(m.calls, c, q);
    }
    assert IdsBelow(m.calls, m.nextId) by { ListIds(m); }
    FreshOwn(m, c, r);
  }

  lemma ListIds(m: Core)
    requires ListOk(m.calls, m.nextId)
    ensures IdsBelow(m.calls, m.nextId)
  {
  }

  lemma FreshOwn(m: Core, c: Call<Task>, r: nat)
    requires IdsBelow(m.calls, m.nextId) && c.id == m.nextId && c.what == Reconnect(r)
    ensures OwnTimer(Insert(m.calls, c), m.nextId + 1, r, Some(m.nextId))
  {
    hide Insert;
    var calls := Insert(m.calls, c);
    forall i | 0 <= i < |calls| && calls[i].id == m.nextId
      ensures calls[i].what == Reconnect(r)
    {
      assert calls[i] in calls;
    }
  }

  /** Installing a connection that is not focused and has told its remote about no modifier. */
  lemma PutOk(m: Core, r: nat, c: Conn)
    requires Others(m, r) && r < |m.conns| && m.focused != Remote(r)
    requires ConnOk(m.cfg, c) && TimerOk(m.calls, r, c) && OwnTimer(m.calls, m.nextId, r, c.timer)
    requires Pressed(c.sent, m.cfg.modifiers) == {}
    ensures Inv(Put(m, r, c))
  {
    hide Others, Inv, ConnOk, TimerOk, OwnTimer, Pressed;
    PutKeepsOthers(m, r, c);
  }

  /** A failure ends in FAILED with exactly one timer, or in PERMFAILED with none; in both cases the
      remote is out of focus. */
  lemma FailKeeps(m: Core, r: nat)
    requires Others(m, r) && r < |m.conns|
    requires ReconIds(m.calls, r) == {} && 0 <= m.conns[r].failcount <= Cap(m.cfg)
    requires OwnTimer(m.calls, m.nextId, r, m.conns[r].timer)
    ensures Inv(Fail(m, r)) && Fail(m, r).focused != Remote(r)
    ensures Fail(m, r).conns[r].failcount == m.conns[r].failcount + 1
    ensures Fail(m, r).conns[r].state == if m.conns[r].failcount + 1 > m.cfg.maxTries then PermFailed else Failed
  {
    hide ReconIds, Others, Inv, Wf, Disconnect, ScheduleTask, Pressed, Put, OwnTimer;
    FailFrame(m, r);
    var m1 := Disconnect(m, r);
    DisconnectKeeps(m, r);
    var c := m1.conns[r].(failcount := m1.conns[r].failcount + 1);
    PressedNone(m.cfg.modifiers);
    if c.failcount > m.cfg.maxTries {
      PutOk(m1, r, c.(state := PermFailed));
    } else {
      var delay := Backoff.Delay(c.failcount, m.cfg.maxInterval);
      ReconnectScheduled(m1, r, delay);
      PutOk(ScheduleTask(m1, Reconnect(r), delay), r, c.(state := Failed, timer := Some(m1.nextId)));
    }
  }

  /** The reconnect call of a failed remote is due exactly one backoff delay later. */
  lemma BackoffScheduled(m: Core, r: nat)
    requires Wf(m) && r < |m.conns| && m.conns[r].failcount + 1 <= m.cfg.maxTries
    ensures var m', c := Fail(m, r), m.conns[r];
      var due := m.now + Backoff.Delay(c.failcount + 1, m.cfg.maxInterval);
      && m'.conns[r].state.Failed? && m'.conns[r].timer.Some? && m'.conns[r].failcount == c.failcount + 1
      && Call(m'.conns[r].timer.value, due, Reconnect(r)) in m'.calls
  {
    hide Insert, Disconnect, Wf;
    DisconnectConn(m, r);
  }

  lemma PressedNone(modifiers: set<Word>)
    ensures Pressed([], modifiers) == {}
  {
  }

  // ---------------------------------------------------------------- sending

  lemma Split(m: Core, r: nat)
    requires Inv(m) && r < |m.conns|
    ensures Others(m, r) && RemoteOk(m, r)
  {
    hide ConnOk, TimerOk, Pressed, Wf, ListOk;
  }

  lemma PressedSnoc(ms: seq<Message>, msg: Message, modifiers: set<Word>)
    ensures Pressed(ms + [msg], modifiers) == PressedAfter(Pressed(ms, modifiers), msg, modifiers)
  {
    assert (ms + [msg])[..|ms|] == ms;
  }

  lemma SessionSnoc(sent: seq<Message>, msg: Message)
    requires SessionOk(sent) && ToRemote(msg)
    ensures SessionOk(sent + [msg])
  {
  }

  /** Enqueueing on an open channel: the message is queued, or the backlog fails the remote. */
  lemma EnqueueKeeps(m: Core, r: nat, msg: Message)
    requires Others(m, r) && r < |m.conns| && m.conns[r].open && ToRemote(msg)
    requires ConnOk(m.cfg, m.conns[r]) && TimerOk(m.calls, r, m.conns[r])
    requires OwnTimer(m.calls, m.nextId, r, m.conns[r].timer)
    requires PressedAfter(Pressed(m.conns[r].sent, m.cfg.modifiers), msg, m.cfg.modifiers) == Due(m, r)
    ensures Inv(Enqueue(m, r, msg))
  {
    hide Others, Inv, Wf, Fail, PressedAfter, Pressed, ReconIds;
    hide OwnTimer;
    var c := m.conns[r].(sent := m.conns[r].sent + [msg]);
    var m1 := Put(m, r, c);
    SessionSnoc(m.conns[r].sent, msg);
    PressedSnoc(m.conns[r].sent, msg, m.cfg.modifiers);
    FocusedConnected(m, r);
    PutKeepsOthers(m, r, c);
    if Room(c) < 0 {
      FailKeeps(m1, r);
    } else {
      assert RemoteOk(m1, r);
    }
  }

  lemma FocusedConnected(m: Core, r: nat)
    requires Others(m, r) && r < |m.conns|
    ensures m.focused == Remote(r) ==> m.conns[r].state.Connected?
  {
  }

  /** The same for a message that is not about a modifier key. */
  lemma SendKeeps(m: Core, r: nat, msg: Message)
    requires Inv(m) && r < |m.conns| && m.conns[r].open && ToRemote(msg)
    requires !(msg.KeyEvent? && msg.keycode in m.cfg.modifiers)
    ensures Inv(Enqueue(m, r, msg))
  {
    hide Inv, Others, Enqueue, ConnOk, TimerOk, OwnTimer, Pressed;
    Split(m, r);
    EnqueueKeeps(m, r, msg);
  }

  // ---------------------------------------------------------------- connecting

  lemma SetupKeeps(m: Core, r: nat)
    requires Others(m, r) && r < |m.conns| && m.focused != Remote(r)
    requires ReconIds(m.calls, r) == {} && 0 <= m.conns[r].failcount <= Cap(m.cfg)
    requires OwnTimer(m.calls, m.nextId, r, m.conns[r].timer)
    ensures Inv(SetupRemote(m, r)) && SetupRemote(m, r).focused == m.focused
    ensures SetupRemote(m, r).conns[r].state.SettingUp?
  {
    hide Others, Inv, Wf, Fail, Pressed, ReconIds, OwnTimer;
    var c := m.conns[r];
    var msg := Setup(PROT_VERSION, m.loglevel, c.params);
    var c2 := Closed(c).(state := SettingUp, open := true, session := c.session + 1, sent := [msg]);
    assert [] + [msg] == [msg];
    assert SetupRemote(m, r) == Put(m, r, c2) by { assert Room(c2) >= 0; }
    PressedSnoc([], msg, m.cfg.modifiers);
    PressedNone(m.cfg.modifiers);
    PutOk(m, r, c2);
  }

  lemma RemoveList(calls: seq<Call<Task>>, nextId: nat, id: nat)
    requires ListOk(calls, nextId)
    ensures ListOk(Remove(calls, id), nextId)
  {
    hide Remove;
    RemoveSorted(calls, id);
    var r := Remove(calls, id);
    forall i | 0 <= i < |r|
      ensures r[i].id < nextId
    {
      assert r[i] in r;
    }
  }

  /** Cancelling a remote's own timer, live or stale, touches no other remote's. */
  lemma CancelKeeps(m: Core, r: nat)
    requires Inv(m) && r < |m.conns| && m.conns[r].timer.Some?
    ensures var m' := CancelTask(m, m.conns[r].timer.value);
      && Others(m', r) && ReconIds(m'.calls, r) == {} && m' == m.(calls := m'.calls)
      && OwnTimer(m'.calls, m'.nextId, r, m.conns[r].timer)
  {
    hide Remove, Pressed, ConnOk, ReconIds, ListOk, Wf, OwnTimer;
    var id := m.conns[r].timer.value;
    var m' := CancelTask(m, id);
    RemoveList(m.calls, m.nextId, id);
    RemoveRecon(m.calls, id, r);
    assert RemoteOk(m, r);
    RemoveOwn(m, id);
    forall q | 0 <= q < |m.conns| && q != r
      ensures RemoteOk(m', q)
    {
      assert RemoteOk(m, q);
      RemoveRecon(m.calls, id, q);
      OwnedOnce(m, r, q);
    }
  }

  lemma OwnedOnce(m: Core, r: nat, q: nat)
    requires r < |m.conns| && m.conns[r].timer.Some? && OwnTimer(m.calls, m.nextId, r, m.conns[r].timer) && q != r
    ensures m.conns[r].timer.value !in ReconIds(m.calls, q)
  {
  }

  lemma RemoveOwn(m: Core, id: nat)
    ensures OwnKept(m, m.(calls := Remove(m.calls, id)))
  {
    hide Remove;
    var calls := Remove(m.calls, id);
    forall q: nat, x: Option<nat> | OwnTimer(m.calls, m.nextId, q, x)
      ensures OwnTimer(calls, m.nextId, q, x)
    {
      forall i | 0 <= i < |calls| && x.Some? && calls[i].id == x.value
        ensures calls[i].what == Reconnect(q)
      {
        assert calls[i] in calls;
      }
    }
  }

  // ---------------------------------------------------------------- the timer fires

  lemma PopRecon(calls: seq<Call<Task>>, r: nat)
    requires calls != [] && DistinctIds(calls)
    ensures ReconIds(calls[1..], r) ==
      if calls[0].what == Reconnect(r) then ReconIds(calls, r) - {calls[0].id} else ReconIds(calls, r)
  {
    var tail := calls[1..];
    assert calls == [calls[0]] + tail;
    forall c | c in tail
      ensures c.id != calls[0].id
    {
      var i :| 0 <= i < |tail| && tail[i] == c;
      assert calls[i + 1] == c;
    }
  }

  lemma PopList(m: Core)
    requires m.calls != [] && ListOk(m.calls, m.nextId)
    ensures ListOk(m.calls[1..], m.nextId) && OwnKept(m, m.(calls := m.calls[1..]))
  {
    forall q: nat, x: Option<nat> | OwnTimer(m.calls, m.nextId, q, x)
      ensures OwnTimer(m.calls[1..], m.nextId, q, x)
    {
    }
  }

  /** Unlinking the head affects only the remote whose reconnect call it is, if any. */
  lemma PopKeeps(m: Core, r: nat)
    requires Inv(m) && m.calls != []
    requires m.calls[0].what.Reconnect? ==> m.calls[0].what.rmt == r
    ensures Others(m.(calls := m.calls[1..]), r)
    ensures !m.calls[0].what.Reconnect? ==> Inv(m.(calls := m.calls[1..]))
  {
    hide ReconIds, Pressed, ConnOk, ListOk, OwnTimer;
    var m1 := m.(calls := m.calls[1..]);
    PopList(m);
    assert DistinctIds(m.calls) by { ListDistinct(m); }
    forall q | 0 <= q < |m.conns|
      ensures q != r || !m.calls[0].what.Reconnect? ==> RemoteOk(m1, q)
    {
      assert RemoteOk(m, q);
      PopRecon(m.calls, q);
    }
  }

  lemma ListDistinct(m: Core)
    requires ListOk(m.calls, m.nextId)
    ensures DistinctIds(m.calls)
  {
  }

  /** A reconnect call that fires finds its remote in FAILED, holding this very timer, so the attempt
      starts from a closed channel and leaves no other reconnect call behind. */
  lemma ReconnectFires(m: Core, r: nat)
    requires Inv(m) && m.calls != [] && m.calls[0].what == Reconnect(r) && r < |m.conns|
    ensures m.conns[r].state.Failed? && m.conns[r].timer == Some(m.calls[0].id)
    ensures Inv(FireHead(m)) && FireHead(m).conns[r].state.SettingUp? && FireHead(m).focused == m.focused
  {
    hide ReconIds, Pressed, ListOk, OwnTimer, Others, SetupRemote, Inv;
    Split(m, r);
    HeadPending(m, r);
    var m1 := m.(calls := m.calls[1..]);
    PopKeeps(m, r);
    assert DistinctIds(m.calls) by { InvList(m); }
    PopRecon(m.calls, r);
    NotFocused(m, r);
    var c := m1.conns[r].(timer := None);
    PutKeepsOthers(m1, r, c);
    NoTimerOwned(m1.calls, m1.nextId, r);
    SetupKeeps(Put(m1, r, c), r);
  }

  lemma NoTimerOwned(calls: seq<Call<Task>>, nextId: nat, r: nat)
    ensures OwnTimer(calls, nextId, r, None)
  {
  }

  lemma InvList(m: Core)
    requires Inv(m)
    ensures ListOk(m.calls, m.nextId) && DistinctIds(m.calls) && Sorted(m.calls)
  {
  }

  lemma NotFocused(m: Core, r: nat)
    requires Inv(m) && r < |m.conns| && !m.conns[r].state.Connected?
    ensures m.focused != Remote(r)
  {
  }

  lemma HeadPending(m: Core, r: nat)
    requires m.calls != [] && m.calls[0].what == Reconnect(r)
    ensures m.calls[0].id in ReconIds(m.calls, r)
  {
  }

  lemma FireKeeps(m: Core)
    requires Inv(m) && m.calls != []
    ensures Inv(FireHead(m))
  {
    hide Inv, Others, SetupRemote, Enqueue, Wf;
    assert TaskInRange(m, m.calls[0].what) by { WfTask(m); }
    match m.calls[0].what
    case Reconnect(r) => ReconnectFires(m, r);
    case Brightness(node, level) =>
      PopKeeps(m, 0);
      if node.Remote? && m.conns[node.id].state.Connected? {
        OpenWhenConnected(m, node.id);
        SendKeeps(m.(calls := m.calls[1..]), node.id, SetBrightness(level));
      }
  }

  lemma WfTask(m: Core)
    requires Wf(m) && m.calls != []
    ensures TaskInRange(m, m.calls[0].what)
  {
  }

  lemma OpenWhenConnected(m: Core, r: nat)
    requires Inv(m) && r < |m.conns| && m.conns[r].state.Connected?
    ensures m.conns[r].open
  {
    hide ReconIds, Pressed, ListOk, OwnTimer;
    Split(m, r);
  }

  /** One message has left the send queue. */
  lemma CountTaken(m: Core, r: nat)
    requires Inv(m) && r < |m.conns| && m.conns[r].open && m.conns[r].taken < |m.conns[r].sent|
    ensures Inv(Put(m, r, m.conns[r].(taken := m.conns[r].taken + 1)))
  {
    hide Pressed, ReconIds, OwnTimer, ListOk, SessionOk, Inv, Others;
    var c := m.conns[r].(taken := m.conns[r].taken + 1);
    Split(m, r);
    FocusedConnected(m, r);
    PutKeepsOthers(m, r, c);
    assert RemoteOk(Put(m, r, c), r);
  }

  /** One reply has been received. */
  lemma CountReceived(m: Core, r: nat)
    requires Inv(m) && r < |m.conns| && m.conns[r].open
    ensures Inv(Put(m, r, m.conns[r].(recvd := m.conns[r].recvd + 1)))
  {
    hide Pressed, ReconIds, OwnTimer, ListOk, SessionOk, Inv, Others;
    var c := m.conns[r].(recvd := m.conns[r].recvd + 1);
    Split(m, r);
    FocusedConnected(m, r);
    PutKeepsOthers(m, r, c);
    assert RemoteOk(Put(m, r, c), r);
  }

  lemma TickKeeps(m: Core, now: nat)
    requires Inv(m)
    ensures Inv(m.(now := now))
  {
    hide ConnOk, TimerOk, OwnTimer, Pressed, ListOk;
    forall q | 0 <= q < |m.conns|
      ensures RemoteOk(m.(now := now), q)
    {
      assert RemoteOk(m, q);
    }
  }

  // ---------------------------------------------------------------- hotkeys

  lemma ReconnectKeeps(m: Core, r: nat)
    requires Inv(m) && r < |m.conns|
    ensures Inv(ReconnectRemote(m, r)) && ReconnectRemote(m, r).focused == m.focused
    ensures m.conns[r].state.Connected? || ReconnectRemote(m, r).conns[r].state.SettingUp?
  {
    hide ReconIds, Pressed, ListOk, OwnTimer, Others, SetupRemote, Inv, CancelTask, Disconnect;
    var c := m.conns[r];
    if !c.state.Connected? {
      Split(m, r);
      NotFocused(m, r);
      var m1 := if c.timer.Some? then CancelTask(m, c.timer.value) else m;
      if c.timer.Some? {
        CancelKeeps(m, r);
      }
      var m2 := if c.state.SettingUp? then Disconnect(m1, r) else m1;
      if c.state.SettingUp? {
        DisconnectKeeps(m1, r);
        DisconnectUnfocused(m1, r);
      }
      var c2 := m2.conns[r].(failcount := 0);
      PutKeepsOthers(m2, r, c2);
      SetupKeeps(Put(m2, r, c2), r);
    }
  }

  lemma DisconnectUnfocused(m: Core, r: nat)
    requires Wf(m) && r < |m.conns| && m.focused != Remote(r)
    ensures Disconnect(m, r).focused == m.focused
  {
  }

  /** Halting leaves nothing to wait for; in particular a FAILED remote always has its timer. */
  lemma HaltKeeps(m: Core, r: nat)
    requires Inv(m) && r < |m.conns|
    ensures Inv(HaltRemote(m, r)) && HaltRemote(m, r).focused == m.focused
    ensures m.conns[r].state.Failed? ==> m.conns[r].timer.Some?
  {
    hide ReconIds, Pressed, ListOk, OwnTimer, Others, Inv, CancelTask, Disconnect;
    var c := m.conns[r];
    Split(m, r);
    if c.state.SettingUp? {
      NotFocused(m, r);
      DisconnectKeeps(m, r);
      DisconnectUnfocused(m, r);
      PressedNone(m.cfg.modifiers);
      var m1 := Disconnect(m, r);
      PutOk(m1, r, m1.conns[r].(state := PermFailed));
    } else if c.state.Failed? {
      NotFocused(m, r);
      CancelKeeps(m, r);
      PressedNone(m.cfg.modifiers);
      var m1 := CancelTask(m, c.timer.value);
      PutOk(m1, r, c.(state := PermFailed));
    }
  }

  // ---------------------------------------------------------------- brightness and messages

  lemma TransitionKeeps(m: Core, node: Node, fade: Fade)
    requires Inv(m) && InRange(m, node) && (node.Remote? ==> m.conns[node.id].state.Connected?)
    ensures Inv(Transition(m, node, fade))
  {
    hide Inv, Enqueue, ScheduleFade, Wf;
    var m1 := if node.Remote? then Enqueue(m, node.id, SetBrightness(fade.first)) else m;
    if node.Remote? {
      OpenWhenConnected(m, node.id);
      SendKeeps(m, node.id, SetBrightness(fade.first));
    }
    InvList(m1);
    FadeFrame(m1, node, fade.steps);
    FadeKeepsInv(m1, ScheduleFade(m1, node, fade.steps));
  }

  lemma NullIndicationKeeps(m: Core)
    requires Inv(m)
    ensures Inv(IndicateSwitch(m, m.focused, m.focused))
  {
    hide Inv, Transition, Wf;
    match m.cfg.hint
    case NoHint =>
    case DimInactive(dim, lift) => TransitionKeeps(m, m.focused, lift);
    case FlashActive(flash) => TransitionKeeps(m, m.focused, flash);
  }

  lemma BecomesReady(m: Core, r: nat)
    requires Inv(m) && r < |m.conns| && m.conns[r].state.SettingUp?
    ensures Inv(Put(m, r, m.conns[r].(state := Connected, failcount := 0)))
  {
    hide ReconIds, Pressed, ListOk, OwnTimer, Others, Inv, SessionOk;
    Split(m, r);
    NotFocused(m, r);
    PutOk(m, r, m.conns[r].(state := Connected, failcount := 0));
  }

  lemma FailLiveKeeps(m: Core, r: nat)
    requires Inv(m) && r < |m.conns| && m.conns[r].open
    ensures Inv(Fail(m, r))
  {
    hide ReconIds, Pressed, ListOk, OwnTimer, Others, Inv, Fail;
    Split(m, r);
    FailKeeps(m, r);
  }

  lemma HandleKeeps(m: Core, r: nat, msg: Message)
    requires Inv(m) && r < |m.conns| && m.conns[r].open
    ensures Inv(HandleMessage(m, r, msg))
  {
    hide Inv, Enqueue, Fail, Transition, Wf;
    match msg
    case Ready(_) =>
      if m.conns[r].state.SettingUp? {
        BecomesReady(m, r);
        var m1 := Put(m, r, m.conns[r].(state := Connected, failcount := 0));
        if m.cfg.hint.DimInactive? {
          TransitionKeeps(m1, Remote(r), m.cfg.hint.dim);
        }
      } else {
        FailLiveKeeps(m, r);
      }
    case SetClipboard(text) =>
      ClipKeeps(m, text);
      if m.focused.Remote? {
        var m1 := m.(clip := text);
        OpenWhenConnected(m1, m1.focused.id);
        SendKeeps(m1, m1.focused.id, SetClipboard(text));
      }
    case LogMsg(_) =>
    case MousePos(_) =>
    case _ => FailLiveKeeps(m, r);
  }

  lemma ClipKeeps(m: Core, text: Text)
    requires Inv(m)
    ensures Inv(m.(clip := text))
  {
    hide ConnOk, TimerOk, OwnTimer, Pressed, ListOk;
    forall q | 0 <= q < |m.conns|
      ensures RemoteOk(m.(clip := text), q)
    {
      assert RemoteOk(m, q);
    }
  }
}
