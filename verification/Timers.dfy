/** The scheduled-call list of x11.c, with callbacks that themselves schedule and cancel.  The list is
    a sequence of calls; the pointers that link it in the source are not modelled. */
module Timers {
  import opened Base

  /** `id` stands for the address of the list node; ids are never reused. */
  datatype Call<T> = Call(id: nat, time: nat, what: T)

  /** Earlier deadline first, and first come first served among equal deadlines. */
  predicate Before<T(!new)>(a: Call<T>, b: Call<T>) {
    a.time < b.time || (a.time == b.time && a.id < b.id)
  }

  predicate Sorted<T(!new)>(calls: seq<Call<T>>) {
    forall i, j :: 0 <= i < j < |calls| ==> Before(calls[i], calls[j])
  }

  predicate IdsBelow<T(!new)>(calls: seq<Call<T>>, n: nat) {
    forall i :: 0 <= i < |calls| ==> calls[i].id < n
  }

  predicate DistinctIds<T(!new)>(calls: seq<Call<T>>) {
    forall i, j :: 0 <= i < j < |calls| ==> calls[i].id != calls[j].id
  }

  ghost function Ids<T(!new)>(calls: seq<Call<T>>): set<nat> {
    set c | c in calls :: c.id
  }

  /** Where a new call with this deadline goes: in front of the first later deadline. */
  function Place<T(!new)>(calls: seq<Call<T>>, time: nat): (i: nat)
    ensures i <= |calls|
    ensures forall j :: 0 <= j < i ==> calls[j].time <= time
    ensures i < |calls| ==> time < calls[i].time
  {
    if calls == [] || time < calls[0].time then 0 else 1 + Place(calls[1..], time)
  }

  function Insert<T(!new)>(calls: seq<Call<T>>, c: Call<T>): (r: seq<Call<T>>)
    ensures forall x :: x in r <==> x == c || x in calls
    ensures c in r
  {
    var i := Place(calls, c.time);
    assert calls == calls[..i] + calls[i..];
    calls[..i] + [c] + calls[i..]
  }

  function Remove<T(!new)>(calls: seq<Call<T>>, id: nat): (r: seq<Call<T>>)
    ensures forall x :: x in r <==> x in calls && x.id != id
  {
    if calls == [] then []
    else if calls[0].id == id then Remove(calls[1..], id)
    else [calls[0]] + Remove(calls[1..], id)
  }

  /** Reading the list with a new call at position `i`. */
  lemma InsertAt<T(!new)>(calls: seq<Call<T>>, c: Call<T>, a: nat)
    requires a <= |calls|
    ensures var i, r := Place(calls, c.time), Insert(calls, c);
      && |r| == |calls| + 1
      && r[a] == if a < i then calls[a] else if a == i then c else calls[a - 1]
  {
    hide Place;
  }

  lemma InsertSorted<T(!new)>(calls: seq<Call<T>>, c: Call<T>, n: nat)
    requires Sorted(calls) && IdsBelow(calls, n) && c.id == n
    ensures Sorted(Insert(calls, c)) && IdsBelow(Insert(calls, c), n + 1)
  {
    hide Place, Insert;
    var i, r := Place(calls, c.time), Insert(calls, c);
    InsertAt(calls, c, 0);
    forall a, b | 0 <= a < b < |r|
      ensures Before(r[a], r[b])
    {
      InsertAt(calls, c, a);
      InsertAt(calls, c, b);
      if a == i {
        assert b - 1 == i || Before(calls[i], calls[b - 1]);
      }
    }
    forall a | 0 <= a < |r|
      ensures r[a].id < n + 1
    {
      InsertAt(calls, c, a);
    }
  }

  lemma InsertDistinct<T(!new)>(calls: seq<Call<T>>, c: Call<T>, n: nat)
    requires IdsBelow(calls, n) && DistinctIds(calls) && c.id == n
    ensures DistinctIds(Insert(calls, c))
  {
    hide Place, Insert;
    var r := Insert(calls, c);
    InsertAt(calls, c, 0);
    forall a, b | 0 <= a < b < |r|
      ensures r[a].id != r[b].id
    {
      InsertAt(calls, c, a);
      InsertAt(calls, c, b);
    }
  }

  lemma {:induction false} RemoveSorted<T(!new)>(calls: seq<Call<T>>, id: nat)
    requires Sorted(calls) && DistinctIds(calls)
    ensures Sorted(Remove(calls, id)) && DistinctIds(Remove(calls, id))
  {
    if calls != [] {
      RemoveSorted(calls[1..], id);
      var r := Remove(calls[1..], id);
      assert forall j :: 0 <= j < |r| ==> r[j] in calls[1..];
    }
  }

  // ---------------------------------------------------------------- whole runs

  datatype Firing<T> = Firing(call: Call<T>, at: nat)

  /** The list, the clock, and the histories of what was scheduled, fired and cancelled. */
  datatype State<T> = State(
    calls: seq<Call<T>>, nextId: nat, clock: nat, fired: seq<Firing<T>>, cancelled: set<nat>)

  function Initial<T(!new)>(now: nat): State<T> {
    State([], 0, now, [], {})
  }

  /** `Fire` is the moment when the head of the list is unlinked to be called; what its callback
      then does is a sequence of the other steps. */
  datatype Step<T> = Tick(now: nat) | Schedule(delay: nat, what: T) | Cancel(id: nat) | Fire

  predicate Enabled<T(!new)>(s: State<T>, e: Step<T>) {
    match e
    case Tick(now) => s.clock <= now
    case Schedule(_, _) => true
    case Cancel(_) => true
    case Fire => s.calls != [] && s.calls[0].time <= s.clock
  }

  ghost function FiredIds<T(!new)>(fired: seq<Firing<T>>): set<nat> {
    set f | f in fired :: f.call.id
  }

  ghost function Apply<T(!new)>(s: State<T>, e: Step<T>): State<T>
    requires Enabled(s, e)
  {
    match e
    case Tick(now) => s.(clock := now)
    case Schedule(delay, what) =>
      s.(calls := Insert(s.calls, Call(s.nextId, s.clock + delay, what)), nextId := s.nextId + 1)
    case Cancel(id) =>
      s.(calls := Remove(s.calls, id), cancelled := if id in Ids(s.calls) then s.cancelled + {id} else s.cancelled)
    case Fire => s.(calls := s.calls[1..], fired := s.fired + [Firing(s.calls[0], s.clock)])
  }

  predicate NoneEarly<T(!new)>(fired: seq<Firing<T>>, clock: nat) {
    forall i :: 0 <= i < |fired| ==> fired[i].call.time <= fired[i].at <= clock
  }

  predicate FiredInOrder<T(!new)>(fired: seq<Firing<T>>) {
    forall i, j :: 0 <= i < j < |fired| ==>
      fired[i].call.time <= fired[j].call.time && fired[i].call.id != fired[j].call.id
  }

  /** Whatever is still pending is due no earlier than anything that has fired. */
  predicate FiredBeforePending<T(!new)>(s: State<T>) {
    forall i, j :: 0 <= i < |s.fired| && 0 <= j < |s.calls| ==> s.fired[i].call.time <= s.calls[j].time
  }

  /** Each call ever scheduled is exactly one of pending, fired (once) and cancelled. */
  ghost predicate Accounted<T(!new)>(s: State<T>) {
    && Ids(s.calls) !! FiredIds(s.fired) !! s.cancelled
    && forall id: nat :: id < s.nextId <==> id in Ids(s.calls) || id in FiredIds(s.fired) || id in s.cancelled
  }

  ghost predicate Ok<T(!new)>(s: State<T>) {
    && Sorted(s.calls) && IdsBelow(s.calls, s.nextId) && DistinctIds(s.calls)
    && NoneEarly(s.fired, s.clock) && FiredInOrder(s.fired) && FiredBeforePending(s)
    && Accounted(s)
  }

  lemma InsertIds<T(!new)>(calls: seq<Call<T>>, c: Call<T>)
    ensures Ids(Insert(calls, c)) == Ids(calls) + {c.id}
  {
    hide Insert;
  }

  /** A new call is due no earlier than now, so no earlier than anything that has fired. */
  lemma InsertAfterFired<T(!new)>(s: State<T>, c: Call<T>)
    requires FiredBeforePending(s) && NoneEarly(s.fired, s.clock) && s.clock <= c.time
    ensures forall n :: FiredBeforePending(s.(calls := Insert(s.calls, c), nextId := n))
  {
    hide Insert;
    var calls := Insert(s.calls, c);
    forall i, j | 0 <= i < |s.fired| && 0 <= j < |calls|
      ensures s.fired[i].call.time <= calls[j].time
    {
      assert calls[j] in calls;
    }
  }

  lemma ScheduleOk<T(!new)>(s: State<T>, delay: nat, what: T)
    requires Ok(s)
    ensures Ok(Apply(s, Schedule(delay, what)))
  {
    hide Insert, Ids, FiredIds, Sorted, IdsBelow, DistinctIds, NoneEarly, FiredInOrder, FiredBeforePending;
    var c := Call(s.nextId, s.clock + delay, what);
    InsertSorted(s.calls, c, s.nextId);
    InsertDistinct(s.calls, c, s.nextId);
    InsertIds(s.calls, c);
    InsertAfterFired(s, c);
    assert Accounted(Apply(s, Schedule(delay, what)));
  }

  lemma CancelOk<T(!new)>(s: State<T>, id: nat)
    requires Ok(s)
    ensures Ok(Apply(s, Cancel(id)))
  {
    var t := Apply(s, Cancel(id));
    RemoveSorted(s.calls, id);
    assert Ids(t.calls) == Ids(s.calls) - {id};
    forall j | 0 <= j < |t.calls|
      ensures t.calls[j] in s.calls
    {
      assert t.calls[j] in t.calls;
    }
  }

  lemma FireOk<T(!new)>(s: State<T>)
    requires Ok(s) && Enabled(s, Fire)
    ensures Ok(Apply(s, Fire))
  {
    var t := Apply(s, Fire);
    var c := s.calls[0];
    FireIds(s);
    forall i | 0 <= i < |s.fired|
      ensures s.fired[i].call.id != c.id && s.fired[i].call.time <= c.time
    {
      assert s.fired[i] in s.fired && s.fired[i].call.id in FiredIds(s.fired);
      assert c.id in Ids(s.calls);
    }
    forall j | 0 <= j < |t.calls|
      ensures c.time <= t.calls[j].time
    {
      assert Before(s.calls[0], s.calls[j + 1]);
    }
  }

  lemma FireIds<T(!new)>(s: State<T>)
    requires DistinctIds(s.calls) && Enabled(s, Fire)
    ensures Ids(Apply(s, Fire).calls) == Ids(s.calls) - {s.calls[0].id}
    ensures FiredIds(Apply(s, Fire).fired) == FiredIds(s.fired) + {s.calls[0].id}
  {
    var t := Apply(s, Fire);
    assert s.calls == [s.calls[0]] + t.calls;
    forall x | x in t.calls
      ensures x.id != s.calls[0].id && x in s.calls
    {
      var j :| 0 <= j < |t.calls| && t.calls[j] == x;
      assert s.calls[j + 1] == x;
    }
  }

  lemma StepOk<T(!new)>(s: State<T>, e: Step<T>)
    requires Ok(s) && Enabled(s, e)
    ensures Ok(Apply(s, e))
  {
    match e
    case Tick(_) =>
    case Schedule(delay, what) => ScheduleOk(s, delay, what);
    case Cancel(id) => CancelOk(s, id);
    case Fire => FireOk(s);
  }

  /** `t` follows from `s` by these steps. */
  ghost predicate Reaches<T(!new)>(s: State<T>, steps: seq<Step<T>>, t: State<T>)
    decreases |steps|
  {
    if steps == [] then s == t
    else
      var n := |steps| - 1;
      exists u :: Reaches(s, steps[..n], u) && Enabled(u, steps[n]) && t == Apply(u, steps[n])
  }

  /** Over whole runs, whatever callbacks schedule and cancel: the list stays sorted with ties in
      scheduling order, every call is exactly one of pending, fired once and cancelled, none fires
      early, and deadlines fire in order. */
  lemma {:induction false} AlwaysOk<T(!new)>(s: State<T>, steps: seq<Step<T>>, t: State<T>)
    requires Ok(s) && Reaches(s, steps, t)
    ensures Ok(t)
    decreases |steps|
  {
    if steps != [] {
      var n := |steps| - 1;
      var u :| Reaches(s, steps[..n], u) && Enabled(u, steps[n]) && t == Apply(u, steps[n]);
      AlwaysOk(s, steps[..n], u);
      StepOk(u, steps[n]);
    }
  }

  // ---------------------------------------------------------------- running what is due

  /** What a callback can do: read the clock, schedule and cancel. */
  predicate Legal<T(!new)>(s: State<T>, a: Step<T>) {
    !a.Fire? && Enabled(s, a)
  }

  /** One callback, act by act. */
  ghost function Acted<T(!new)>(s: State<T>, acts: seq<Step<T>>): State<T>
    decreases |acts|
  {
    if acts == [] then s else Acted(if Legal(s, acts[0]) then Apply(s, acts[0]) else s, acts[1..])
  }

  /** Everything due at `when` is called in turn; `script[n]` is what the n-th callback does. */
  ghost function RunDue<T(!new)>(s: State<T>, when: nat, script: seq<seq<Step<T>>>): State<T>
    decreases |script|, |s.calls|
  {
    if s.calls == [] || s.calls[0].time > when || !Enabled(s, Fire) then s
    else if script == [] then RunDue(Apply(s, Fire), when, [])
    else RunDue(Acted(Apply(s, Fire), script[0]), when, script[1..])
  }

  /** What a run from `s` to `t` cannot undo: the clock goes on, what has fired stays fired, only
      fresh ids are handed out. */
  ghost predicate Onward<T(!new)>(s: State<T>, t: State<T>) {
    s.clock <= t.clock && s.nextId <= t.nextId && s.fired <= t.fired && s.cancelled <= t.cancelled
  }

  /** Where a call pending in `s` is found in `t`: still pending, fired since, or cancelled. */
  ghost predicate Whereabouts<T(!new)>(s: State<T>, t: State<T>, c: Call<T>) {
    c in t.calls || FiredSince(s, t, c) || c.id in t.cancelled
  }

  ghost predicate FiredSince<T(!new)>(s: State<T>, t: State<T>, c: Call<T>) {
    exists i :: |s.fired| <= i < |t.fired| && t.fired[i].call == c
  }

  lemma OnwardTrans<T(!new)>(s: State<T>, t: State<T>, u: State<T>)
    requires Onward(s, t) && Onward(t, u)
    ensures Onward(s, u)
    ensures forall c :: Whereabouts(s, t, c) && (c in t.calls ==> Whereabouts(t, u, c)) ==> Whereabouts(s, u, c)
  {
    forall c | Whereabouts(s, t, c) && (c in t.calls ==> Whereabouts(t, u, c))
      ensures Whereabouts(s, u, c)
    {
      if FiredSince(s, t, c) {
        var i :| |s.fired| <= i < |t.fired| && t.fired[i].call == c;
        assert u.fired[i].call == c;
      } else if c in t.calls && FiredSince(t, u, c) {
        var i :| |t.fired| <= i < |u.fired| && u.fired[i].call == c;
        assert u.fired[i].call == c;
      }
    }
  }

  /** One step, and whom it can cancel. */
  lemma StepOnward<T(!new)>(s: State<T>, e: Step<T>)
    requires Enabled(s, e)
    ensures Onward(s, Apply(s, e)) && forall c :: c in s.calls ==> Whereabouts(s, Apply(s, e), c)
    ensures forall id :: id in Apply(s, e).cancelled && id !in s.cancelled ==> e == Cancel(id)
  {
    var t := Apply(s, e);
    match e
    case Tick(_) =>
    case Schedule(_, _) =>
    case Cancel(_) =>
    case Fire =>
      assert t.fired[|s.fired|].call == s.calls[0];
      assert s.calls == [s.calls[0]] + t.calls;
  }

  lemma {:induction false} ActedOnward<T(!new)>(s: State<T>, acts: seq<Step<T>>)
    requires Ok(s)
    ensures Ok(Acted(s, acts)) && Onward(s, Acted(s, acts)) && Acted(s, acts).fired == s.fired
    ensures forall c :: c in s.calls ==> Whereabouts(s, Acted(s, acts), c)
    ensures forall id :: id in Acted(s, acts).cancelled && id !in s.cancelled ==> Cancel(id) in acts
    decreases |acts|
  {
    hide Ok, Insert, Remove, Whereabouts, Onward;
    if acts == [] {
      StaysPut(s);
    } else {
      var t := if Legal(s, acts[0]) then Apply(s, acts[0]) else s;
      if Legal(s, acts[0]) {
        StepOk(s, acts[0]);
        StepOnward(s, acts[0]);
      } else {
        StaysPut(s);
      }
      ActedOnward(t, acts[1..]);
      OnwardTrans(s, t, Acted(s, acts));
    }
  }

  lemma StaysPut<T(!new)>(s: State<T>)
    ensures Onward(s, s) && forall c :: c in s.calls ==> Whereabouts(s, s, c)
  {
  }

  /** Some callback in the script cancels this call. */
  ghost predicate CancelledBy<T(!new)>(script: seq<seq<Step<T>>>, id: nat) {
    exists n :: 0 <= n < |script| && Cancel(id) in script[n]
  }

  lemma CancelledLater<T(!new)>(script: seq<seq<Step<T>>>, id: nat)
    requires script != []
    ensures Cancel(id) in script[0] || CancelledBy(script[1..], id) ==> CancelledBy(script, id)
  {
    if CancelledBy(script[1..], id) {
      var n :| 0 <= n < |script[1..]| && Cancel(id) in script[1..][n];
      assert Cancel(id) in script[n + 1];
    }
  }

  /** Running what is due: nothing due is left, only what is due has been called, each call pending
      before is pending, called or cancelled, and cancelled only by a callback. */
  lemma {:induction false} RunDueOnward<T(!new)>(s: State<T>, when: nat, script: seq<seq<Step<T>>>)
    requires Ok(s) && when <= s.clock
    ensures var t := RunDue(s, when, script);
      && Ok(t) && Onward(s, t) && (t.calls != [] ==> t.calls[0].time > when)
      && (forall c :: c in s.calls ==> Whereabouts(s, t, c))
      && (forall i :: |s.fired| <= i < |t.fired| ==> t.fired[i].call.time <= when)
      && (forall id :: id in t.cancelled && id !in s.cancelled ==> CancelledBy(script, id))
    decreases |script|, |s.calls|
  {
    hide Ok, Acted, Whereabouts, CancelledBy;
    if s.calls == [] || s.calls[0].time > when {
      StaysPut(s);
    } else {
      var u := Apply(s, Fire);
      FireOk(s);
      StepOnward(s, Fire);
      var t := RunDue(s, when, script);
      if script == [] {
        RunDueOnward(u, when, []);
        OnwardTrans(s, u, t);
      } else {
        var v := Acted(u, script[0]);
        ActedOnward(u, script[0]);
        RunDueOnward(v, when, script[1..]);
        OnwardTrans(s, u, v);
        OnwardTrans(s, v, t);
        forall id
          ensures Cancel(id) in script[0] || CancelledBy(script[1..], id) ==> CancelledBy(script, id)
        {
          CancelledLater(script, id);
        }
      }
    }
  }

  /** Every call due is called, with its own callback, unless a callback cancels it first; and no
      call is called that is not due. */
  lemma DueAreCalled<T(!new)>(s: State<T>, when: nat, script: seq<seq<Step<T>>>)
    requires Ok(s) && when <= s.clock
    ensures var t := RunDue(s, when, script);
      && Ok(t) && Onward(s, t) && (t.calls != [] ==> t.calls[0].time > when)
      && (forall c :: c in s.calls && c.time <= when ==>
            FiredSince(s, t, c) || (c.id in t.cancelled && CancelledBy(script, c.id)))
      && (forall c :: c in s.calls && c.time > when ==> c in t.calls || CancelledBy(script, c.id))
      && (forall i :: |s.fired| <= i < |t.fired| ==> t.fired[i].call.time <= when)
  {
    hide RunDue, Onward, FiredSince, CancelledBy;
    RunDueOnward(s, when, script);
    var t := RunDue(s, when, script);
    forall c | c in t.calls
      ensures c.time > when
    {
      var i :| 0 <= i < |t.calls| && t.calls[i] == c;
      assert i == 0 || Before(t.calls[0], t.calls[i]);
    }
    forall c | c in s.calls
      ensures c.id !in s.cancelled
      ensures c.time > when ==> !FiredSince(s, t, c)
    {
      assert c.id in Ids(s.calls);
      FiredMeansDue(s, t, c);
    }
  }

  lemma FiredMeansDue<T(!new)>(s: State<T>, t: State<T>, c: Call<T>)
    ensures FiredSince(s, t, c) ==> exists i :: |s.fired| <= i < |t.fired| && t.fired[i].call.time == c.time
  {
  }

  // ---------------------------------------------------------------- what the callbacks did

  /** One callback: the call it belongs to, what it does, and the clock, the next id and the pending
      ids as it found them. */
  datatype Ran<T> = Ran(call: Call<T>, acts: seq<Step<T>>, at: nat, nextId: nat, pending: set<nat>)

  /** The clock after some acts: a reading never goes back. */
  function ClockAfter<T(!new)>(clock: nat, acts: seq<Step<T>>): nat
    decreases |acts|
  {
    if acts == [] then clock
    else ClockAfter(if acts[0].Tick? && clock <= acts[0].now then acts[0].now else clock, acts[1..])
  }

  /** The calls that acts schedule: one for each, with its own id, what it asks for, and the deadline
      that far from the clock of that moment. */
  function Made<T(!new)>(clock: nat, nextId: nat, acts: seq<Step<T>>): seq<Call<T>>
    decreases |acts|
  {
    if acts == [] then []
    else if acts[0].Schedule? then
      [Call(nextId, clock + acts[0].delay, acts[0].what)] + Made(clock, nextId + 1, acts[1..])
    else Made(ClockAfter(clock, acts[..1]), nextId, acts[1..])
  }

  /** Calls a callback can cancel at its act `j`: those pending when it began, and its own so far. */
  ghost function Reach<T(!new)>(r: Ran<T>, j: nat): set<nat>
    requires j <= |r.acts|
  {
    r.pending + Ids(Made(r.at, r.nextId, r.acts[..j]))
  }

  /** Everything that a callback scheduled is accounted for, and everything in its reach that it
      cancelled is cancelled. */
  ghost predicate Effected<T(!new)>(s: State<T>, t: State<T>, r: Ran<T>) {
    && (forall c :: c in Made(r.at, r.nextId, r.acts) ==> Whereabouts(s, t, c))
    && (forall j :: 0 <= j < |r.acts| && r.acts[j].Cancel? && r.acts[j].id in Reach(r, j) ==>
          r.acts[j].id in t.cancelled)
  }

  /** What the n-th callback of a run does. */
  function ActsOf<T(!new)>(script: seq<seq<Step<T>>>, n: nat): seq<Step<T>> {
    if n < |script| then script[n] else []
  }

  /** From `s` to `t` exactly these callbacks ran: one for each call that fired, in that order, each
      doing its part of the script; ids and clock went on from one to the next by what they did and by
      nothing else; and no call is pending but what was before or what they scheduled. */
  ghost predicate Carried<T(!new)>(s: State<T>, t: State<T>, script: seq<seq<Step<T>>>, runs: seq<Ran<T>>) {
    && |t.fired| == |s.fired| + |runs|
    && (forall n :: 0 <= n < |runs| ==>
          && Firing(runs[n].call, runs[n].at) == t.fired[|s.fired| + n]
          && runs[n].acts == ActsOf(script, n))
    && (forall n :: 0 <= n < |runs| ==> Effected(s, t, runs[n]))
    && (forall n :: 0 <= n <= |runs| ==> Continues(s, t, runs, n))
    && (forall c :: c in t.calls ==> c in s.calls || MadeBySome(runs, c))
  }

  ghost predicate Continues<T(!new)>(s: State<T>, t: State<T>, runs: seq<Ran<T>>, n: nat)
    requires n <= |runs|
  {
    var (at, nextId) := if n < |runs| then (runs[n].at, runs[n].nextId) else (t.clock, t.nextId);
    if n == 0 then at == s.clock && nextId == s.nextId
    else
      var r := runs[n - 1];
      at == ClockAfter(r.at, r.acts) && nextId == r.nextId + |Made(r.at, r.nextId, r.acts)|
  }

  ghost predicate MadeBySome<T(!new)>(runs: seq<Ran<T>>, c: Call<T>) {
    exists n :: 0 <= n < |runs| && c in Made(runs[n].at, runs[n].nextId, runs[n].acts)
  }

  /** The acts of one callback do what they say. */
  lemma {:induction false} ActedMakes<T(!new)>(s: State<T>, acts: seq<Step<T>>)
    requires Ok(s)
    ensures var t, made := Acted(s, acts), Made(s.clock, s.nextId, acts);
      && t.clock == ClockAfter(s.clock, acts) && t.nextId == s.nextId + |made| && t.fired == s.fired
      && (forall c :: c in made ==> c in t.calls || c.id in t.cancelled)
      && (forall c :: c in t.calls ==> c in s.calls || c in made)
    decreases |acts|
  {
    hide Ok, Insert, Remove;
    if acts != [] {
      var a := acts[0];
      var u := if Legal(s, a) then Apply(s, a) else s;
      ActedOnward(s, acts[..1]);
      OneAct(s, a);
      ActedMakes(u, acts[1..]);
      ActedOnward(u, acts[1..]);
      assert [a][1..] == [] && acts[..1] == [a];
      FiredNone(u, Acted(u, acts[1..]));
    }
  }

  lemma OneAct<T(!new)>(s: State<T>, a: Step<T>)
    requires Ok(s)
    ensures var u := if Legal(s, a) then Apply(s, a) else s;
      Acted(s, [a]) == u && Ok(u) && ClockAfter(s.clock, [a]) == u.clock
  {
    hide Ok, Insert, Remove;
    assert [a][1..] == [];
    if Legal(s, a) {
      StepOk(s, a);
    }
  }

  lemma FiredNone<T(!new)>(s: State<T>, t: State<T>)
    requires t.fired == s.fired
    ensures forall c :: !FiredSince(s, t, c)
  {
  }

  lemma {:induction false} ActedSplit<T(!new)>(s: State<T>, acts: seq<Step<T>>, j: nat)
    requires j <= |acts|
    ensures Acted(s, acts) == Acted(Acted(s, acts[..j]), acts[j..])
    decreases j
  {
    hide Insert, Remove;
    if j > 0 {
      assert acts[..j][1..] == acts[1..][..j - 1] && acts[j..] == acts[1..][j - 1..];
      ActedSplit(if Legal(s, acts[0]) then Apply(s, acts[0]) else s, acts[1..], j - 1);
    }
  }

  /** An act that cancels a call in its reach has cancelled it in the end. */
  lemma ActedCancels<T(!new)>(s: State<T>, acts: seq<Step<T>>, j: nat)
    requires Ok(s) && j < |acts| && acts[j].Cancel?
    requires acts[j].id in Ids(s.calls) + Ids(Made(s.clock, s.nextId, acts[..j]))
    ensures acts[j].id in Acted(s, acts).cancelled
  {
    hide Ok, Insert, Remove, Acted, Made;
    var u := Acted(s, acts[..j]);
    var id := acts[j].id;
    ActedOnward(s, acts[..j]);
    ActedMakes(s, acts[..j]);
    FiredNone(s, u);
    assert id in Ids(u.calls) || id in u.cancelled;
    var v := Apply(u, acts[j]);
    assert id in v.cancelled;
    assert Acted(u, acts[j..]) == Acted(v, acts[j..][1..]) by { ActedFirst(u, acts[j..]); }
    StepOk(u, acts[j]);
    ActedOnward(v, acts[j..][1..]);
    ActedSplit(s, acts, j);
  }

  lemma ActedFirst<T(!new)>(s: State<T>, acts: seq<Step<T>>)
    requires acts != []
    ensures Acted(s, acts) == Acted(if Legal(s, acts[0]) then Apply(s, acts[0]) else s, acts[1..])
  {
    hide Insert, Remove;
  }

  lemma NothingCarried<T(!new)>(s: State<T>, script: seq<seq<Step<T>>>)
    ensures Carried(s, s, script, []) && Onward(s, s)
  {
  }

  /** What a callback did is not undone by the next one. */
  lemma EffectLasts<T(!new)>(s: State<T>, u: State<T>, v: State<T>, r: Ran<T>)
    requires Effected(s, u, r) && Onward(s, u) && Onward(u, v)
    requires forall c :: c in u.calls ==> Whereabouts(u, v, c)
    ensures Effected(s, v, r)
  {
    hide Made, Whereabouts, Reach;
    OnwardTrans(s, u, v);
  }

  /** The head fires, and its callback does its part. */
  lemma CarriedNext<T(!new)>(
      s: State<T>, u: State<T>, v: State<T>, script: seq<seq<Step<T>>>, runs: seq<Ran<T>>, r: Ran<T>)
    requires Ok(u) && Enabled(u, Fire) && Onward(s, u) && Carried(s, u, script, runs)
    requires var w := Apply(u, Fire);
      && r == Ran(u.calls[0], ActsOf(script, |runs|), w.clock, w.nextId, Ids(w.calls))
      && v == Acted(w, r.acts)
    ensures Carried(s, v, script, runs + [r]) && Onward(s, v) && Ok(v)
  {
    hide Ok, Acted, Made, ClockAfter, Effected, MadeBySome, Whereabouts, ActsOf;
    var w, all := Apply(u, Fire), runs + [r];
    FireOk(u);
    StepOnward(u, Fire);
    ActedOnward(w, r.acts);
    ActedMakes(w, r.acts);
    OnwardTrans(u, w, v);
    OnwardTrans(s, u, v);
    forall n | 0 <= n < |runs|
      ensures Effected(s, v, all[n])
    {
      EffectLasts(s, u, v, runs[n]);
    }
    LastEffected(s, w, v, r);
    forall n | 0 <= n <= |all|
      ensures Continues(s, v, all, n)
    {
      assert n <= |runs| ==> Continues(s, u, runs, n);
    }
    forall c | c in v.calls
      ensures c in s.calls || MadeBySome(all, c)
    {
      MadeBefore(runs, r, c);
      assert c in w.calls ==> c in u.calls;
    }
  }

  lemma LastEffected<T(!new)>(s: State<T>, w: State<T>, v: State<T>, r: Ran<T>)
    requires Ok(w) && v == Acted(w, r.acts)
    requires r.at == w.clock && r.nextId == w.nextId && r.pending == Ids(w.calls)
    ensures Effected(s, v, r)
  {
    hide Ok, Acted, Made;
    ActedMakes(w, r.acts);
    forall j | 0 <= j < |r.acts| && r.acts[j].Cancel? && r.acts[j].id in Reach(r, j)
      ensures r.acts[j].id in v.cancelled
    {
      ActedCancels(w, r.acts, j);
    }
  }

  lemma MadeBefore<T(!new)>(runs: seq<Ran<T>>, r: Ran<T>, c: Call<T>)
    ensures MadeBySome(runs, c) || c in Made(r.at, r.nextId, r.acts) ==> MadeBySome(runs + [r], c)
  {
    hide Made;
    var all := runs + [r];
    if MadeBySome(runs, c) {
      var n :| 0 <= n < |runs| && c in Made(runs[n].at, runs[n].nextId, runs[n].acts);
      assert all[n] == runs[n];
    } else {
      assert all[|runs|] == r;
    }
  }

  // ---------------------------------------------------------------- the list in place

  datatype Wait = Forever | Timeout(sec: nat, usec: nat)

  class TimerQueue<T(!new)> {
    var calls: seq<Call<T>>
    var nextId: nat
    var clock: nat
    ghost var fired: seq<Firing<T>>
    ghost var cancelled: set<nat>
    ghost var log: seq<Ran<T>>

    ghost function View(): State<T>
      reads this
    {
      State(calls, nextId, clock, fired, cancelled)
    }

    constructor (now: nat)
      ensures View() == Initial(now) && Ok(View())
    {
      calls, nextId, clock := [], 0, now;
      fired, cancelled, log := [], {}, [];
    }

    /** Walks to the first later deadline and puts the new call in front of it. */
    method ScheduleCall(delay: nat, what: T) returns (id: nat)
      requires Ok(View())
      modifies this
      ensures Ok(View()) && View() == Apply(old(View()), Schedule(delay, what)) && id == old(nextId)
      ensures forall c :: c in calls <==> c in old(calls) || c == Call(id, clock + delay, what)
      ensures |calls| == |old(calls)| + 1 && log == old(log)
    {
      hide Ok, Place;
      ScheduleOk(View(), delay, what);
      var c := Call(nextId, clock + delay, what);
      var i := 0;
      while i < |calls| && calls[i].time <= c.time
        invariant i <= |calls| && i <= Place(calls, c.time)
      {
        i := i + 1;
      }
      calls := calls[..i] + [c] + calls[i..];
      id := nextId;
      nextId := nextId + 1;
    }

    /** Takes the call off the list if it is still pending; false, and no effect, if it is not. */
    method CancelCall(id: nat) returns (found: bool)
      requires Ok(View())
      modifies this
      ensures Ok(View()) && View() == Apply(old(View()), Cancel(id)) && found == (id in Ids(old(calls)))
      ensures forall c :: c in calls <==> c in old(calls) && c.id != id
      ensures log == old(log)
    {
      CancelOk(View(), id);
      var i := 0;
      while i < |calls|
        invariant i <= |calls| && unchanged(this)
        invariant forall j :: 0 <= j < i ==> calls[j].id != id
      {
        if calls[i].id == id {
          RemoveAt(calls, i);
          assert calls[i] in calls;
          calls := calls[..i] + calls[i + 1..];
          cancelled := cancelled + {id};
          return true;
        }
        i := i + 1;
      }
      RemoveAbsent(calls, id);
      found := false;
    }

    /** Unlinks the head, which is about to be called. */
    method PopHead() returns (c: Call<T>)
      requires Ok(View()) && calls != [] && calls[0].time <= clock
      modifies this
      ensures Ok(View()) && View() == Apply(old(View()), Fire) && c == old(calls)[0] && log == old(log)
      ensures calls == old(calls)[1..] && clock == old(clock)
    {
      FireOk(View());
      c := calls[0];
      fired := fired + [Firing(c, clock)];
      calls := calls[1..];
    }

    /** Unlinks every call whose deadline has come, in order, running its callback: `script[n]` is
        what the n-th callback does.  Each call that was due has been called, unless a callback
        cancelled it, nothing due is left, and each callback has done what it does. */
    method RunScheduledCalls(when: nat, script: seq<seq<Step<T>>>) returns (ghost runs: seq<Ran<T>>)
      requires Ok(View()) && when <= clock
      modifies this
      ensures Ok(View()) && View() == RunDue(old(View()), when, script)
      ensures log == old(log) + runs && Carried(old(View()), View(), script, runs)
      ensures forall c :: c in old(calls) && c.time <= when ==>
        FiredSince(old(View()), View(), c) || (c.id in cancelled && CancelledBy(script, c.id))
      ensures calls != [] ==> calls[0].time > when
      ensures clock >= old(clock)
    {
      hide Ok, Acted, Carried, Apply;
      DueAreCalled(View(), when, script);
      NothingCarried(View(), script);
      runs := [];
      var n := 0;
      while calls != [] && calls[0].time <= when
        invariant Ok(View()) && when <= clock && n == |runs|
        invariant log == old(log) + runs && Carried(old(View()), View(), script, runs) && Onward(old(View()), View())
        invariant RunDue(View(), when, script[if n < |script| then n else |script|..]) ==
          RunDue(old(View()), when, script)
        decreases if n < |script| then |script| - n else 0, |calls|
      {
        RunDueNext(View(), when, script, n);
        ghost var before := View();
        var c := PopHead();
        ghost var r := Ran(c, ActsOf(script, n), clock, nextId, Ids(calls));
        RunCallback(c, if n < |script| then script[n] else []);
        CarriedNext(old(View()), before, View(), script, runs, r);
        runs := runs + [r];
        n := n + 1;
      }
    }

    /** One callback: it may read the clock, schedule and cancel. */
    method RunCallback(c: Call<T>, acts: seq<Step<T>>)
      requires Ok(View())
      modifies this
      ensures Ok(View()) && View() == Acted(old(View()), acts) && clock >= old(clock)
      ensures log == old(log) + [Ran(c, acts, old(clock), old(nextId), Ids(old(calls)))]
      ensures acts == [] ==> calls == old(calls)
    {
      hide Ok, Insert, Remove;
      log := log + [Ran(c, acts, clock, nextId, Ids(calls))];
      for i := 0 to |acts|
        invariant Ok(View()) && clock >= old(clock)
        invariant Acted(View(), acts[i..]) == Acted(old(View()), acts)
        invariant log == old(log) + [Ran(c, acts, old(clock), old(nextId), Ids(old(calls)))]
        invariant i == 0 ==> calls == old(calls)
      {
        var a := acts[i];
        assert acts[i..][1..] == acts[i + 1..];
        if !a.Fire? && (a.Tick? ==> clock <= a.now) {
          StepOk(View(), a);
          match a {
            case Tick(now) => clock := now;
            case Schedule(delay, what) => var id := ScheduleCall(delay, what);
            case Cancel(id) => var found := CancelCall(id);
          }
        }
      }
    }

    /** The select timeout, in the 64-bit arithmetic of the source. */
    method GetSelectTimeout(now: nat) returns (w: Wait)
      ensures w.Forever? <==> calls == []
      ensures calls != [] ==> w.usec < 1_000_000
      ensures calls != [] && now <= calls[0].time < WRAP ==> now + w.sec * 1_000_000 + w.usec == calls[0].time
    {
      if calls == [] {
        return Forever;
      }
      var wait := (calls[0].time - now) % WRAP;
      w := Timeout(wait / 1_000_000, wait % 1_000_000);
    }

    /** The timer half of one turn of the event loop: everything due is called, and the wait that
        follows ends exactly at the next deadline; as long as deadlines fit in 64 bits,
        the subtraction does not wrap. */
    method Turn(script: seq<seq<Step<T>>>) returns (w: Wait, ghost runs: seq<Ran<T>>)
      requires Ok(View())
      modifies this
      ensures Ok(View()) && View() == RunDue(old(View()), old(clock), script)
      ensures log == old(log) + runs && Carried(old(View()), View(), script, runs)
      ensures forall c :: c in old(calls) && c.time <= old(clock) ==>
        FiredSince(old(View()), View(), c) || (c.id in cancelled && CancelledBy(script, c.id))
      ensures w.Forever? <==> calls == []
      ensures calls != [] ==> calls[0].time > old(clock) && w.usec < 1_000_000
      ensures calls != [] && calls[0].time < WRAP ==> old(clock) + w.sec * 1_000_000 + w.usec == calls[0].time
    {
      var now := clock;
      runs := RunScheduledCalls(now, script);
      w := GetSelectTimeout(now);
    }
  }

  /** One turn of the timer loop. */
  lemma RunDueNext<T(!new)>(s: State<T>, when: nat, script: seq<seq<Step<T>>>, n: nat)
    requires when <= s.clock && s.calls != [] && s.calls[0].time <= when
    ensures var rest := script[if n < |script| then n else |script|..];
      var next := script[if n + 1 < |script| then n + 1 else |script|..];
      RunDue(s, when, rest) == RunDue(Acted(Apply(s, Fire), ActsOf(script, n)), when, next)
  {
    if n < |script| {
      assert script[n..][1..] == script[n + 1..];
    } else {
      assert script[|script|..] == [];
    }
  }

  lemma {:induction false} RemoveAbsent<T(!new)>(calls: seq<Call<T>>, id: nat)
    requires forall j :: 0 <= j < |calls| ==> calls[j].id != id
    ensures Remove(calls, id) == calls
  {
    if calls != [] {
      RemoveAbsent(calls[1..], id);
    }
  }

  lemma {:induction false} RemoveAt<T(!new)>(calls: seq<Call<T>>, i: nat)
    requires i < |calls| && DistinctIds(calls)
    ensures Remove(calls, calls[i].id) == calls[..i] + calls[i + 1..]
  {
    if i == 0 {
      RemoveAbsent(calls[1..], calls[0].id);
    } else {
      RemoveAt(calls[1..], i - 1);
    }
  }
}
