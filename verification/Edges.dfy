/** Screen-edge events and the multi-tap gesture of main.c. */
module Edges {
  import opened Base

  const HISTLEN: nat := 8

  /** The pointer arrived at an edge, or left it. */
  datatype EdgeEvent = EdgeEvent(arrive: bool, at: nat)

  /** Strict alternation, beginning with an arrival. */
  predicate Alternates(h: seq<EdgeEvent>) {
    forall i :: 0 <= i < |h| ==> (h[i].arrive <==> i % 2 == 0)
  }

  /** The time of the event `k` before the last, or zero where the history does not reach. */
  function Back(h: seq<EdgeEvent>, k: nat): nat {
    if k < |h| then h[|h| - 1 - k].at else 0
  }

  /** The arrival times, oldest first. */
  function Arrivals(h: seq<EdgeEvent>): seq<nat> {
    if h == [] then []
    else
      var n := |h| - 1;
      Arrivals(h[..n]) + if h[n].arrive then [h[n].at] else []
  }

  /** In an alternating history that ends with an arrival, every second event counting back is an
      arrival, and all arrivals are met that way. */
  lemma {:induction false} BackToArrivals(h: seq<EdgeEvent>, n: nat)
    requires Alternates(h) && |h| % 2 == 1 && n >= 1
    ensures |Arrivals(h)| == (|h| + 1) / 2
    ensures n <= |Arrivals(h)| ==> Back(h, 2 * (n - 1)) == Arrivals(h)[|Arrivals(h)| - n]
    ensures n > |Arrivals(h)| ==> Back(h, 2 * (n - 1)) == 0
    decreases |h|
  {
    var k := |h| - 1;
    if k == 0 {
      assert h[..0] == [];
    } else {
      var g := h[..k][..k - 1];
      assert Arrivals(h[..k]) == Arrivals(g);
      assert Arrivals(h) == Arrivals(g) + [h[k].at];
      if n == 1 {
        BackToArrivals(g, 1);
      } else {
        BackToArrivals(g, n - 1);
      }
    }
  }

  /** A gesture of `n` taps is complete at an arrival: the n-th most recent arrival lies within the
      window. */
  predicate Tapped(h: seq<EdgeEvent>, n: nat, window: nat, now: nat)
    requires n >= 1
  {
    var a := Arrivals(h);
    if n <= |a| then now - a[|a| - n] <= window else now <= window
  }

  /** What the gesture is meant to be: that many arrivals, the first of them within the window. */
  predicate Intended(h: seq<EdgeEvent>, n: nat, window: nat, now: nat)
    requires n >= 1
  {
    var a := Arrivals(h);
    n <= |a| && now - a[|a| - n] <= window
  }

  /** The decision is the intended one exactly if that many arrivals have been seen or the clock,
      which counts from some epoch, already shows more than the window. */
  lemma IntendedExactly(h: seq<EdgeEvent>, n: nat, window: nat, now: nat)
    requires n >= 1
    ensures (Tapped(h, n, window, now) <==> Intended(h, n, window, now)) <==> n <= |Arrivals(h)| || now > window
  {
    hide Arrivals;
  }

  /** For example, a first arrival early on passes for a double tap. */
  lemma EarlyTap()
    ensures Tapped([EdgeEvent(true, 5)], 2, 10, 5) && !Intended([EdgeEvent(true, 5)], 2, 10, 5)
  {
    assert [EdgeEvent(true, 5)][..0] == [];
    assert Arrivals([EdgeEvent(true, 5)]) == [5];
  }

  predicate NotAfter(h: seq<EdgeEvent>, now: nat) {
    forall i :: 0 <= i < |h| ==> h[i].at <= now
  }

  /** Position in the ring of the entry `k` before the last. */
  function Slot(evidx: nat, k: nat): nat
    requires evidx < HISTLEN && k < HISTLEN
  {
    (evidx - k + HISTLEN) % HISTLEN
  }

  /** Advancing the ring by one moves every entry one place back, and overwrites only the oldest. */
  lemma SlotStep(evidx: nat, k: nat)
    requires evidx < HISTLEN && k < HISTLEN
    ensures var e := (evidx + 1) % HISTLEN;
      if k == 0 then Slot(e, k) == e else Slot(e, k) == Slot(evidx, k - 1) && Slot(e, k) != e
    ensures Slot(evidx, k) < HISTLEN
  {
  }

  lemma BackStep(h: seq<EdgeEvent>, e: EdgeEvent, k: nat)
    ensures Back(h + [e], k) == if k == 0 then e.at else Back(h, k - 1)
  {
  }

  /** The machine's test on one ring entry is the test on the whole history. */
  lemma TapDecision(h: seq<EdgeEvent>, n: nat, window: nat, now: nat)
    requires Alternates(h) && |h| % 2 == 1 && n >= 1 && NotAfter(h, now) && now < WRAP
    ensures (now - Back(h, 2 * (n - 1))) % WRAP <= window <==> Tapped(h, n, window, now)
  {
    hide Arrivals;
    BackToArrivals(h, n);
    assert 0 <= now - Back(h, 2 * (n - 1)) < WRAP;
  }

  class EdgeState {
    const eventTimes: array<nat>
    var lastArrive: bool
    var evidx: nat
    ghost var history: seq<EdgeEvent>

    /** The ring holds the last eight events of an alternating history. */
    ghost predicate Valid()
      reads this, eventTimes
    {
      && eventTimes.Length == HISTLEN && evidx < HISTLEN
      && Alternates(history) && (lastArrive <==> |history| % 2 == 1)
      && forall k :: 0 <= k < HISTLEN ==> eventTimes[Slot(evidx, k)] == Back(history, k)
    }

    constructor ()
      ensures Valid() && history == [] && !lastArrive && fresh(eventTimes)
    {
      eventTimes := new nat[HISTLEN](_ => 0);
      lastArrive, evidx, history := false, 0, [];
    }

    /** True, and no effect, for an event that would break the alternation. */
    method Record(arrive: bool, when: nat) returns (refused: bool)
      requires Valid()
      modifies this, eventTimes
      ensures Valid() && refused == (arrive == old(lastArrive)) && lastArrive == arrive
      ensures history == if refused then old(history) else old(history) + [EdgeEvent(arrive, when)]
    {
      if arrive == lastArrive {
        return true;
      }
      hide Slot, Back;
      ghost var was := evidx;
      evidx := (evidx + 1) % HISTLEN;
      eventTimes[evidx] := when;
      lastArrive := arrive;
      history := history + [EdgeEvent(arrive, when)];
      forall k | 0 <= k < HISTLEN
        ensures eventTimes[Slot(evidx, k)] == Back(history, k)
      {
        SlotStep(was, k);
        BackStep(old(history), EdgeEvent(arrive, when), k);
        if k > 0 {
          assert old(eventTimes[Slot(was, k - 1)]) == Back(old(history), k - 1);
        }
      }
      refused := false;
    }

    method HistoryEntry(k: nat) returns (t: nat)
      requires Valid() && k < HISTLEN
      ensures t == Back(history, k)
    {
      t := eventTimes[Slot(evidx, k)];
    }

    /** Records an event and decides whether it completes the configured gesture.  With a tap count
        that the configuration accepts, the look-back stays inside the ring, and the decision is the
        one that the complete history would give. */
    method Trigger(arrive: bool, now: nat, multitap: bool, num: nat, window: nat) returns (refused: bool, attempt: bool)
      requires Valid() && NotAfter(history, now) && now < WRAP
      requires multitap ==> 1 <= num <= (HISTLEN + 1) / 2
      modifies this, eventTimes
      ensures Valid() && refused == (arrive == old(lastArrive)) && lastArrive == arrive
      ensures history == if refused then old(history) else old(history) + [EdgeEvent(arrive, now)]
      ensures attempt <==> !refused && arrive && multitap && Tapped(history, num, window, now)
    {
      hide Arrivals, Back, Tapped, Slot;
      refused := Record(arrive, now);
      attempt := false;
      if !refused && multitap && arrive {
        var entry := HistoryEntry((num - 1) * 2);
        TapDecision(history, num, window, now);
        var duration := (now - entry) % WRAP;
        attempt := duration <= window;
      }
    }
  }

  // ---------------------------------------------------------------- a node's four edges

  datatype Screen = Screen(xmin: int, xmax: int, ymin: int, ymax: int)

  const LEFT: nat := 0
  const RIGHT: nat := 1
  const UP: nat := 2
  const DOWN: nat := 3

  /** The edges that a point lies on. */
  function EdgeMask(x: int, y: int, s: Screen): (mask: set<nat>)
    ensures LEFT in mask <==> x == s.xmin
    ensures RIGHT in mask <==> x == s.xmax
    ensures UP in mask <==> y == s.ymin
    ensures DOWN in mask <==> y == s.ymax
    ensures forall d :: d in mask ==> d < NUM_DIRECTIONS
  {
    (if x == s.xmin then {LEFT} else {}) + (if x == s.xmax then {RIGHT} else {}) +
    (if y == s.ymin then {UP} else {}) + (if y == s.ymax then {DOWN} else {})
  }

  /** What an edge records when its bit goes from `was` to `bit`. */
  function Recorded(h: seq<EdgeEvent>, was: bool, bit: bool, now: nat): seq<EdgeEvent> {
    if was == bit then h else h + [EdgeEvent(bit, now)]
  }

  /** The history of one edge after its bit has taken these values in turn, from an unset bit on. */
  function HistoryOf(bits: seq<bool>, nows: seq<nat>): seq<EdgeEvent>
    requires |bits| == |nows|
  {
    if bits == [] then []
    else
      var n := |bits| - 1;
      Recorded(HistoryOf(bits[..n], nows[..n]), n > 0 && bits[n - 1], bits[n], nows[n])
  }

  /** Over every sequence of pointer positions, the history alternates and ends with an arrival
      exactly while the bit is set, so no change of the bit is ever refused. */
  lemma {:induction false} InSync(bits: seq<bool>, nows: seq<nat>)
    requires |bits| == |nows|
    ensures Alternates(HistoryOf(bits, nows))
    ensures |HistoryOf(bits, nows)| % 2 == 1 <==> bits != [] && bits[|bits| - 1]
  {
    if bits != [] {
      var n := |bits| - 1;
      InSync(bits[..n], nows[..n]);
    }
  }

  class EdgeNode {
    const hist: seq<EdgeState>
    var edgemask: set<nat>

    ghost predicate Valid()
      reads this, hist, set i | 0 <= i < |hist| :: hist[i].eventTimes
    {
      && |hist| == NUM_DIRECTIONS
      && (forall i :: 0 <= i < |hist| ==> hist[i].Valid())
      && (forall i, j :: 0 <= i < j < |hist| ==> hist[i] != hist[j] && hist[i].eventTimes != hist[j].eventTimes)
    }

    /** The mask and the histories agree: an edge's bit is set exactly when its last recorded event
        is an arrival. */
    ghost predicate Synced()
      requires |hist| == NUM_DIRECTIONS
      reads this, hist
    {
      forall d :: 0 <= d < NUM_DIRECTIONS ==> (d in edgemask <==> hist[d].lastArrive)
    }

    constructor ()
      ensures Valid() && Synced() && edgemask == {}
    {
      hide EdgeState.Valid;
      var h0 := new EdgeState();
      var h1 := new EdgeState();
      var h2 := new EdgeState();
      var h3 := new EdgeState();
      hist := [h0, h1, h2, h3];
      edgemask := {};
    }

    /** One direction of the loop. */
    method CheckOne(d: nat, oldmask: set<nat>, now: nat, multitap: bool, num: nat, window: nat)
      returns (warned: bool, attempt: bool)
      requires Valid() && d < NUM_DIRECTIONS && (d in oldmask <==> hist[d].lastArrive)
      requires NotAfter(hist[d].history, now) && now < WRAP && (multitap ==> 1 <= num <= (HISTLEN + 1) / 2)
      modifies hist[d], hist[d].eventTimes
      ensures Valid() && (d in edgemask <==> hist[d].lastArrive) && !warned
      ensures hist[d].history == Recorded(old(hist[d].history), d in oldmask, d in edgemask, now)
      ensures attempt <==> d in edgemask && d !in oldmask && multitap && Tapped(hist[d].history, num, window, now)
    {
      hide Tapped;
      warned, attempt := false, false;
      if (d in oldmask) != (d in edgemask) {
        warned, attempt := hist[d].Trigger(d in edgemask, now, multitap, num, window);
      }
    }

    /** A new pointer position.  No edge event is ever out of sync, every edge records exactly the
        changes of its bit, and a switch is attempted exactly at the edges just arrived at whose
        gesture is complete, in the order left, right, up, down. */
    method CheckEdgeEvents(x: int, y: int, screen: Screen, nows: seq<nat>, multitap: bool, num: nat, window: nat)
      returns (warned: bool, attempts: seq<nat>)
      requires Valid() && Synced() && |nows| == NUM_DIRECTIONS && (multitap ==> 1 <= num <= (HISTLEN + 1) / 2)
      requires forall d :: 0 <= d < NUM_DIRECTIONS ==> NotAfter(hist[d].history, nows[d]) && nows[d] < WRAP
      modifies this, hist, set i | 0 <= i < |hist| :: hist[i].eventTimes
      ensures Valid() && Synced() && edgemask == EdgeMask(x, y, screen) && !warned
      ensures forall d :: 0 <= d < NUM_DIRECTIONS ==>
        hist[d].history == Recorded(old(hist[d].history), d in old(edgemask), d in edgemask, nows[d])
      ensures forall d :: d in attempts <==>
        && 0 <= d < NUM_DIRECTIONS && d in edgemask && d !in old(edgemask) && multitap
        && Tapped(hist[d].history, num, window, nows[d])
      ensures forall i, j :: 0 <= i < j < |attempts| ==> attempts[i] < attempts[j]
    {
      hide Tapped, Recorded, EdgeState.Valid, EdgeMask;
      var oldmask := edgemask;
      edgemask := EdgeMask(x, y, screen);
      warned, attempts := false, [];
      for d := 0 to NUM_DIRECTIONS
        invariant Valid() && edgemask == EdgeMask(x, y, screen) && !warned && oldmask == old(edgemask)
        invariant forall e :: 0 <= e < d ==> (e in edgemask <==> hist[e].lastArrive)
        invariant forall e :: d <= e < NUM_DIRECTIONS ==> (e in oldmask <==> hist[e].lastArrive)
        invariant forall e :: d <= e < NUM_DIRECTIONS ==> hist[e].history == old(hist[e].history)
        invariant forall e :: 0 <= e < d ==>
          hist[e].history == Recorded(old(hist[e].history), e in oldmask, e in edgemask, nows[e])
        invariant forall e :: e in attempts <==>
          0 <= e < d && e in edgemask && e !in oldmask && multitap && Tapped(hist[e].history, num, window, nows[e])
        invariant forall i :: 0 <= i < |attempts| ==> attempts[i] < d
        invariant forall i, j :: 0 <= i < j < |attempts| ==> attempts[i] < attempts[j]
      {
        var w, a := CheckOne(d, oldmask, nows[d], multitap, num, window);
        warned := warned || w;
        if a {
          attempts := attempts + [d];
        }
      }
    }
  }
}
