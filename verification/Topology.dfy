/** The node topology of main.c: applying the configured links, and marking what can be reached. */
module Topology {
  import opened Base

  /** Nodes are numbered; number zero is the master. */
  const MASTER: nat := 0

  /** A link leads from one side of `a` to `b`, and back from a side of `b` if one is given. */
  datatype Link = Link(a: nat, aDir: nat, b: nat, bDir: Option<nat>)

  type Table = seq<seq<Option<nat>>>

  predicate Square(t: Table) {
    forall n :: 0 <= n < |t| ==> |t[n]| == NUM_DIRECTIONS
  }

  predicate InTable(size: nat, ln: Link) {
    ln.a < size && ln.b < size && ln.aDir < NUM_DIRECTIONS && (ln.bDir.Some? ==> ln.bDir.value < NUM_DIRECTIONS)
  }

  predicate AllInTable(size: nat, links: seq<Link>) {
    forall i :: 0 <= i < |links| ==> InTable(size, links[i])
  }

  predicate Applies(enabled: seq<bool>, ln: Link)
    requires ln.a < |enabled| && ln.b < |enabled|
  {
    enabled[ln.a] && enabled[ln.b]
  }

  /** The neighbour that the configuration gives to side `d` of node `x`: the last link that names
      that side wins, the far end of a link being applied after its near end; links to or from
      disabled nodes do not count. */
  function Neighbour(links: seq<Link>, enabled: seq<bool>, x: nat, d: nat): Option<nat>
    requires AllInTable(|enabled|, links)
  {
    if links == [] then None
    else
      var n := |links| - 1;
      var ln := links[n];
      var earlier := Neighbour(links[..n], enabled, x, d);
      if Applies(enabled, ln) then Joined(ln, x, d, earlier) else earlier
  }

  /** What one link makes of side `d` of node `x`. */
  function Joined(ln: Link, x: nat, d: nat, was: Option<nat>): Option<nat> {
    if ln.b == x && ln.bDir == Some(d) then Some(ln.a)
    else if ln.a == x && ln.aDir == d then Some(ln.b)
    else was
  }

  /** A link between enabled nodes that names this side, at either of its ends. */
  predicate Names(enabled: seq<bool>, ln: Link, x: nat, d: nat)
    requires ln.a < |enabled| && ln.b < |enabled|
  {
    enabled[ln.a] && enabled[ln.b] && ((ln.a == x && ln.aDir == d) || (ln.b == x && ln.bDir == Some(d)))
  }

  /** The last link that names a side decides it: it leads to the link's other end, and if the link names
      the same side at both ends, to the end given first.  A side that no link names leads nowhere. */
  lemma {:induction false} LastLinkWins(links: seq<Link>, enabled: seq<bool>, x: nat, d: nat, i: int)
    requires AllInTable(|enabled|, links) && -1 <= i < |links|
    requires forall j :: i < j < |links| ==> !Names(enabled, links[j], x, d)
    requires i >= 0 ==> Names(enabled, links[i], x, d)
    ensures Neighbour(links, enabled, x, d) ==
      if i < 0 then None else if links[i].b == x && links[i].bDir == Some(d) then Some(links[i].a) else Some(links[i].b)
    decreases |links|
  {
    var n := |links| - 1;
    if links != [] && i < n {
      assert !Names(enabled, links[n], x, d);
      LastLinkWins(links[..n], enabled, x, d, i);
    }
  }

  /** Only enabled nodes are neighbours, or have any. */
  lemma {:induction false} NeighboursEnabled(links: seq<Link>, enabled: seq<bool>, x: nat, d: nat)
    requires AllInTable(|enabled|, links)
    requires Neighbour(links, enabled, x, d).Some? && x < |enabled|
    ensures Neighbour(links, enabled, x, d).value < |enabled|
    ensures enabled[x] && enabled[Neighbour(links, enabled, x, d).value]
  {
    var n := |links| - 1;
    var ln := links[n];
    if Neighbour(links[..n], enabled, x, d).Some? {
      NeighboursEnabled(links[..n], enabled, x, d);
    }
  }

  /** One step from `x` to `y`. */
  predicate Edge(t: Table, x: nat, y: nat) {
    && x < |t| && y < |t|
    && exists d :: 0 <= d < |t[x]| && t[x][d] == Some(y)
  }

  predicate Path(t: Table, p: seq<nat>) {
    && p != []
    && forall i :: 0 <= i < |p| - 1 ==> Edge(t, p[i], p[i + 1])
  }

  ghost predicate Leads(t: Table, x: nat, y: nat) {
    exists p :: Path(t, p) && p[0] == x && p[|p| - 1] == y
  }

  lemma LeadsSelf(t: Table, x: nat)
    ensures Leads(t, x, x)
  {
    assert Path(t, [x]);
  }

  lemma LeadsStep(t: Table, x: nat, y: nat, z: nat)
    requires Edge(t, x, y) && Leads(t, y, z)
    ensures Leads(t, x, z)
  {
    var p :| Path(t, p) && p[0] == y && p[|p| - 1] == z;
    var q := [x] + p;
    forall i | 0 <= i < |q| - 1
      ensures Edge(t, q[i], q[i + 1])
    {
      if i > 0 {
        assert Edge(t, p[i - 1], p[i]);
      }
    }
    assert Path(t, q);
  }

  function Unmarked(marks: seq<bool>): set<nat> {
    set i: nat | i < |marks| && !marks[i]
  }

  /** `x` is marked together with every remote that it links to. */
  ghost predicate Closed(t: Table, marks: seq<bool>, x: nat) {
    forall y: nat :: Edge(t, x, y) && y != MASTER ==> y < |marks| && marks[y]
  }

  /** What one call of the marking routine adds to the marks. */
  ghost predicate Extends(t: Table, n: nat, before: seq<bool>, marks: seq<bool>) {
    && |marks| == |before|
    && (forall x :: 0 <= x < |marks| && before[x] ==> marks[x])
    && (forall x :: 0 <= x < |marks| && marks[x] && !before[x] ==> x != MASTER && Leads(t, n, x))
    && (forall x :: 0 <= x < |marks| && marks[x] && !before[x] ==> Closed(t, marks, x))
  }

  lemma {:induction false} ClosedAlong(t: Table, marks: seq<bool>, p: seq<nat>, k: nat)
    requires Path(t, p) && k < |p| && p[0] == MASTER && |marks| == |t|
    requires Closed(t, marks, MASTER)
    requires forall x :: 0 <= x < |marks| && marks[x] ==> Closed(t, marks, x)
    ensures p[k] == MASTER || (p[k] < |marks| && marks[p[k]])
  {
    if k > 0 {
      ClosedAlong(t, marks, p, k - 1);
      assert Edge(t, p[k - 1], p[k - 1 + 1]);
    }
  }

  lemma NoLinks(enabled: seq<bool>)
    ensures forall x: nat, d: nat :: Neighbour([], enabled, x, d).None?
  {
  }

  lemma OneMoreLink(links: seq<Link>, enabled: seq<bool>, i: nat, x: nat, d: nat)
    requires i < |links| && AllInTable(|enabled|, links)
    ensures var earlier := Neighbour(links[..i], enabled, x, d);
      Neighbour(links[..i + 1], enabled, x, d) ==
        if Applies(enabled, links[i]) then Joined(links[i], x, d, earlier) else earlier
  {
    assert links[..i + 1][..i] == links[..i];
  }

  class Graph {
    const enabled: seq<bool>
    var neighbors: Table
    var reachable: seq<bool>

    ghost predicate Valid()
      reads this
    {
      && Square(neighbors) && |neighbors| == |reachable| == |enabled| > MASTER
      && forall x, d :: 0 <= x < |neighbors| && 0 <= d < |neighbors[x]| && neighbors[x][d].Some? ==>
           neighbors[x][d].value < |neighbors|
    }

    /** Links join enabled nodes only. */
    ghost predicate EnabledLinks()
      requires Valid()
      reads this
    {
      forall x: nat, y: nat :: Edge(neighbors, x, y) ==> enabled[x] && enabled[y]
    }

    /** No node has a neighbour yet and none is marked; the master is always enabled. */
    constructor (enabled: seq<bool>)
      requires |enabled| > MASTER && enabled[MASTER]
      ensures Valid() && this.enabled == enabled
      ensures forall x, d :: 0 <= x < |neighbors| && 0 <= d < NUM_DIRECTIONS ==> neighbors[x][d].None?
      ensures forall x :: 0 <= x < |reachable| ==> !reachable[x]
    {
      this.enabled := enabled;
      neighbors := seq(|enabled|, _ => seq(NUM_DIRECTIONS, _ => None));
      reachable := seq(|enabled|, _ => false);
    }

    method ApplyLink(ln: Link)
      requires Square(neighbors) && InTable(|neighbors|, ln)
      modifies this`neighbors
      ensures Square(neighbors) && |neighbors| == |old(neighbors)|
      ensures forall x: nat, d: nat :: x < |neighbors| && d < NUM_DIRECTIONS ==>
        neighbors[x][d] == Joined(ln, x, d, old(neighbors)[x][d])
    {
      neighbors := neighbors[ln.a := neighbors[ln.a][ln.aDir := Some(ln.b)]];
      if ln.bDir.Some? {
        neighbors := neighbors[ln.b := neighbors[ln.b][ln.bDir.value := Some(ln.a)]];
      }
    }

    /** The table ends up as the configuration says, and joins enabled nodes only. */
    method ApplyTopology(links: seq<Link>)
      requires Valid() && forall x, d :: 0 <= x < |neighbors| && 0 <= d < NUM_DIRECTIONS ==> neighbors[x][d].None?
      requires AllInTable(|enabled|, links)
      modifies this`neighbors
      ensures Valid() && EnabledLinks()
      ensures forall x: nat, d: nat :: x < |neighbors| && d < NUM_DIRECTIONS ==>
        neighbors[x][d] == Neighbour(links, enabled, x, d)
    {
      NoLinks(enabled);
      for i := 0 to |links|
        invariant Square(neighbors) && |neighbors| == |old(neighbors)|
        invariant forall x: nat, d: nat :: x < |neighbors| && d < NUM_DIRECTIONS ==>
          neighbors[x][d] == Neighbour(links[..i], enabled, x, d)
      {
        ghost var before := neighbors;
        assert InTable(|enabled|, links[i]);
        if Applies(enabled, links[i]) {
          ApplyLink(links[i]);
        }
        forall x: nat, d: nat | x < |neighbors| && d < NUM_DIRECTIONS
          ensures neighbors[x][d] == Neighbour(links[..i + 1], enabled, x, d)
        {
          assert before[x][d] == Neighbour(links[..i], enabled, x, d);
          assert neighbors[x][d] ==
            if Applies(enabled, links[i]) then Joined(links[i], x, d, before[x][d]) else before[x][d];
          OneMoreLink(links, enabled, i, x, d);
        }
      }
      assert links[..|links|] == links;
      forall x: nat, d: nat | x < |neighbors| && d < NUM_DIRECTIONS && neighbors[x][d].Some?
        ensures neighbors[x][d].value < |neighbors| && enabled[x] && enabled[neighbors[x][d].value]
      {
        NeighboursEnabled(links, enabled, x, d);
      }
    }

    /** Depth-first marking.  The recursion ends, on cyclic and one-way topologies too, because every
        call that goes on has one more node marked. */
    method MarkReachable(n: Option<nat>)
      requires Valid() && (n.Some? ==> n.value < |reachable|)
      modifies this`reachable
      ensures Valid() && |reachable| == |old(reachable)|
      ensures n.Some? && n.value != MASTER ==> reachable[n.value]
      ensures n.None? ==> reachable == old(reachable)
      ensures Extends(neighbors, if n.Some? then n.value else MASTER, old(reachable), reachable)
      decreases Unmarked(reachable)
    {
      if n.None? || n.value == MASTER {
        return;
      }
      var me := n.value;
      var seen := reachable[me];
      reachable := reachable[me := true];
      if !seen {
        LeadsSelf(neighbors, me);
        for d := 0 to NUM_DIRECTIONS
          invariant Valid() && |reachable| == |old(reachable)| && reachable[me]
          invariant forall e :: 0 <= e < d ==>
            neighbors[me][e].Some? && neighbors[me][e].value != MASTER ==> reachable[neighbors[me][e].value]
          invariant Spread(neighbors, me, old(reachable), reachable)
        {
          ghost var before := reachable;
          assert Unmarked(reachable) < Unmarked(old(reachable)) by {
            assert me in Unmarked(old(reachable)) && me !in Unmarked(reachable);
          }
          MarkReachable(neighbors[me][d]);
          SpreadMore(neighbors, me, d, old(reachable), before, reachable);
        }
        assert Closed(neighbors, reachable, me);
      }
    }

    /** The seeding loop.  Afterwards a remote is marked if and only if some path of neighbour links
        leads to it from the master, and every marked remote is enabled. */
    method CheckRemotes()
      requires Valid() && EnabledLinks() && forall x :: 0 <= x < |reachable| ==> !reachable[x]
      modifies this`reachable
      ensures Valid() && |reachable| == |old(reachable)|
      ensures forall r :: 0 < r < |reachable| ==> (reachable[r] <==> Leads(neighbors, MASTER, r))
      ensures forall r :: 0 < r < |reachable| && reachable[r] ==> enabled[r]
    {
      LeadsSelf(neighbors, MASTER);
      for d := 0 to NUM_DIRECTIONS
        invariant Valid() && EnabledLinks() && |reachable| == |old(reachable)|
        invariant forall e :: 0 <= e < d ==>
          neighbors[MASTER][e].Some? && neighbors[MASTER][e].value != MASTER ==> reachable[neighbors[MASTER][e].value]
        invariant Spread(neighbors, MASTER, old(reachable), reachable)
      {
        ghost var before := reachable;
        MarkReachable(neighbors[MASTER][d]);
        SpreadMore(neighbors, MASTER, d, old(reachable), before, reachable);
      }
      assert Closed(neighbors, reachable, MASTER);
      MarkedExactly(neighbors, reachable);
      ArrivalsEnabled();
    }

    lemma ArrivalsEnabled()
      requires Valid() && EnabledLinks()
      requires forall r :: 0 < r < |reachable| && reachable[r] ==> Leads(neighbors, MASTER, r)
      ensures forall r :: 0 < r < |reachable| && reachable[r] ==> enabled[r]
    {
      forall r | 0 < r < |reachable| && reachable[r]
        ensures enabled[r]
      {
        var p :| Path(neighbors, p) && p[0] == MASTER && p[|p| - 1] == r;
        var i := |p| - 2;
        assert Edge(neighbors, p[i], p[i + 1]);
      }
    }
  }

  /** A set of marks that is closed under links and contains only what a path leads to is exactly
      what paths lead to. */
  lemma MarkedExactly(t: Table, marks: seq<bool>)
    requires |marks| == |t| && Closed(t, marks, MASTER)
    requires forall x :: 0 <= x < |marks| && marks[x] ==> x != MASTER && Leads(t, MASTER, x) && Closed(t, marks, x)
    ensures forall r :: 0 < r < |marks| ==> (marks[r] <==> Leads(t, MASTER, r))
  {
    forall r | 0 < r < |marks| && Leads(t, MASTER, r)
      ensures marks[r]
    {
      var p :| Path(t, p) && p[0] == MASTER && p[|p| - 1] == r;
      ClosedAlong(t, marks, p, |p| - 1);
    }
  }

  /** The marks so far, while `me` is still being worked on. */
  ghost predicate Spread(t: Table, me: nat, before: seq<bool>, marks: seq<bool>) {
    && |marks| == |before|
    && (forall x :: 0 <= x < |marks| && before[x] ==> marks[x])
    && (forall x :: 0 <= x < |marks| && marks[x] && !before[x] ==> x != MASTER && Leads(t, me, x))
    && (forall x :: 0 <= x < |marks| && marks[x] && !before[x] && x != me ==> Closed(t, marks, x))
  }

  lemma SpreadMore(t: Table, me: nat, d: nat, start: seq<bool>, before: seq<bool>, marks: seq<bool>)
    requires me < |t| && d < |t[me]| && Spread(t, me, start, before) && (t[me][d].Some? ==> t[me][d].value < |t|)
    requires Extends(t, if t[me][d].Some? then t[me][d].value else MASTER, before, marks)
    requires t[me][d].None? ==> marks == before
    ensures Spread(t, me, start, marks)
  {
    forall x | 0 <= x < |marks| && marks[x] && !start[x]
      ensures x != MASTER && Leads(t, me, x) && (x != me ==> Closed(t, marks, x))
    {
      if !before[x] {
        assert Edge(t, me, t[me][d].value);
        LeadsStep(t, me, t[me][d].value, x);
      } else if x != me {
        assert Closed(t, before, x);
      }
    }
  }
}
