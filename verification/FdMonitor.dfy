/** The list of monitored file descriptors of x11.c: doubly linked, reference counted, and walked
    while callbacks register and unregister entries. */
module FdMonitor {
  /** One entry.  `key` numbers registrations, so it tells entries apart and orders the list. */
  class Ctx {
    const fd: int
    ghost const key: nat
    var wantRead: bool
    var wantWrite: bool
    var refcount: int
    var next: Ctx?
    var prev: Ctx?

    constructor (fd: int, ghost key: nat)
      ensures this.fd == fd && this.key == key && !wantRead && !wantWrite && refcount == 1
      ensures next == null && prev == null
    {
      this.fd, this.key := fd, key;
      wantRead, wantWrite, refcount := false, false, 1;
      next, prev := null, null;
    }
  }

  class Monitor {
    var head: Ctx?
    var tail: Ctx?
    ghost var nodes: set<Ctx>
    ghost var registered: set<Ctx>
    ghost var current: Ctx?
    ghost var nextKey: nat
    ghost var log: seq<Happening>

    /** The next entry is the newest of the older ones, and points back; at the tail there is none. */
    ghost predicate NextOk(c: Ctx)
      reads this, nodes, c
    {
      if c.next == null then c == tail && forall d :: d in nodes ==> d.key >= c.key
      else
        && c.next in nodes && c.next.key < c.key && c.next.prev == c
        && forall d :: d in nodes && d.key < c.key ==> d.key <= c.next.key
    }

    /** The previous entry is the oldest of the newer ones; at the head there is none. */
    ghost predicate PrevOk(c: Ctx)
      reads this, nodes, c
    {
      if c.prev == null then c == head && forall d :: d in nodes ==> d.key <= c.key
      else
        && c.prev in nodes && c.prev.key > c.key && c.prev.next == c
        && forall d :: d in nodes && d.key > c.key ==> d.key >= c.prev.key
    }

    ghost predicate EndsOk()
      reads this, nodes
    {
      && (nodes != {} ==> head != null && tail != null)
      && (head != null ==> head in nodes && head.prev == null)
      && (tail != null ==> tail in nodes && tail.next == null)
    }

    ghost predicate KeysOk()
      reads this
    {
      && (forall c, d :: c in nodes && d in nodes && c.key == d.key ==> c == d)
      && (forall c :: c in nodes ==> c.key < nextKey)
    }

    /** From head to tail the list runs through all entries, newest first, both ways. */
    ghost predicate Linked()
      reads this, nodes
    {
      && EndsOk() && KeysOk()
      && (forall c {:trigger NextOk(c)} :: c in nodes ==> NextOk(c))
      && (forall c {:trigger PrevOk(c)} :: c in nodes ==> PrevOk(c))
    }

    /** Each entry's count is its registration plus the visit in progress, and never zero; an entry
        that is no longer registered is watched for nothing. */
    ghost predicate Counted()
      reads this, nodes
    {
      && registered <= nodes
      && (current != null ==> current in nodes)
      && (forall c :: c in nodes && c !in registered ==> !c.wantRead && !c.wantWrite)
      && (forall c :: c in nodes ==>
            c.refcount == (if c in registered then 1 else 0) + (if c == current then 1 else 0) && c.refcount > 0)
    }

    ghost predicate Valid()
      reads this, nodes
      ensures Valid() ==> registered <= nodes && (current != null ==> current in nodes)
    {
      Linked() && Counted()
    }

    constructor ()
      ensures Valid() && nodes == {} && current == null && log == []
    {
      head, tail := null, null;
      nodes, registered, current, nextKey, log := {}, {}, null, 0, [];
    }

    /** The pointer writes of a registration. */
    method LinkFirst(c: Ctx)
      requires c !in nodes && (head != null ==> head in nodes) && c.next == null && c.prev == null
      modifies this`head, this`tail, c, head
      ensures head == c && tail == (if old(tail) == null then c else old(tail))
      ensures c.next == old(head) && c.prev == null && c.refcount == old(c.refcount)
      ensures c.wantRead == old(c.wantRead) && c.wantWrite == old(c.wantWrite)
      ensures forall x :: x in nodes ==>
        && x.next == old(x.next) && x.prev == (if x == old(head) then c else old(x.prev))
        && x.refcount == old(x.refcount) && x.wantRead == old(x.wantRead) && x.wantWrite == old(x.wantWrite)
    {
      c.next := head;
      if c.next != null {
        c.next.prev := c;
      }
      head := c;
      c.prev := null;
      if tail == null {
        tail := c;
      }
    }

    /** A new entry goes to the front. */
    method Register(fd: int) returns (c: Ctx)
      requires Valid()
      modifies this, head
      ensures Valid() && fresh(c) && c.fd == fd && c.key == old(nextKey) && nextKey == old(nextKey) + 1
      ensures nodes == old(nodes) + {c} && registered == old(registered) + {c} && current == old(current)
      ensures log == old(log) && !c.wantRead && !c.wantWrite
      ensures forall x :: x in old(nodes) ==> x.wantRead == old(x.wantRead) && x.wantWrite == old(x.wantWrite)
    {
      c := new Ctx(fd, nextKey);
      LinkFirst(c);
      nodes, registered, nextKey := nodes + {c}, registered + {c}, nextKey + 1;
      RegisteredLinked(c);
    }

    twostate lemma RegisteredLinked(new c: Ctx)
      requires old(Linked()) && nodes == old(nodes) + {c} && c !in old(nodes) && nextKey == old(nextKey) + 1
      requires c.key == old(nextKey) && c.next == old(head) && c.prev == null && head == c
      requires tail == if old(tail) == null then c else old(tail)
      requires forall x :: x in old(nodes) ==>
        x.next == old(x.next) && x.prev == if x == old(head) then c else old(x.prev)
      ensures Linked()
    {
      hide EndsOk, KeysOk, NextOk, PrevOk;
      assert old(head) != null ==> old(head).prev == c by { HeadListed(); }
      RegisteredFirst(c, old(head));
      RegisteredEnds(c);
      forall d | d in old(nodes)
        ensures NextOk(d)
        ensures PrevOk(d)
      {
        RegisteredOther(c, d);
      }
    }

    twostate lemma HeadListed()
      requires old(EndsOk())
      ensures old(head != null ==> head in nodes)
    {
    }

    twostate lemma RegisteredEnds(new c: Ctx)
      requires old(EndsOk()) && old(KeysOk()) && nodes == old(nodes) + {c} && nextKey == old(nextKey) + 1
      requires c.key == old(nextKey) && c.next == old(head) && c.prev == null && head == c
      requires tail == if old(tail) == null then c else old(tail)
      requires forall x :: x in old(nodes) ==> x.next == old(x.next)
      ensures EndsOk() && KeysOk()
    {
    }

    /** An entry that was there already keeps its neighbours; the old head gains one. */
    twostate lemma RegisteredOther(new c: Ctx, d: Ctx)
      requires old(Linked()) && nodes == old(nodes) + {c} && c !in old(nodes) && d in old(nodes)
      requires c.key == old(nextKey) && c.next == old(head) && head == c
      requires tail == if old(tail) == null then c else old(tail)
      requires forall x :: x in old(nodes) ==>
        x.next == old(x.next) && x.prev == if x == old(head) then c else old(x.prev)
      ensures NextOk(d) && PrevOk(d)
    {
      assert old(NextOk(d)) && old(PrevOk(d));
    }

    twostate lemma RegisteredFirst(new c: Ctx, h: Ctx?)
      requires old(Linked()) && h == old(head) && nodes == old(nodes) + {c} && c !in old(nodes)
      requires c.key == old(nextKey) && c.next == h && c.prev == null && head == c
      requires tail == if old(tail) == null then c else old(tail)
      requires h != null ==> h.prev == c
      ensures NextOk(c) && PrevOk(c)
    {
      if h != null {
        assert old(PrevOk(h));
      }
    }

    /** The pointer writes of the last unref. */
    method Splice(c: Ctx)
      requires c in nodes && (c.next != null ==> c.next in nodes) && (c.prev != null ==> c.prev in nodes)
      requires c.next != c && c.prev != c
      modifies this`head, this`tail, c.next, c.prev
      ensures head == if old(c.prev) == null then old(c.next) else old(head)
      ensures tail == if old(c.next) == null then old(c.prev) else old(tail)
      ensures forall x :: x in nodes && x != c ==>
        && x.next == (if x == old(c.prev) then old(c.next) else old(x.next))
        && x.prev == (if x == old(c.next) then old(c.prev) else old(x.prev))
        && x.refcount == old(x.refcount) && x.wantRead == old(x.wantRead) && x.wantWrite == old(x.wantWrite)
    {
      if c.prev == null {
        head := c.next;
      }
      if c.next == null {
        tail := c.prev;
      }
      if c.next != null {
        c.next.prev := c.prev;
      }
      if c.prev != null {
        c.prev.next := c.next;
      }
    }

    /** The surgery of the last unref. */
    method Unlink(c: Ctx)
      requires Linked() && c in nodes
      modifies this, c.next, c.prev
      ensures Linked() && nodes == old(nodes) - {c}
      ensures registered == old(registered) && current == old(current) && nextKey == old(nextKey) && log == old(log)
      ensures forall x :: x in nodes ==>
        x.refcount == old(x.refcount) && x.wantRead == old(x.wantRead) && x.wantWrite == old(x.wantWrite)
      ensures c.wantRead == old(c.wantRead) && c.wantWrite == old(c.wantWrite)
    {
      assert NextOk(c) && PrevOk(c);
      Splice(c);
      nodes := nodes - {c};
      UnlinkedLinked(c);
    }

    twostate lemma UnlinkedLinked(c: Ctx)
      requires old(Linked()) && c in old(nodes) && nodes == old(nodes) - {c} && nextKey == old(nextKey)
      requires head == if old(c.prev) == null then old(c.next) else old(head)
      requires tail == if old(c.next) == null then old(c.prev) else old(tail)
      requires forall x :: x in nodes ==>
        && x.next == (if x == old(c.prev) then old(c.next) else old(x.next))
        && x.prev == (if x == old(c.next) then old(c.prev) else old(x.prev))
      ensures Linked()
    {
      assert old(NextOk(c)) && old(PrevOk(c));
      forall d | d in nodes
        ensures NextOk(d)
        ensures PrevOk(d)
        ensures head != null
        ensures tail != null
      {
        assert old(NextOk(d)) && old(PrevOk(d));
      }
      UnlinkedEnds(c);
    }

    twostate lemma UnlinkedEnds(c: Ctx)
      requires old(Linked()) && c in old(nodes) && nodes == old(nodes) - {c}
      requires head == if old(c.prev) == null then old(c.next) else old(head)
      requires tail == if old(c.next) == null then old(c.prev) else old(tail)
      requires forall x :: x in nodes ==>
        && x.next == (if x == old(c.prev) then old(c.next) else old(x.next))
        && x.prev == (if x == old(c.next) then old(c.prev) else old(x.prev))
      ensures head != null ==> head in nodes && head.prev == null
      ensures tail != null ==> tail in nodes && tail.next == null
    {
      assert old(NextOk(c)) && old(PrevOk(c));
    }

    /** Drops one reference: the visit in progress, or the registration.  The last one unlinks and
        frees the entry; until then it stays in the list. */
    method Unref(c: Ctx, ghost visit: bool)
      requires Valid() && (if visit then c == current else c in registered && !c.wantRead && !c.wantWrite)
      modifies this, c, c.next, c.prev
      ensures Valid() && nextKey == old(nextKey) && log == old(log)
      ensures forall x :: x in old(nodes) ==> x.wantRead == old(x.wantRead) && x.wantWrite == old(x.wantWrite)
      ensures current == if visit then null else old(current)
      ensures registered == if visit then old(registered) else old(registered) - {c}
      ensures nodes == if c in registered || c == current then old(nodes) else old(nodes) - {c}
    {
      hide Linked;
      c.refcount := c.refcount - 1;
      if visit {
        current := null;
      } else {
        registered := registered - {c};
      }
      SameLinks();
      if c.refcount == 0 {
        Unlink(c);
      }
    }

    /** Links do not depend on counts. */
    twostate lemma SameLinks()
      requires old(Linked()) && nodes == old(nodes) && head == old(head) && tail == old(tail) && nextKey == old(nextKey)
      requires forall x :: x in nodes ==> x.next == old(x.next) && x.prev == old(x.prev)
      ensures Linked()
    {
      forall d | d in nodes
        ensures NextOk(d)
        ensures PrevOk(d)
      {
        assert old(NextOk(d)) && old(PrevOk(d));
      }
    }

    method Ref(c: Ctx)
      requires Valid() && c in nodes && current == null
      modifies this`current, c`refcount
      ensures Valid() && current == c && nodes == old(nodes) && registered == old(registered)
    {
      c.refcount := c.refcount + 1;
      current := c;
      SameLinks();
    }

    /** Puts something on record. */
    ghost method Note(h: Happening)
      requires Valid()
      modifies this`log
      ensures Valid() && log == old(log) + [h]
    {
      log := log + [h];
      SameLinks();
    }

    /** From here on the entry is watched for nothing, so none of its callbacks runs again. */
    method Unregister(c: Ctx)
      requires Valid() && c in registered
      modifies this, c, c.next, c.prev
      ensures Valid() && nextKey == old(nextKey) && current == old(current) && registered == old(registered) - {c}
      ensures nodes == if c == current then old(nodes) else old(nodes) - {c}
      ensures !c.wantRead && !c.wantWrite && log == old(log) + [Flagged(c, false, false), Dropped(c)]
      ensures forall x :: x in old(nodes) && x != c ==> x.wantRead == old(x.wantRead) && x.wantWrite == old(x.wantWrite)
    {
      Unwatch(c, true, true);
      Unref(c, false);
      Note(Dropped(c));
    }

    method Watch(c: Ctx, read: bool, write: bool)
      requires Valid() && c in registered
      modifies this`log, c`wantRead, c`wantWrite
      ensures Valid() && log == old(log) + [Flagged(c, c.wantRead, c.wantWrite)]
      ensures c.wantRead == (old(c.wantRead) || read) && c.wantWrite == (old(c.wantWrite) || write)
    {
      c.wantRead, c.wantWrite := c.wantRead || read, c.wantWrite || write;
      SameLinks();
      Note(Flagged(c, c.wantRead, c.wantWrite));
    }

    method Unwatch(c: Ctx, read: bool, write: bool)
      requires Valid() && c in nodes
      modifies this`log, c`wantRead, c`wantWrite
      ensures Valid() && log == old(log) + [Flagged(c, c.wantRead, c.wantWrite)]
      ensures c.wantRead == (old(c.wantRead) && !read) && c.wantWrite == (old(c.wantWrite) && !write)
    {
      c.wantRead, c.wantWrite := c.wantRead && !read, c.wantWrite && !write;
      SameLinks();
      Note(Flagged(c, c.wantRead, c.wantWrite));
    }

    ghost function Newer(c: Ctx): set<Ctx>
      reads this
    {
      set d | d in nodes && d.key > c.key
    }

    /** `k` entries of the list are in front of `c`. */
    ghost predicate At(c: Ctx, k: nat)
      reads this
    {
      c in nodes && |Newer(c)| == k
    }

    /** The entry `k` links from the head, if there is one. */
    method EntryAt(k: nat) returns (c: Ctx?)
      requires Valid()
      ensures if c == null then |nodes| <= k else At(c, k)
    {
      FirstAt();
      c := head;
      for i := 0 to k
        invariant if c == null then |nodes| <= i else At(c, i)
      {
        if c == null {
          return;
        }
        NextAt(c, i);
        c := c.next;
      }
    }

    lemma FirstAt()
      requires Valid()
      ensures if head == null then |nodes| <= 0 else At(head, 0)
    {
      if head != null {
        assert PrevOk(head);
        assert Newer(head) == {};
      }
    }

    lemma NextAt(c: Ctx, i: nat)
      requires Valid() && At(c, i)
      ensures if c.next == null then |nodes| <= i + 1 else At(c.next, i + 1)
    {
      assert NextOk(c);
      if c.next == null {
        assert nodes == Newer(c) + {c};
      } else {
        assert Newer(c.next) == Newer(c) + {c};
      }
    }

    /** Does the holder of this entry still hold a registration? */
    method IsRegistered(c: Ctx, cur: Ctx) returns (yes: bool)
      requires Valid() && current == cur && c in nodes
      ensures yes <==> c in registered
    {
      yes := c != cur || c.refcount == 2;
    }

    lemma NeighboursListed(c: Ctx)
      requires Valid() && c in nodes
      ensures (c.next == null || c.next in nodes) && (c.prev == null || c.prev in nodes)
    {
      assert NextOk(c) && PrevOk(c);
    }

    /** A callback unregisters an entry, possibly the one being visited. */
    method UnregisterEntry(k: nat, cur: Ctx) returns (ghost acts: seq<Happening>, ghost target: Ctx?)
      requires Valid() && current == cur
      modifies this, nodes
      ensures if target == null then |old(nodes)| <= k else target in old(nodes) && old(At(target, k))
      ensures acts ==
        if target != null && target in old(registered) then [Flagged(target, false, false), Dropped(target)] else []
      ensures Valid() && current == cur && nextKey == old(nextKey) && nodes <= old(nodes)
      ensures log == old(log) + acts && Silent(acts)
      ensures forall c :: c in old(nodes) ==> (c in registered <==> c in old(registered) && Dropped(c) !in acts)
      ensures forall c :: c in registered ==> c in old(nodes)
      ensures forall c :: Dropped(c) in acts ==> c in old(registered)
      ensures forall c :: c in old(nodes) && c in nodes ==>
        c.wantRead == FlagOf(acts, c, false, old(c.wantRead)) && c.wantWrite == FlagOf(acts, c, true, old(c.wantWrite))
    {
      hide Linked, Counted, FlagOf, At;
      acts := [];
      NoFlags();
      var c := EntryAt(k);
      target := c;
      if c != null {
        var yes := IsRegistered(c, cur);
        if yes {
          NeighboursListed(c);
          Unregister(c);
          acts := [Flagged(c, false, false)] + [Dropped(c)];
          OneFlag(Flagged(c, false, false));
          OneFlag(Dropped(c));
          FlagsOn([Flagged(c, false, false)], [Dropped(c)]);
        }
      }
    }

    method WatchEntry(k: nat, read: bool, write: bool, cur: Ctx)
      returns (ghost acts: seq<Happening>, ghost target: Ctx?)
      requires Valid() && current == cur
      modifies this`log, nodes
      ensures if target == null then |old(nodes)| <= k else target in old(nodes) && old(At(target, k))
      ensures acts ==
        if target != null && target in registered then
          [Flagged(target, old(target.wantRead) || read, old(target.wantWrite) || write)]
        else []
      ensures Valid() && log == old(log) + acts && Silent(acts) && forall c :: Dropped(c) !in acts
      ensures forall c :: c in old(nodes) && c in nodes ==>
        c.wantRead == FlagOf(acts, c, false, old(c.wantRead)) && c.wantWrite == FlagOf(acts, c, true, old(c.wantWrite))
    {
      acts := [];
      NoFlags();
      var c := EntryAt(k);
      target := c;
      if c != null {
        var yes := IsRegistered(c, cur);
        if yes {
          hide Linked, Counted;
          Watch(c, read, write);
          acts := [Flagged(c, c.wantRead, c.wantWrite)];
          OneFlag(acts[0]);
        }
      }
    }

    method UnwatchEntry(k: nat, read: bool, write: bool) returns (ghost acts: seq<Happening>, ghost target: Ctx?)
      requires Valid()
      modifies this`log, nodes
      ensures if target == null then |old(nodes)| <= k else target in old(nodes) && old(At(target, k))
      ensures acts ==
        if target != null then
          [Flagged(target, old(target.wantRead) && !read, old(target.wantWrite) && !write)]
        else []
      ensures Valid() && log == old(log) + acts && Silent(acts) && forall c :: Dropped(c) !in acts
      ensures forall c :: c in old(nodes) && c in nodes ==>
        c.wantRead == FlagOf(acts, c, false, old(c.wantRead)) && c.wantWrite == FlagOf(acts, c, true, old(c.wantWrite))
    {
      acts := [];
      NoFlags();
      var c := EntryAt(k);
      target := c;
      if c != null {
        hide Linked, Counted;
        Unwatch(c, read, write);
        acts := [Flagged(c, c.wantRead, c.wantWrite)];
        OneFlag(acts[0]);
      }
    }

    /** What the callbacks have done since the state of the call: `acts` says which entries have lost
        their registration and what they are now watched for; new entries have new keys. */
    twostate predicate Changed(was: set<Ctx>, new acts: seq<Happening>)
      reads this, was
    {
      && nextKey >= old(nextKey)
      && (forall c :: c in nodes && c !in was ==> c.key >= old(nextKey))
      && (forall c :: c in was ==> (c in registered <==> c in old(registered) && Dropped(c) !in acts))
      && (forall c :: Dropped(c) in acts && c in was ==> c in old(registered))
      && (forall c :: c in was && c in nodes ==>
            && c.wantRead == FlagOf(acts, c, false, old(c.wantRead))
            && c.wantWrite == FlagOf(acts, c, true, old(c.wantWrite)))
    }

    /** Something a callback does to an entry that is there. */
    method OnEntry(a: Action, cur: Ctx) returns (ghost acts: seq<Happening>, ghost target: Ctx?)
      requires Valid() && current == cur && !a.RegisterFd?
      modifies this, nodes
      ensures Valid() && current == cur && Changed(old(nodes), acts) && log == old(log) + acts && Silent(acts)
      ensures nodes <= old(nodes) && forall c :: Dropped(c) in acts ==> c in old(registered)
      ensures if target == null then |old(nodes)| <= a.k else target in old(nodes) && old(At(target, a.k))
      ensures acts ==
        if target == null then []
        else Deed(a, target, target in old(registered), old(target.wantRead), old(target.wantWrite))
      ensures forall i :: 0 <= i < |acts| ==> !acts[i].Did?
    {
      hide Linked, Counted, FlagOf, At;
      match a {
        case UnregisterAt(k) => acts, target := UnregisterEntry(k, cur);
        case WatchAt(k, read, write) => acts, target := WatchEntry(k, read, write, cur);
        case UnwatchAt(k, read, write) => acts, target := UnwatchEntry(k, read, write);
      }
    }

    /** A callback registers another descriptor. */
    method OnNew(fd: int, cur: Ctx) returns (ghost acts: seq<Happening>, ghost target: Ctx)
      requires Valid() && current == cur
      modifies this, nodes
      ensures Valid() && current == cur && Changed(old(nodes), acts) && log == old(log) + acts && acts == []
      ensures fresh(target) && target.fd == fd && !target.wantRead && !target.wantWrite
      ensures nodes == old(nodes) + {target} && registered == old(registered) + {target}
    {
      assert head != null ==> head in nodes;
      hide Linked, Counted, FlagOf;
      NoFlags();
      var c := Register(fd);
      acts, target := [], c;
    }

    /** One thing a callback may do.  It uses the handle of an entry only while that is registered;
        taking watches away is harmless at any time. */
    method Perform(a: Action, cur: Ctx) returns (ghost acts: seq<Happening>, ghost target: Ctx?)
      requires Valid() && current == cur
      modifies this, nodes
      ensures Valid() && current == cur && Changed(old(nodes), acts) && log == old(log) + acts && Silent(acts)
      ensures forall c :: c in nodes && c !in old(nodes) ==> fresh(c)
      ensures forall c :: Dropped(c) in acts ==> c in old(registered)
      ensures !a.RegisterFd? ==>
        && (if target == null then |old(nodes)| <= a.k else target in old(nodes) && old(At(target, a.k)))
        && acts ==
             if target == null then []
             else Deed(a, target, target in old(registered), old(target.wantRead), old(target.wantWrite))
      ensures a.RegisterFd? ==>
        && target != null && fresh(target) && target.fd == a.fd && !target.wantRead && !target.wantWrite
        && nodes == old(nodes) + {target} && registered == old(registered) + {target} && acts == []
      ensures forall i :: 0 <= i < |acts| ==> !acts[i].Did?
    {
      hide Linked, Counted, FlagOf, At, Changed, Deed;
      if a.RegisterFd? {
        acts, target := OnNew(a.fd, cur);
      } else {
        acts, target := OnEntry(a, cur);
      }
    }

    method RunAct(a: Action, cur: Ctx) returns (ghost acts: seq<Happening>)
      requires Valid() && current == cur
      modifies this, nodes
      ensures Valid() && current == cur && Changed(old(nodes), acts) && log == old(log) + acts && Silent(acts)
      ensures Dids(acts) == [a]
      ensures forall c :: c in nodes && c !in old(nodes) ==> fresh(c)
      ensures forall c :: Dropped(c) in acts ==> c in old(registered)
    {
      hide Linked, Counted, FlagOf, At, Deed, Dids;
      Note(Did(a));
      ghost var more, target := Perform(a, cur);
      OneFlag(Did(a));
      FlagsOn([Did(a)], more);
      acts := [Did(a)] + more;
      DidsOne(a, acts);
    }

    /** A callback does any number of them. */
    method RunActs(script: seq<Action>, cur: Ctx) returns (ghost acts: seq<Happening>)
      requires Valid() && current == cur
      modifies this, nodes
      ensures Valid() && current == cur && Changed(old(nodes), acts) && log == old(log) + acts && Silent(acts)
      ensures Dids(acts) == script
      ensures forall c :: c in nodes && c !in old(nodes) ==> fresh(c)
      ensures forall c :: Dropped(c) in acts ==> c in old(registered) || fresh(c)
    {
      hide Linked, Counted, FlagOf, Dids;
      acts := [];
      NoFlags();
      DidsAppend([], []);
      for i := 0 to |script|
        invariant Valid() && current == cur && Changed(old(nodes), acts) && log == old(log) + acts && Silent(acts)
        invariant Dids(acts) == script[..i]
        invariant forall c :: c in nodes && c !in old(nodes) ==> fresh(c)
        invariant forall c :: Dropped(c) in acts ==> c in old(registered) || fresh(c)
      {
        ghost var before := acts;
        ghost var more := RunAct(script[i], cur);
        FlagsOn(before, more);
        DidsAppend(before, more);
        acts := before + more;
      }
      assert script[..|script|] == script;
    }

    method RunCallback(script: seq<Action>, cur: Ctx, write: bool) returns (ghost acts: seq<Happening>)
      requires Valid() && current == cur
      modifies this, nodes
      ensures Valid() && current == cur && Changed(old(nodes), acts)
      ensures log == old(log) + [Called(cur, write)] + acts && Silent(acts) && Dids(acts) == script
      ensures forall c :: c in nodes && c !in old(nodes) ==> fresh(c)
      ensures forall c :: Dropped(c) in acts ==> c in old(registered) || fresh(c)
    {
      hide Linked, Counted, FlagOf;
      Note(Called(cur, write));
      acts := RunActs(script, cur);
    }

    /** The entry's read or write callback, if the entry is watched for that by now and ready. */
    method Offer(mfd: Ctx, write: bool, ready: set<int>, script: seq<seq<Action>>, n: nat)
      returns (m: nat, ghost acts: seq<Happening>)
      requires Valid() && current == mfd
      modifies this, nodes
      ensures Valid() && current == mfd && Changed(old(nodes), acts) && Silent(acts)
      ensures log == old(log) + Offered(mfd, write, old(if write then mfd.wantWrite else mfd.wantRead), ready, acts)
      ensures if old(if write then mfd.wantWrite else mfd.wantRead) && mfd.fd in ready then
                Dids(acts) == ActsOf(script, n) && m == n + 1
              else acts == [] && Dids(acts) == [] && m == n
      ensures forall c :: c in nodes && c !in old(nodes) ==> fresh(c)
      ensures forall c :: Dropped(c) in acts ==> c in old(registered) || fresh(c)
    {
      hide Linked, Counted, FlagOf;
      NoFlags();
      m, acts := n, [];
      var wanted := if write then mfd.wantWrite else mfd.wantRead;
      Note(Tested(mfd, write, wanted));
      if wanted && mfd.fd in ready {
        acts := RunCallback(if m < |script| then script[m] else [], mfd, write);
        m := m + 1;
      }
    }

    /** The callbacks of one visit: the read callback if the descriptor is watched and ready, then
        the write callback by the flags as they are by then. */
    method Visit(mfd: Ctx, rfds: set<int>, wfds: set<int>, script: seq<seq<Action>>, n: nat)
      returns (m: nat, ghost v: Visited)
      requires Valid() && current == mfd
      modifies this, nodes
      ensures Valid() && current == mfd && v.entry == mfd && log == old(log) + Trace(v, rfds, wfds)
      ensures Changed(old(nodes), v.readActs + v.writeActs) && Silent(v.readActs) && Silent(v.writeActs)
      ensures v.wantRead == old(mfd.wantRead) && v.wantWrite == FlagOf(v.readActs, mfd, true, old(mfd.wantWrite))
      ensures Dropped(mfd) in v.readActs ==> !v.wantWrite
      ensures Scripted(v, rfds, wfds, script) && v.first == n && m == n + CallsOf(v, rfds, wfds)
      ensures forall c :: c in nodes && c !in old(nodes) ==> fresh(c)
    {
      hide Linked, Counted, FlagOf, Offered, Silent, Scripted, CallsOf, Trace, Dids, ActsOf;
      ghost var first, second;
      m, first := Offer(mfd, false, rfds, script, n);
      ghost var wanted := mfd.wantWrite;
      DroppedUnwatched(mfd);
      m, second := Offer(mfd, true, wfds, script, m);
      FlagsOn(first, second);
      v := Visited(mfd, old(mfd.wantRead), first, wanted, second, n);
      VisitIs(v, rfds, wfds, script);
      assert old(log) + Offered(mfd, false, v.wantRead, rfds, first) + Offered(mfd, true, wanted, wfds, second) ==
        old(log) + Trace(v, rfds, wfds);
    }

    lemma DroppedUnwatched(c: Ctx)
      requires Valid() && c in nodes
      ensures c !in registered ==> !c.wantWrite
    {
    }

    /** One turn of the loop.  The entry is kept alive by its reference until its successor has been
        read, so the successor is whatever comes after it once the callbacks have run. */
    method VisitOne(mfd: Ctx, rfds: set<int>, wfds: set<int>, script: seq<seq<Action>>, n: nat)
      returns (next: Ctx?, m: nat, ghost v: Visited)
      requires Valid() && current == null && mfd in nodes
      modifies this, nodes
      ensures Valid() && current == null && nextKey >= old(nextKey) && v.entry == mfd
      ensures log == old(log) + Trace(v, rfds, wfds)
      ensures Scripted(v, rfds, wfds, script) && v.first == n && m == n + CallsOf(v, rfds, wfds)
      ensures CallsRight(log[|old(log)|..], mfd, v.wantRead && mfd.fd in rfds, v.wantWrite && mfd.fd in wfds)
      ensures CallsOnly(log[|old(log)|..], mfd)
      ensures v.wantRead == old(mfd.wantRead) && v.wantWrite == FlagOf(v.readActs, mfd, true, old(mfd.wantWrite))
      ensures Dropped(mfd) in v.readActs ==> !v.wantWrite
      ensures forall c :: c in old(nodes) ==> (c in nodes <==> !DroppedBy(v, c))
      ensures forall c :: c in old(nodes) && c in nodes ==>
        && c.wantRead == FlagOf(v.readActs + v.writeActs, c, false, old(c.wantRead))
        && c.wantWrite == FlagOf(v.readActs + v.writeActs, c, true, old(c.wantWrite))
      ensures forall c :: c in nodes && c !in old(nodes) ==> fresh(c) && c.key >= old(nextKey)
      ensures next != null ==> next in nodes && next.key < mfd.key
      ensures forall c :: c in nodes && c.key < mfd.key ==> c.key <= Mark(next)
    {
      hide FlagOf, CallsRight, Scripted, CallsOf;
      NothingElseRegistered();
      Ref(mfd);
      m, v := Visit(mfd, rfds, wfds, script, n);
      next := mfd.next;
      assert NextOk(mfd) && PrevOk(mfd);
      Unref(mfd, true);
      NothingElseRegistered();
      TraceCalls(v, rfds, wfds);
      assert log[|old(log)|..] == Trace(v, rfds, wfds);
    }

    lemma NothingElseRegistered()
      requires Valid() && current == null
      ensures nodes == registered
    {
    }

    lemma OneFlag(h: Happening)
      ensures forall c: Ctx, write, was ::
        (FlagOf([h], c, write, was) <==>
          if h.Flagged? && h.entry == c then (if write then h.write else h.read) else was)
    {
      assert [h][..0] == [];
    }

    lemma NoFlags()
      ensures forall c: Ctx, write, was :: FlagOf([], c, write, was) == was
    {
    }

    /** Flags after some acts and then some more. */
    lemma FlagsOn(a: seq<Happening>, b: seq<Happening>)
      ensures forall c: Ctx, write, was :: FlagOf(a + b, c, write, was) == FlagOf(b, c, write, FlagOf(a, c, write, was))
    {
      forall c: Ctx, write, was
        ensures FlagOf(a + b, c, write, was) == FlagOf(b, c, write, FlagOf(a, c, write, was))
      {
        FlagOfAppend(a, b, c, write, was);
      }
    }

    /** One pass over the list, `script` being what successive callbacks do.  Of what really happened,
        by the log: every entry visited was there at the start, and none twice; every entry there at
        the start is visited, unless it was unregistered before its turn; a callback of an entry runs,
        once and the read callback first, exactly if the entry is visited, ready, and watched for that
        by then, by what the callbacks before have done to its flags; and so none runs once the entry
        is unregistered.  The list stays well formed, and the pass ends. */
    method Dispatch(rfds: set<int>, wfds: set<int>, script: seq<seq<Action>>) returns (ghost visits: seq<Visited>)
      requires Valid() && current == null
      modifies this, nodes
      ensures Valid() && current == null
      ensures log == old(log) + Traces(visits, rfds, wfds)
      ensures Passed(old(nodes), visits, -1)
      ensures Recorded(visits, rfds, wfds, log[|old(log)|..])
      ensures forall i, c :: 0 <= i < |visits| && c in old(nodes) && visits[i].entry == c ==>
        && visits[i].wantRead == FlagOf(AllActs(visits[..i]), c, false, old(c.wantRead))
        && visits[i].wantWrite == FlagOf(AllActs(visits[..i]) + visits[i].readActs, c, true, old(c.wantWrite))
      ensures forall c :: c in old(nodes) ==> (c in nodes <==> !DroppedIn(visits, c))
      ensures forall i :: 0 <= i < |visits| ==>
        Scripted(visits[i], rfds, wfds, script) && visits[i].first == CallCount(visits[..i], rfds, wfds)
    {
      hide Scripted, CallsOf, CallCount;
      hide Linked, Counted, FlagOf, Traces, Trace, AllActs, Recorded, CallsRight;
      hide Passed, DroppedIn, DroppedBy, VisitedIn;
      HeadIsNewest();
      NothingVisited(nodes, rfds, wfds);
      NoFlags();
      ghost var start, bound := nodes, nextKey;
      visits := [];
      var mfd := head;
      var n := 0;
      while mfd != null
        invariant Valid() && current == null && nextKey >= bound
        invariant log == old(log) + Traces(visits, rfds, wfds)
        invariant forall c :: c in nodes && c !in start ==> fresh(c) && c.key >= bound
        invariant mfd != null ==> mfd in nodes && mfd in start
        invariant forall c :: c in start ==> (c in nodes <==> !DroppedIn(visits, c))
        invariant Passed(start, visits, Mark(mfd))
        invariant forall c :: c in start ==> c.key < bound
        invariant forall c :: c in start && c in nodes ==>
          && c.wantRead == FlagOf(AllActs(visits), c, false, old(c.wantRead))
          && c.wantWrite == FlagOf(AllActs(visits), c, true, old(c.wantWrite))
        invariant Recorded(visits, rfds, wfds, Traces(visits, rfds, wfds))
        invariant forall i, c :: 0 <= i < |visits| && c in start && visits[i].entry == c ==>
          && visits[i].wantRead == FlagOf(AllActs(visits[..i]), c, false, old(c.wantRead))
          && visits[i].wantWrite == FlagOf(AllActs(visits[..i]) + visits[i].readActs, c, true, old(c.wantWrite))
        invariant n == CallCount(visits, rfds, wfds)
        invariant forall i :: 0 <= i < |visits| ==>
          Scripted(visits[i], rfds, wfds, script) && visits[i].first == CallCount(visits[..i], rfds, wfds)
        decreases Mark(mfd) + 1
      {
        ghost var v := visits;
        var next;
        ghost var last;
        next, n, last := VisitOne(mfd, rfds, wfds, script, n);
        visits := visits + [last];
        TracesSnoc(v, last, rfds, wfds);
        PrefixSnoc(v, last);
        FlagsOn(AllActs(v), last.readActs + last.writeActs);
        FlagsOn(AllActs(v), last.readActs);
        DropsSnoc(v, last);
        NotYetVisited(start, v, mfd);
        CallsNext(v, last, rfds, wfds);
        Advance(start, v, last, mfd, next);
        mfd := next;
      }
      assert log[|old(log)|..] == Traces(visits, rfds, wfds);
    }

    lemma NotYetVisited(start: set<Ctx>, visits: seq<Visited>, mfd: Ctx)
      requires Passed(start, visits, mfd.key)
      ensures !VisitedIn(visits, mfd)
    {
    }

    lemma HeadIsNewest()
      requires Valid()
      ensures if head == null then nodes == {} else head in nodes && forall d :: d in nodes ==> d.key <= head.key
      ensures forall c :: c in nodes ==> c.key < nextKey
      ensures forall c, d :: c in nodes && d in nodes && c.key == d.key ==> c == d
    {
      if head != null {
        assert PrevOk(head);
      }
    }

    /** After a visit, everything between the entry visited and the next one is accounted for. */
    lemma Advance(start: set<Ctx>, visits: seq<Visited>, v: Visited, mfd: Ctx, next: Ctx?)
      requires Passed(start, visits, mfd.key) && mfd in start && !DroppedIn(visits, mfd)
      requires v.entry == mfd && (Dropped(mfd) in v.readActs ==> !v.wantWrite)
      requires forall c, d :: c in start && d in start && c.key == d.key ==> c == d
      requires forall c :: c in start && Mark(next) < c.key <= mfd.key ==>
        c == mfd || DroppedIn(visits, c) || DroppedBy(v, c)
      requires next != null ==> next.key < mfd.key
      ensures Passed(start, visits + [v], Mark(next))
    {
      hide DroppedBy;
      var all := visits + [v];
      forall c | c in start && c.key > Mark(next)
        ensures VisitedIn(all, c) || DroppedInTime(all, c)
      {
        if c.key > mfd.key {
          if VisitedIn(visits, c) {
            var i :| 0 <= i < |visits| && visits[i].entry == c;
            assert all[i].entry == c;
          } else {
            var i :| 0 <= i < |visits| && DroppedBy(visits[i], c) && visits[i].entry.key > c.key;
            assert all[i] == visits[i];
          }
        } else if c == mfd {
          assert all[|visits|].entry == c;
        } else if DroppedBy(v, c) {
          assert all[|visits|] == v;
        } else {
          var i :| 0 <= i < |visits| && DroppedBy(visits[i], c);
          assert all[i] == visits[i];
        }
      }
    }
  }

  /** What is on record: a flag is tested, a callback is called; what it is to do, and what that does to
      an entry's watches or registration. */
  datatype Happening =
    | Tested(entry: Ctx, write: bool, wanted: bool)
    | Called(entry: Ctx, write: bool)
    | Did(a: Action)
    | Flagged(entry: Ctx, read: bool, write: bool)
    | Dropped(entry: Ctx)

  /** One visit: the flags as they were tested, what each of the callbacks did, and how many callbacks
      had been called before. */
  datatype Visited = Visited(
    entry: Ctx, wantRead: bool, readActs: seq<Happening>, wantWrite: bool, writeActs: seq<Happening>, first: nat)

  ghost predicate Reads(v: Visited, rfds: set<int>) {
    v.wantRead && v.entry.fd in rfds
  }

  ghost predicate Writes(v: Visited, wfds: set<int>) {
    v.wantWrite && v.entry.fd in wfds
  }

  ghost function CallsOf(v: Visited, rfds: set<int>, wfds: set<int>): nat {
    (if Reads(v, rfds) then 1 else 0) + if Writes(v, wfds) then 1 else 0
  }

  ghost function CallCount(visits: seq<Visited>, rfds: set<int>, wfds: set<int>): nat {
    if visits == [] then 0
    else CallCount(visits[..|visits| - 1], rfds, wfds) + CallsOf(visits[|visits| - 1], rfds, wfds)
  }

  function ActsOf(script: seq<seq<Action>>, n: nat): seq<Action> {
    if n < |script| then script[n] else []
  }

  /** What an action does to the entry it names. */
  ghost function Deed(a: Action, c: Ctx, registered: bool, read: bool, write: bool): seq<Happening> {
    match a
    case RegisterFd(_) => []
    case UnregisterAt(_) => if registered then [Flagged(c, false, false), Dropped(c)] else []
    case WatchAt(_, r, w) => if registered then [Flagged(c, read || r, write || w)] else []
    case UnwatchAt(_, r, w) => [Flagged(c, read && !r, write && !w)]
  }

  /** What is on record as done. */
  ghost function Dids(acts: seq<Happening>): seq<Action> {
    if acts == [] then []
    else Dids(acts[..|acts| - 1]) + if acts[|acts| - 1].Did? then [acts[|acts| - 1].a] else []
  }

  lemma {:induction false} DidsAppend(a: seq<Happening>, b: seq<Happening>)
    ensures Dids(a + b) == Dids(a) + Dids(b) && Dids([]) == []
    decreases |b|
  {
    if b == [] {
      assert a + b == a;
    } else {
      assert (a + b)[..|a + b| - 1] == a + b[..|b| - 1];
      DidsAppend(a, b[..|b| - 1]);
    }
  }

  lemma {:induction false} DidsOne(a: Action, acts: seq<Happening>)
    requires acts != [] && acts[0] == Did(a) && forall i :: 1 <= i < |acts| ==> !acts[i].Did?
    ensures Dids(acts) == [a]
    decreases |acts|
  {
    if |acts| == 1 {
      assert acts[..0] == [];
    } else {
      DidsOne(a, acts[..|acts| - 1]);
    }
  }

  /** Each callback of a visit does its part of the script. */
  ghost predicate Scripted(v: Visited, rfds: set<int>, wfds: set<int>, script: seq<seq<Action>>) {
    && Dids(v.readActs) == (if Reads(v, rfds) then ActsOf(script, v.first) else [])
    && Dids(v.writeActs) ==
       if Writes(v, wfds) then ActsOf(script, v.first + if Reads(v, rfds) then 1 else 0) else []
  }

  /** Nothing but what callbacks do. */
  ghost predicate Silent(acts: seq<Happening>) {
    forall i :: 0 <= i < |acts| ==> acts[i].Did? || acts[i].Flagged? || acts[i].Dropped?
  }

  /** What an entry is watched for after some acts, if it was `was` before. */
  ghost function FlagOf(acts: seq<Happening>, c: Ctx, write: bool, was: bool): bool {
    if acts == [] then was
    else
      var last := acts[|acts| - 1];
      if last.Flagged? && last.entry == c then (if write then last.write else last.read)
      else FlagOf(acts[..|acts| - 1], c, write, was)
  }

  lemma {:induction false} FlagOfAppend(a: seq<Happening>, b: seq<Happening>, c: Ctx, write: bool, was: bool)
    ensures FlagOf(a + b, c, write, was) == FlagOf(b, c, write, FlagOf(a, c, write, was))
    decreases |b|
  {
    if b == [] {
      assert a + b == a;
    } else {
      assert (a + b)[..|a + b| - 1] == a + b[..|b| - 1];
      FlagOfAppend(a, b[..|b| - 1], c, write, was);
    }
  }

  ghost predicate DroppedBy(v: Visited, c: Ctx) {
    Dropped(c) in v.readActs || Dropped(c) in v.writeActs
  }

  /** The callbacks of `c` on record: exactly these, each once, and the read callback first. */
  ghost predicate CallsRight(log: seq<Happening>, c: Ctx, read: bool, write: bool) {
    && (Called(c, false) in log <==> read)
    && (Called(c, true) in log <==> write)
    && forall i: nat, j: nat ::
         i < j < |log| && log[i].Called? && log[j].Called? && log[i].entry == c == log[j].entry ==>
           !log[i].write && log[j].write
  }

  lemma VisitIs(v: Visited, rfds: set<int>, wfds: set<int>, script: seq<seq<Action>>)
    ensures Trace(v, rfds, wfds) ==
      Offered(v.entry, false, v.wantRead, rfds, v.readActs) + Offered(v.entry, true, v.wantWrite, wfds, v.writeActs)
    ensures CallsOf(v, rfds, wfds) ==
      (if v.wantRead && v.entry.fd in rfds then 1 else 0) + if v.wantWrite && v.entry.fd in wfds then 1 else 0
    ensures Scripted(v, rfds, wfds, script) <==>
      && Dids(v.readActs) == (if v.wantRead && v.entry.fd in rfds then ActsOf(script, v.first) else [])
      && Dids(v.writeActs) ==
         if v.wantWrite && v.entry.fd in wfds then
           ActsOf(script, v.first + if v.wantRead && v.entry.fd in rfds then 1 else 0)
         else []
  {
  }

  /** What is on record of one half of a visit. */
  ghost function Offered(c: Ctx, write: bool, wanted: bool, ready: set<int>, acts: seq<Happening>): seq<Happening> {
    [Tested(c, write, wanted)] + if wanted && c.fd in ready then [Called(c, write)] + acts else []
  }

  ghost function Trace(v: Visited, rfds: set<int>, wfds: set<int>): seq<Happening> {
    Offered(v.entry, false, v.wantRead, rfds, v.readActs) +
    Offered(v.entry, true, v.wantWrite, wfds, v.writeActs)
  }

  ghost function Traces(visits: seq<Visited>, rfds: set<int>, wfds: set<int>): seq<Happening> {
    if visits == [] then []
    else Traces(visits[..|visits| - 1], rfds, wfds) + Trace(visits[|visits| - 1], rfds, wfds)
  }

  /** What the callbacks of some visits did. */
  ghost function AllActs(visits: seq<Visited>): seq<Happening> {
    if visits == [] then []
    else
      var v := visits[|visits| - 1];
      AllActs(visits[..|visits| - 1]) + (v.readActs + v.writeActs)
  }

  lemma OfferedCalls(c: Ctx, write: bool, wanted: bool, ready: set<int>, acts: seq<Happening>)
    requires Silent(acts)
    ensures var seg := Offered(c, write, wanted, ready, acts);
      && (forall i :: 0 <= i < |seg| && seg[i].Called? ==> i == 1 && seg[i] == Called(c, write))
      && (Called(c, write) in seg <==> wanted && c.fd in ready)
  {
    var seg := Offered(c, write, wanted, ready, acts);
    if wanted && c.fd in ready {
      assert seg[1] == Called(c, write);
    }
  }

  /** The callbacks on record of one visit. */
  lemma TraceCalls(v: Visited, rfds: set<int>, wfds: set<int>)
    requires Silent(v.readActs) && Silent(v.writeActs)
    ensures CallsRight(Trace(v, rfds, wfds), v.entry,
                       v.wantRead && v.entry.fd in rfds, v.wantWrite && v.entry.fd in wfds)
    ensures CallsOnly(Trace(v, rfds, wfds), v.entry)
  {
    hide Silent, Offered;
    OfferedCalls(v.entry, false, v.wantRead, rfds, v.readActs);
    OfferedCalls(v.entry, true, v.wantWrite, wfds, v.writeActs);
    var a := Offered(v.entry, false, v.wantRead, rfds, v.readActs);
    var b := Offered(v.entry, true, v.wantWrite, wfds, v.writeActs);
    assert Trace(v, rfds, wfds) == a + b;
  }

  /** The callbacks on record of the i-th visit, among all. */
  ghost predicate CallsSo(visits: seq<Visited>, i: nat, rfds: set<int>, wfds: set<int>, log: seq<Happening>)
    requires i < |visits|
  {
    var v := visits[i];
    CallsRight(log, v.entry, v.wantRead && v.entry.fd in rfds, v.wantWrite && v.entry.fd in wfds)
  }

  /** No callback but those of `c`. */
  ghost predicate CallsOnly(log: seq<Happening>, c: Ctx) {
    forall k :: 0 <= k < |log| && log[k].Called? ==> log[k].entry == c
  }

  /** On record are exactly the callbacks of these visits. */
  ghost predicate Recorded(visits: seq<Visited>, rfds: set<int>, wfds: set<int>, log: seq<Happening>) {
    && (forall i :: 0 <= i < |visits| ==> CallsSo(visits, i, rfds, wfds, log))
    && (forall k :: 0 <= k < |log| && log[k].Called? ==> VisitedIn(visits, log[k].entry))
  }

  /** A record that says nothing of `c`, in front or behind. */
  lemma CallsJoin(pre: seq<Happening>, a: seq<Happening>, post: seq<Happening>, c: Ctx, read: bool, write: bool)
    requires CallsRight(a, c, read, write) && forall w :: Called(c, w) !in pre && Called(c, w) !in post
    ensures CallsRight(pre + a + post, c, read, write)
  {
    var log := pre + a + post;
    forall i | 0 <= i < |log| && log[i].Called? && log[i].entry == c
      ensures |pre| <= i < |pre| + |a| && log[i] == a[i - |pre|]
    {
      assert log[i] == Called(c, log[i].write);
      assert log[i] !in pre && log[i] !in post;
    }
    assert forall i :: 0 <= i < |a| ==> log[|pre| + i] == a[i];
  }

  lemma TracesSnoc(visits: seq<Visited>, v: Visited, rfds: set<int>, wfds: set<int>)
    ensures Traces(visits + [v], rfds, wfds) == Traces(visits, rfds, wfds) + Trace(v, rfds, wfds)
    ensures AllActs(visits + [v]) == AllActs(visits) + (v.readActs + v.writeActs)
    ensures CallCount(visits + [v], rfds, wfds) == CallCount(visits, rfds, wfds) + CallsOf(v, rfds, wfds)
  {
    hide Trace, CallsOf;
    assert (visits + [v])[..|visits|] == visits;
  }

  lemma PrefixSnoc(visits: seq<Visited>, v: Visited)
    ensures forall i :: 0 <= i <= |visits| ==> (visits + [v])[..i] == visits[..i]
    ensures visits[..|visits|] == visits
  {
  }

  /** One more visit leaves the records of the others as they are. */
  lemma CallsNext(visits: seq<Visited>, v: Visited, rfds: set<int>, wfds: set<int>)
    requires !VisitedIn(visits, v.entry)
    requires Recorded(visits, rfds, wfds, Traces(visits, rfds, wfds))
    requires var t := Trace(v, rfds, wfds);
      && CallsRight(t, v.entry, v.wantRead && v.entry.fd in rfds, v.wantWrite && v.entry.fd in wfds)
      && CallsOnly(t, v.entry)
    ensures Recorded(visits + [v], rfds, wfds, Traces(visits, rfds, wfds) + Trace(v, rfds, wfds))
  {
    hide CallsRight, Traces, Trace;
    var all, a, b: seq<Happening> := visits + [v], Traces(visits, rfds, wfds), Trace(v, rfds, wfds);
    forall i | 0 <= i < |all|
      ensures CallsSo(all, i, rfds, wfds, a + b)
    {
      var x := all[i];
      if i < |visits| {
        assert CallsSo(visits, i, rfds, wfds, a);
        assert x.entry != v.entry;
        CallsJoin([], a, b, x.entry, x.wantRead && x.entry.fd in rfds, x.wantWrite && x.entry.fd in wfds);
        assert [] + a + b == a + b;
      } else {
        CallsJoin(a, b, [], x.entry, x.wantRead && x.entry.fd in rfds, x.wantWrite && x.entry.fd in wfds);
        assert a + b + [] == a + b;
      }
    }
    var log: seq<Happening> := a + b;
    forall k | 0 <= k < |log| && log[k].Called?
      ensures VisitedIn(all, log[k].entry)
    {
      var h := log[k];
      if k < |a| {
        assert a[k] == h;
        var i :| 0 <= i < |visits| && visits[i].entry == h.entry;
        assert all[i].entry == h.entry;
      } else {
        assert b[k - |a|] == h;
        assert all[|visits|] == v;
      }
    }
  }

  lemma NothingVisited(start: set<Ctx>, rfds: set<int>, wfds: set<int>)
    ensures Traces([], rfds, wfds) == [] && AllActs([]) == [] && forall c :: !DroppedIn([], c)
    ensures Recorded([], rfds, wfds, []) && CallCount([], rfds, wfds) == 0
    ensures forall mark :: (forall c :: c in start ==> c.key <= mark) ==> Passed(start, [], mark)
  {
  }

  /** Position of the walk: entries newer than this have been passed. */
  ghost function Mark(mfd: Ctx?): int {
    if mfd == null then -1 else mfd.key
  }

  ghost predicate VisitedIn(visits: seq<Visited>, c: Ctx) {
    exists i :: 0 <= i < |visits| && visits[i].entry == c
  }

  ghost predicate DroppedIn(visits: seq<Visited>, c: Ctx) {
    exists i :: 0 <= i < |visits| && DroppedBy(visits[i], c)
  }

  /** Unregistered before its turn: during the visit of an entry that is in front of it. */
  ghost predicate DroppedInTime(visits: seq<Visited>, c: Ctx) {
    exists i :: 0 <= i < |visits| && DroppedBy(visits[i], c) && visits[i].entry.key > c.key
  }

  lemma DropsSnoc(visits: seq<Visited>, v: Visited)
    ensures forall c :: DroppedIn(visits + [v], c) <==> DroppedIn(visits, c) || DroppedBy(v, c)
  {
    var all := visits + [v];
    forall c
      ensures DroppedIn(all, c) <==> DroppedIn(visits, c) || DroppedBy(v, c)
    {
      assert all[|visits|] == v;
      if DroppedIn(visits, c) {
        var i :| 0 <= i < |visits| && DroppedBy(visits[i], c);
        assert all[i] == visits[i];
      }
    }
  }

  /** How far a pass over the entries `start` has come, in list order. */
  ghost predicate Passed(start: set<Ctx>, visits: seq<Visited>, mark: int) {
    && (forall i :: 0 <= i < |visits| ==> visits[i].entry in start && visits[i].entry.key > mark)
    && (forall i, j :: 0 <= i < j < |visits| ==> visits[i].entry.key > visits[j].entry.key)
    && (forall i, j :: 0 <= i < j < |visits| ==> !DroppedBy(visits[i], visits[j].entry))
    && (forall i :: 0 <= i < |visits| && Dropped(visits[i].entry) in visits[i].readActs ==> !visits[i].wantWrite)
    && (forall c :: c in start && c.key > mark ==> VisitedIn(visits, c) || DroppedInTime(visits, c))
  }

  /** What a callback may do to the list; entries are named by their position at that moment. */
  datatype Action =
    | RegisterFd(fd: int)
    | UnregisterAt(k: nat)
    | WatchAt(k: nat, read: bool, write: bool)
    | UnwatchAt(k: nat, read: bool, write: bool)
}
