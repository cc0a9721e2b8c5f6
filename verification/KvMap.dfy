/** The linked-list key-value map of kvmap.c, and its passage through the SETUP message as an array
    of pairs (misc.c). */
module KvMap {
  import opened Base
  import opened Proto

  predicate Unique(ps: seq<KvPair>) {
    forall i, j :: 0 <= i < j < |ps| ==> ps[i].key != ps[j].key
  }

  /** The map that a list of pairs stands for. */
  function ToMap(ps: seq<KvPair>): map<Text, Text> {
    if ps == [] then map[] else ToMap(ps[1..])[ps[0].key := ps[0].value]
  }

  /** Writing pairs one after the other. */
  function Written(m: map<Text, Text>, ps: seq<KvPair>): map<Text, Text> {
    if ps == [] then m else Written(m, ps[..|ps| - 1])[ps[|ps| - 1].key := ps[|ps| - 1].value]
  }

  function Reversed(ps: seq<KvPair>): seq<KvPair> {
    if ps == [] then [] else Reversed(ps[1..]) + [ps[0]]
  }

  lemma {:induction false} MapAt(ps: seq<KvPair>, i: nat)
    requires Unique(ps) && i < |ps|
    ensures ps[i].key in ToMap(ps) && ToMap(ps)[ps[i].key] == ps[i].value
  {
    if i > 0 {
      MapAt(ps[1..], i - 1);
    }
  }

  lemma {:induction false} MapMisses(ps: seq<KvPair>, k: Text)
    requires forall i :: 0 <= i < |ps| ==> ps[i].key != k
    ensures k !in ToMap(ps)
  {
    if ps != [] {
      MapMisses(ps[1..], k);
    }
  }

  /** Overwriting the value at a position is a map update. */
  lemma {:induction false} OverwriteRefines(ps: seq<KvPair>, i: nat, v: Text)
    requires Unique(ps) && i < |ps|
    ensures ToMap(ps[i := KvPair(ps[i].key, v)]) == ToMap(ps)[ps[i].key := v]
    ensures Unique(ps[i := KvPair(ps[i].key, v)])
  {
    var q := ps[i := KvPair(ps[i].key, v)];
    if i == 0 {
      assert q[1..] == ps[1..];
    } else {
      OverwriteRefines(ps[1..], i - 1, v);
      assert q[1..] == ps[1..][i - 1 := KvPair(ps[i].key, v)];
    }
  }

  class Ent {
    const key: Text
    var value: Text
    const next: Ent?

    constructor (key: Text, value: Text, next: Ent?)
      ensures this.key == key && this.value == value && this.next == next
    {
      this.key, this.value, this.next := key, value, next;
    }
  }

  class Map {
    var head: Ent?
    ghost var ents: seq<Ent>
    ghost var pairs: seq<KvPair>

    ghost predicate Valid()
      reads this, ents
    {
      && |ents| == |pairs| && head == After(ents, -1, null) && Unique(pairs)
      && forall i :: 0 <= i < |ents| ==>
           ents[i].next == After(ents, i, null) && ents[i].key == pairs[i].key && ents[i].value == pairs[i].value
    }

    constructor ()
      ensures Valid() && pairs == [] && ents == []
    {
      head, ents, pairs := null, [], [];
    }

    /** The walk along the list: the entry with this key, or none. */
    method Find(key: Text) returns (ent: Ent?, ghost i: nat)
      requires Valid()
      ensures ent != null ==> i < |ents| && ents[i] == ent && pairs[i].key == key
      ensures ent == null ==> forall j :: 0 <= j < |pairs| ==> pairs[j].key != key
    {
      ent, i := head, 0;
      while ent != null
        invariant i <= |ents| && ent == After(ents, i - 1, null)
        invariant forall j :: 0 <= j < i ==> pairs[j].key != key
        decreases |ents| - i
      {
        if ent.key == key {
          return;
        }
        ent, i := ent.next, i + 1;
      }
    }

    /** The value under a key, as the map has it. */
    method Get(key: Text) returns (r: Option<Text>)
      requires Valid()
      ensures r == if key in ToMap(pairs) then Some(ToMap(pairs)[key]) else None
    {
      var ent, i := Find(key);
      if ent != null {
        MapAt(pairs, i);
        r := Some(ent.value);
      } else {
        MapMisses(pairs, key);
        r := None;
      }
    }

    method Overwrite(ent: Ent, ghost i: nat, value: Text)
      requires Valid() && i < |ents| && ents[i] == ent
      modifies this`pairs, ent
      ensures Valid() && ents == old(ents) && pairs == old(pairs)[i := KvPair(old(pairs)[i].key, value)]
    {
      hide ToMap;
      assert forall j :: 0 <= j < |ents| && ents[j] == ent ==> pairs[j].key == pairs[i].key;
      OverwriteRefines(pairs, i, value);
      ent.value := value;
      pairs := pairs[i := KvPair(pairs[i].key, value)];
    }

    method Prepend(key: Text, value: Text)
      requires Valid() && forall j :: 0 <= j < |pairs| ==> pairs[j].key != key
      modifies this
      ensures Valid() && pairs == [KvPair(key, value)] + old(pairs)
      ensures |ents| > 0 && fresh(ents[0]) && ents[1..] == old(ents)
    {
      var e := new Ent(key, value, head);
      head := e;
      ents, pairs := [e] + ents, [KvPair(key, value)] + pairs;
    }

    /** Replaces the value under a key, or adds a new entry in front: one map update either way. */
    method Put(key: Text, value: Text)
      requires Valid()
      modifies this, ents
      ensures Valid() && ToMap(pairs) == ToMap(old(pairs))[key := value]
      ensures forall j :: 0 <= j < |ents| ==> ents[j] in old(ents) || fresh(ents[j])
      ensures (forall j :: 0 <= j < |old(pairs)| ==> old(pairs)[j].key != key) ==>
        pairs == [KvPair(key, value)] + old(pairs)
    {
      hide ToMap;
      var ent, i := Find(key);
      if ent != null {
        OverwriteRefines(pairs, i, value);
        Overwrite(ent, i, value);
      } else {
        Prepend(key, value);
        PrependRefines(old(pairs), KvPair(key, value));
        assert ents == [ents[0]] + old(ents);
      }
    }

    /** All pairs, in list order: the array that goes into SETUP. */
    method Flatten() returns (ps: seq<KvPair>)
      requires Valid()
      ensures ps == pairs && Unique(ps)
    {
      ps := [];
      var ent := head;
      ghost var i := 0;
      while ent != null
        invariant i <= |ents| && ent == After(ents, i - 1, null) && ps == pairs[..i]
        decreases |ents| - i
      {
        ps := ps + [KvPair(ent.key, ent.value)];
        ent := ent.next;
        i := i + 1;
      }
    }
  }

  /** Rebuilds a map from pairs, received from anywhere: later pairs win, and a list without
      duplicate keys comes out in reverse order. */
  method Unflatten(ps: seq<KvPair>) returns (kvm: Map)
    ensures kvm.Valid() && fresh(kvm) && ToMap(kvm.pairs) == Written(map[], ps)
    ensures Unique(ps) ==> kvm.pairs == Reversed(ps)
  {
    hide ToMap, Written, Reversed, Unique;
    kvm := new Map();
    NoPairs();
    assert ps[..0] == [];
    for i := 0 to |ps|
      invariant kvm.Valid() && fresh(kvm) && (forall j :: 0 <= j < |kvm.ents| ==> fresh(kvm.ents[j]))
      invariant ToMap(kvm.pairs) == Written(map[], ps[..i])
      invariant Unique(ps) ==> kvm.pairs == Reversed(ps[..i])
    {
      OneMore(ps, i);
      kvm.Put(ps[i].key, ps[i].value);
    }
    assert ps[..|ps|] == ps;
  }

  lemma NoPairs()
    ensures ToMap([]) == Written(map[], []) && Reversed([]) == []
  {
  }

  /** What the next pair adds. */
  lemma OneMore(ps: seq<KvPair>, i: nat)
    requires i < |ps|
    ensures Written(map[], ps[..i + 1]) == Written(map[], ps[..i])[ps[i].key := ps[i].value]
    ensures Reversed(ps[..i + 1]) == [ps[i]] + Reversed(ps[..i])
    ensures Unique(ps) ==> forall j :: 0 <= j < |Reversed(ps[..i])| ==> Reversed(ps[..i])[j].key != ps[i].key
  {
    assert ps[..i + 1][..i] == ps[..i];
    assert ps[..i + 1] == ps[..i] + [ps[i]];
    ReversedSnoc(ps[..i], ps[i]);
    ReversedKeys(ps[..i]);
    forall j | Unique(ps) && 0 <= j < |Reversed(ps[..i])|
      ensures Reversed(ps[..i])[j].key != ps[i].key
    {
      assert Reversed(ps[..i])[j] in Reversed(ps[..i]);
    }
  }

  lemma PrependRefines(ps: seq<KvPair>, p: KvPair)
    ensures ToMap([p] + ps) == ToMap(ps)[p.key := p.value]
  {
    assert ([p] + ps)[1..] == ps;
  }

  lemma {:induction false} ReversedKeys(ps: seq<KvPair>)
    ensures forall q :: q in Reversed(ps) ==> q in ps
  {
    if ps != [] {
      ReversedKeys(ps[1..]);
    }
  }

  lemma {:induction false} ReversedSnoc(ps: seq<KvPair>, p: KvPair)
    ensures Reversed(ps + [p]) == [p] + Reversed(ps)
  {
    if ps == [] {
      assert [p][1..] == [];
    } else {
      assert (ps + [p])[1..] == ps[1..] + [p];
      ReversedSnoc(ps[1..], p);
    }
  }

  /** For unique keys, writing the pairs gives the map that the list stands for. */
  lemma {:induction false} WrittenUnique(ps: seq<KvPair>, k: Text)
    requires Unique(ps)
    ensures k in Written(map[], ps) <==> k in ToMap(ps)
    ensures k in ToMap(ps) ==> Written(map[], ps)[k] == ToMap(ps)[k]
    decreases |ps|
  {
    if ps != [] {
      var n := |ps| - 1;
      WrittenUnique(ps[..n], k);
      assert ps == ps[..n] + [ps[n]];
      ToMapSnoc(ps[..n], ps[n]);
    }
  }

  lemma {:induction false} ToMapSnoc(ps: seq<KvPair>, p: KvPair)
    requires forall i :: 0 <= i < |ps| ==> ps[i].key != p.key
    ensures ToMap(ps + [p]) == ToMap(ps)[p.key := p.value]
  {
    if ps == [] {
      assert [p][1..] == [];
    } else {
      assert (ps + [p])[1..] == ps[1..] + [p];
      ToMapSnoc(ps[1..], p);
    }
  }

  /** A map that travels through SETUP answers every lookup as before, although its list comes out
      reversed. */
  method RoundTrip(kvm: Map) returns (copy: Map)
    requires kvm.Valid()
    ensures copy.Valid() && ToMap(copy.pairs) == ToMap(kvm.pairs) && copy.pairs == Reversed(kvm.pairs)
  {
    var ps := kvm.Flatten();
    copy := Unflatten(ps);
    forall k
      ensures k in Written(map[], ps) <==> k in ToMap(ps)
      ensures k in ToMap(ps) ==> Written(map[], ps)[k] == ToMap(ps)[k]
    {
      WrittenUnique(ps, k);
    }
  }
}
