/** The bidirectional dictionary behind the identity resolver
    (TwoWayDict in efb_wechat_slave/vendor/wxpy/utils/puid_map.py): a
    dictionary whose keys and values are both unique, kept together with
    its reverse and with Python's key insertion order. */
module TwoWayDicts {
  import opened Wrappers

  /** The value of a TwoWayDict: its keys in insertion order, the forward
      dictionary and the reverse dictionary. */
  datatype Bimap<K, V> = Bimap(order: seq<K>, fwd: map<K, V>, rev: map<V, K>)

  datatype DictError = KeyError | NotImplementedError

  ghost predicate NoDup<K>(s: seq<K>)
  {
    forall i, j :: 0 <= i < j < |s| ==> s[i] != s[j]
  }

  /** The invariant every TwoWayDict keeps: the order lists each key once,
      and the forward and reverse dictionaries are mutual inverses. */
  ghost predicate Wf<K, V>(b: Bimap<K, V>)
  {
    && NoDup(b.order)
    && (forall k | k in b.order :: k in b.fwd)
    && (forall k | k in b.fwd :: k in b.order)
    && (forall k | k in b.fwd :: b.fwd[k] in b.rev && b.rev[b.fwd[k]] == k)
    && (forall v | v in b.rev :: b.rev[v] in b.fwd && b.fwd[b.rev[v]] == v)
  }

  function Empty<K, V>(): (b: Bimap<K, V>)
    ensures Wf(b)
  {
    Bimap([], map[], map[])
  }

  /** `d.get(k)`. */
  function Lookup<K, V>(b: Bimap<K, V>, k: K): Option<V>
  {
    if k in b.fwd then Some(b.fwd[k]) else None
  }

  /** `d.get_key(v)`. */
  function KeyOf<K, V>(b: Bimap<K, V>, v: V): Option<K>
  {
    if v in b.rev then Some(b.rev[v]) else None
  }

  /** `s` with the element `k` taken out. */
  function Without<K(==)>(s: seq<K>, k: K): (r: seq<K>)
    ensures forall x | x in r :: x in s && x != k
    ensures forall x | x in s && x != k :: x in r
  {
    if s == [] then [] else (if s[0] == k then [] else [s[0]]) + Without(s[1..], k)
  }

  lemma {:induction false} WithoutNoDup<K>(s: seq<K>, k: K)
    ensures NoDup(s) ==> NoDup(Without(s, k))
  {
    if s != [] && NoDup(s) {
      WithoutNoDup(s[1..], k);
      assert s[0] !in s[1..] by {
        forall j | 1 <= j < |s| ensures s[j] != s[0] { }
      }
    }
  }

  /** `del d[k]`: both directions of the pair owned by `k` go. */
  function Deleted<K, V>(b: Bimap<K, V>, k: K): (r: Bimap<K, V>)
    requires k in b.fwd && b.fwd[k] in b.rev
    ensures Wf(b) ==> Wf(r)
  {
    WithoutNoDup(b.order, k);
    Bimap(Without(b.order, k), b.fwd - {k}, b.rev - {b.fwd[k]})
  }

  /** `d.del_value(v)`, written in the source as `del d[d._reversed[v]]`. */
  function ValueDeleted<K, V>(b: Bimap<K, V>, v: V): (r: Bimap<K, V>)
    requires Wf(b) && v in b.rev
    ensures Wf(r)
  {
    Deleted(b, b.rev[v])
  }

  /** Adding a pair whose key and value are both new. */
  function Inserted<K, V>(b: Bimap<K, V>, k: K, v: V): (r: Bimap<K, V>)
    requires Wf(b) && k !in b.fwd && v !in b.rev
    ensures Wf(r)
  {
    var r := Bimap(b.order + [k], b.fwd[k := v], b.rev[v := k]);
    assert NoDup(r.order) by {
      forall i, j | 0 <= i < j < |r.order| ensures r.order[i] != r.order[j] {
        if j == |b.order| { assert r.order[i] == b.order[i]; }
      }
    }
    r
  }

  /** The two deletions `d[k] = v` makes before adding the pair: the pair
      owned by `k`, then the pair owning `v`. Afterwards neither is held, and
      exactly those two keys are gone. */
  function Vacated<K, V>(b: Bimap<K, V>, k: K, v: V): (r: Bimap<K, V>)
    requires Wf(b)
    ensures Wf(r) && k !in r.fwd && v !in r.rev
    ensures r.fwd == b.fwd - {k} - (if v in b.rev then {b.rev[v]} else {})
  {
    var b1 := if k in b.fwd then ValueDeleted(b, b.fwd[k]) else b;
    assert b1.fwd == b.fwd - {k};
    assert v in b1.rev ==> b1.rev[v] == b.rev[v];
    assert v in b1.rev <==> v in b.rev && b.rev[v] != k;
    if v in b1.rev then ValueDeleted(b1, v) else b1
  }

  /** `d[k] = v`: nothing happens when `k` already holds `v`; otherwise the
      pair owned by `k` and the pair owning `v` are deleted and `(k, v)` is
      added at the end of the order. */
  function Assigned<K, V>(b: Bimap<K, V>, k: K, v: V): (r: Bimap<K, V>)
    requires Wf(b)
    ensures Wf(r)
  {
    if Lookup(b, k) == Some(v) then b
    else Inserted(Vacated(b, k, v), k, v)
  }

  /** After `d[k] = v` the two directions agree on the new pair, no other key
      holds `v`, and the value `k` held before has lost its reverse entry. */
  lemma AssignedPairs<K, V>(b: Bimap<K, V>, k: K, v: V)
    requires Wf(b)
    ensures var r := Assigned(b, k, v);
      && Lookup(r, k) == Some(v) && KeyOf(r, v) == Some(k)
      && (forall k' | k' in r.fwd && k' != k :: r.fwd[k'] != v)
      && (k in b.fwd && b.fwd[k] != v ==> b.fwd[k] !in r.rev)
  {
  }

  /** `d[k] = v` touches no pair other than the one `k` owned and the one
      owning `v`, and its keys are exactly the old keys minus the old owner
      of `v`, plus `k`. */
  lemma AssignedFrame<K, V>(b: Bimap<K, V>, k: K, v: V)
    requires Wf(b)
    ensures var r := Assigned(b, k, v);
      && (forall k' | k' in b.fwd && k' != k && b.fwd[k'] != v :: k' in r.fwd && r.fwd[k'] == b.fwd[k'])
      && r.fwd.Keys == (b.fwd.Keys - (if v in b.rev then {b.rev[v]} else {})) + {k}
  {
    var owner: set<K> := if v in b.rev then {b.rev[v]} else {};
    if Lookup(b, k) != Some(v) {
      assert Assigned(b, k, v).fwd == Vacated(b, k, v).fwd[k := v];
      UpdateAfterRemoval(b.fwd, k, owner, v);
    } else {
      assert owner == {k};
      assert b.fwd.Keys == (b.fwd.Keys - owner) + {k};
    }
  }

  /** A map with `k` and the keys of `gone` removed, then `k` set: the keys
      kept hold their values. */
  lemma UpdateAfterRemoval<K, V>(m: map<K, V>, k: K, gone: set<K>, v: V)
    ensures var r := (m - {k} - gone)[k := v];
      && (forall k' | k' in m && k' != k && k' !in gone :: k' in r && r[k'] == m[k'])
      && r.Keys == (m.Keys - gone) + {k}
  {
  }

  /** Assigning the value a key already holds changes nothing. */
  lemma AssignedSame<K, V>(b: Bimap<K, V>, k: K, v: V)
    requires Wf(b) && Lookup(b, k) == Some(v)
    ensures Assigned(b, k, v) == b
  {
  }

  /** `del d[k]` removes `k` and its value from both directions and keeps every other pair. */
  lemma DeletedPairs<K, V>(b: Bimap<K, V>, k: K)
    requires Wf(b) && k in b.fwd
    ensures var r := Deleted(b, k);
      && Lookup(r, k) == None && KeyOf(r, b.fwd[k]) == None
      && (forall k' | k' in b.fwd && k' != k :: Lookup(r, k') == Lookup(b, k'))
      && k !in r.order
  {
  }

  /** `d.del_value(v)` removes the key that owned `v`. */
  lemma ValueDeletedPairs<K, V>(b: Bimap<K, V>, v: V)
    requires Wf(b) && v in b.rev
    ensures var r := ValueDeleted(b, v);
      && KeyOf(r, v) == None && Lookup(r, b.rev[v]) == None
      && r.fwd == b.fwd - {b.rev[v]}
  {
  }

  /** A TwoWayDict object: the fields are updated in place by its methods. */
  class TwoWayDict<K(==), V(==)> {
    var order: seq<K>
    var data: map<K, V>
    var reversed: map<V, K>

    function Model(): Bimap<K, V>
      reads this
    {
      Bimap(order, data, reversed)
    }

    ghost predicate Valid()
      reads this
    {
      Wf(Model())
    }

    constructor ()
      ensures Valid() && Model() == Empty()
    {
      order, data, reversed := [], map[], map[];
    }

    /** A dictionary restored with the given contents (as unpickling does). */
    constructor FromModel(b: Bimap<K, V>)
      requires Wf(b)
      ensures Valid() && Model() == b
    {
      order, data, reversed := b.order, b.fwd, b.rev;
    }

    /** `d.get(k)`. */
    method Get(k: K) returns (r: Option<V>)
      requires Valid()
      ensures r == Lookup(Model(), k)
      ensures r.Some? ==> KeyOf(Model(), r.value) == Some(k)
    {
      r := if k in data then Some(data[k]) else None;
    }

    /** `d.get_key(v)`: the one key holding `v`, if any. */
    method GetKey(v: V) returns (r: Option<K>)
      requires Valid()
      ensures r == KeyOf(Model(), v)
      ensures r.Some? <==> exists k :: k in data && data[k] == v
      ensures r.Some? ==> r.value in data && data[r.value] == v
    {
      r := if v in reversed then Some(reversed[v]) else None;
    }

    /** `del d[k]`; `KeyError` when `k` is absent. */
    method DelItem(k: K) returns (e: Option<DictError>)
      requires Valid()
      modifies this
      ensures Valid()
      ensures e == (if k in old(data) then None else Some(KeyError))
      ensures Model() == if k in old(data) then Deleted(old(Model()), k) else old(Model())
    {
      if k !in data {
        return Some(KeyError);
      }
      reversed := reversed - {data[k]};
      data := data - {k};
      WithoutNoDup(order, k);
      order := Without(order, k);
      e := None;
    }

    /** `d.del_value(v)`; `KeyError` when no key holds `v`. */
    method DelValue(v: V) returns (e: Option<DictError>)
      requires Valid()
      modifies this
      ensures Valid()
      ensures e == (if v in old(reversed) then None else Some(KeyError))
      ensures Model() == if v in old(reversed) then ValueDeleted(old(Model()), v) else old(Model())
    {
      if v !in reversed {
        return Some(KeyError);
      }
      e := DelItem(reversed[v]);
    }

    /** `d[k] = v`. */
    method SetItem(k: K, v: V)
      requires Valid()
      modifies this
      ensures Valid()
      ensures Model() == Assigned(old(Model()), k, v)
    {
      ghost var b := Model();
      var current := Get(k);
      if current != Some(v) {
        if k in data {
          var _ := DelValue(data[k]);
        }
        assert Model() == if k in b.fwd then ValueDeleted(b, b.fwd[k]) else b;
        if v in reversed {
          var _ := DelItem(reversed[v]);
        }
        assert Model() == Vacated(b, k, v);
        reversed := reversed[v := k];
        data := data[k := v];
        order := order + [k];
        assert Model() == Inserted(Vacated(b, k, v), k, v);
      }
    }

    /** `d.update(...)` is refused outright. */
    method Update() returns (e: DictError)
      ensures e == NotImplementedError
    {
      e := NotImplementedError;
    }
  }
}
