/**
 * The dict guard (GuardDict): it watches a fixed sequence of str keys of one
 * namespace and remembers, for each key, the identity of the value it held
 * when the guard was built (or that it was absent), together with the
 * namespace's modification version. A check answers in O(1) while the version
 * is unchanged, and otherwise rescans the watched keys in order.
 */
module DictGuards {
  import opened Host

  /** One watched key and the value identity recorded for it (None: absent). */
  datatype Pair = Pair(key: string, value: Option<Id>)

  /** The value a lookup outcome records: the identity found, or None. */
  function Recorded(l: Lookup<Id>): Option<Id>
  {
    if l.Found? then Some(l.value) else None
  }

  /** The keys of a sequence of pairs, in order. */
  function Keys(pairs: seq<Pair>): (ks: seq<string>)
    ensures |ks| == |pairs|
    ensures forall i :: 0 <= i < |pairs| ==> ks[i] == pairs[i].key
  {
    seq(|pairs|, i requires 0 <= i < |pairs| => pairs[i].key)
  }

  /** check_dict_pair_guard: compare the current value of one watched key with
      the recorded one. A missing key counts as "absent"; only the identity of
      the value matters, never its contents. */
  function PairVerdict(m: Mapping<string, Id>, p: Pair): (r: Status)
    ensures r != Mismatch
    ensures r == Failed <==> p.key in m.faulty
    ensures r == Pass <==> p.key !in m.faulty && Recorded(m.Get(p.key)) == p.value
    ensures r == Invalidated <==> p.key !in m.faulty && Recorded(m.Get(p.key)) != p.value
  {
    match m.Get(p.key)
    case Raised => Failed
    case Missing => if p.value.None? then Pass else Invalidated
    case Found(v) => if p.value == Some(v) then Pass else Invalidated
  }

  /** The full rescan of guard_dict_check: the first pair whose verdict is not
      Pass decides, and the pairs after it are not looked at. */
  function Rescan(m: Mapping<string, Id>, pairs: seq<Pair>): (r: Status)
    ensures r != Mismatch
    ensures r == Pass <==> forall i :: 0 <= i < |pairs| ==> PairVerdict(m, pairs[i]) == Pass
    ensures r != Pass ==> exists i :: 0 <= i < |pairs| && PairVerdict(m, pairs[i]) == r &&
                                     forall j :: 0 <= j < i ==> PairVerdict(m, pairs[j]) == Pass
  {
    if |pairs| == 0 then Pass
    else
      var first := PairVerdict(m, pairs[0]);
      if first != Pass then first
      else
        var r := Rescan(m, pairs[1..]);
        assert forall i :: 1 <= i < |pairs| ==> pairs[1..][i - 1] == pairs[i];
        if r != Pass then
          var k :| 0 <= k < |pairs| - 1 && PairVerdict(m, pairs[1..][k]) == r &&
                   forall j :: 0 <= j < k ==> PairVerdict(m, pairs[1..][j]) == Pass;
          assert PairVerdict(m, pairs[k + 1]) == r;
          r
        else r
  }

  /** The state a guard keeps consistent with its namespace: the cached version
      is never ahead of the namespace, and while they are equal every watched
      key still holds its recorded value. */
  ghost predicate Synced(version: nat, pairs: seq<Pair>, m: Mapping<string, Id>)
  {
    version <= m.version && (version == m.version ==> Rescan(m, pairs) == Pass)
  }

  /** Snapshot one key object: a str key gives a pair recording its current
      value; a non-str key is a TypeError; a lookup that raises propagates. */
  function SnapshotKey(m: Mapping<string, Id>, key: Obj): (r: Result<Pair, Error>)
    ensures r.Ok? <==> key.Str? && key.text !in m.faulty
    ensures r.Ok? ==> r.value.key == key.text && PairVerdict(m, r.value) == Pass
    ensures !key.Str? ==> r == Err(TypeError)
    ensures key.Str? && key.text in m.faulty ==> r == Err(Propagated)
  {
    if !key.Str? then Err(TypeError)
    else
      match m.Get(key.text)
      case Raised => Err(Propagated)
      case Missing => Ok(Pair(key.text, None))
      case Found(v) => Ok(Pair(key.text, Some(v)))
  }

  /** The loop of guard_dict_init_keys: snapshot the keys in order; the first
      key that fails decides the error. */
  function SnapshotKeys(m: Mapping<string, Id>, keys: seq<Obj>): (r: Result<seq<Pair>, Error>)
    ensures r.Ok? <==> forall i :: 0 <= i < |keys| ==> SnapshotKey(m, keys[i]).Ok?
    ensures r.Ok? ==> |r.value| == |keys| &&
                      forall i :: 0 <= i < |keys| ==> Ok(r.value[i]) == SnapshotKey(m, keys[i])
    ensures r.Err? ==> exists i :: 0 <= i < |keys| && SnapshotKey(m, keys[i]) == Err(r.error) &&
                                   forall j :: 0 <= j < i ==> SnapshotKey(m, keys[j]).Ok?
    decreases |keys|
  {
    if |keys| == 0 then Ok([])
    else
      var n := |keys| - 1;
      assert forall i :: 0 <= i < n ==> keys[..n][i] == keys[i];
      match SnapshotKeys(m, keys[..n])
      case Err(e) => Err(e)
      case Ok(ps) =>
        match SnapshotKey(m, keys[n])
        case Err(e) => Err(e)
        case Ok(p) => Ok(ps + [p])
  }

  /** An error met on a prefix of the keys is the error of all the keys. */
  lemma {:induction false} SnapshotErrorExtends(m: Mapping<string, Id>, keys: seq<Obj>, n: nat, e: Error)
    requires n <= |keys|
    requires SnapshotKeys(m, keys[..n]) == Err(e)
    ensures SnapshotKeys(m, keys) == Err(e)
    decreases |keys| - n
  {
    if n < |keys| {
      var k := |keys| - 1;
      assert keys[..k][..n] == keys[..n];
      SnapshotErrorExtends(m, keys[..k], n, e);
      assert keys[..k] == keys[..|keys| - 1];
    } else {
      assert keys[..n] == keys;
    }
  }

  /** What guard_dict_init_keys decides: the keys must be a non-empty tuple of
      str, and each key's current value (or absence) is recorded in order. */
  function BuildPairs(m: Mapping<string, Id>, keys: Obj): (r: Result<seq<Pair>, Error>)
    ensures !keys.Tuple? || |keys.items| == 0 ==> r == Err(TypeError)
    ensures keys.Tuple? && |keys.items| > 0 ==> r == SnapshotKeys(m, keys.items)
    ensures r.Ok? ==> |r.value| >= 1 && Synced(m.version, r.value, m)
  {
    if !keys.Tuple? then Err(TypeError)
    else if |keys.items| == 0 then Err(TypeError)
    else SnapshotKeys(m, keys.items)
  }

  /** A mutation of a key the guard does not watch leaves a rescan's verdict
      as it was: the guard tolerates writes to other keys of the namespace. */
  lemma {:induction false} UnwatchedStoreKeepsVerdict(m: Mapping<string, Id>, pairs: seq<Pair>, key: string, value: Id)
    requires key !in Keys(pairs)
    ensures Rescan(m.Store(key, value), pairs) == Rescan(m, pairs)
  {
    if |pairs| > 0 {
      assert PairVerdict(m.Store(key, value), pairs[0]) == PairVerdict(m, pairs[0]);
      assert Keys(pairs[1..]) == Keys(pairs)[1..];
      UnwatchedStoreKeepsVerdict(m, pairs[1..], key, value);
    }
  }

  /** Binding a watched key to a value of another identity than the recorded
      one is seen by the next rescan, even when the new value is equal. */
  lemma WatchedStoreInvalidates(m: Mapping<string, Id>, pairs: seq<Pair>, i: nat, value: Id)
    requires i < |pairs| && pairs[i].key !in m.faulty
    requires pairs[i].value != Some(value)
    ensures Rescan(m.Store(pairs[i].key, value), pairs) != Pass
  {
    assert PairVerdict(m.Store(pairs[i].key, value), pairs[i]) == Invalidated;
  }

  /** Removing a watched key that had a value is seen by the next rescan. */
  lemma WatchedRemovalInvalidates(m: Mapping<string, Id>, pairs: seq<Pair>, i: nat)
    requires i < |pairs| && pairs[i].key !in m.faulty
    requires pairs[i].value.Some?
    ensures Rescan(m.Remove(pairs[i].key), pairs) != Pass
  {
    assert PairVerdict(m.Remove(pairs[i].key), pairs[i]) == Invalidated;
  }

  /** Every mutation of the namespace keeps a guard's cached state synced. */
  lemma MutationKeepsSynced(version: nat, pairs: seq<Pair>, m: Mapping<string, Id>, key: string, value: Id)
    requires Synced(version, pairs, m)
    ensures Synced(version, pairs, m.Store(key, value))
    ensures Synced(version, pairs, m.Remove(key))
  {
  }

  /** A dict guard (GuardDictObject). */
  class DictGuard {
    var dict: Dict?
    var version: nat
    var pairs: seq<Pair>

    /** A guard as allocated, before Init (guard_dict_new). */
    constructor ()
      ensures dict == null && version == 0 && pairs == []
    {
      dict := null;
      version := 0;
      pairs := [];
    }

    /** A built guard: it watches a namespace, at least one key, and its cache
        is synced with the namespace. */
    ghost predicate Valid()
      reads this, dict
    {
      dict != null && |pairs| >= 1 && Synced(version, pairs, dict.state)
    }

    /** guard_dict_init_keys: on success the guard watches `d` with the pairs
        BuildPairs gives and d's current version; on any error every field is
        left as it was. */
    method Init(d: Dict, keys: Obj) returns (err: Option<Error>)
      modifies this
      ensures BuildPairs(d.state, keys).Ok? ==>
                err == None && dict == d && version == d.state.version &&
                pairs == BuildPairs(d.state, keys).value && Valid()
      ensures BuildPairs(d.state, keys).Err? ==>
                err == Some(BuildPairs(d.state, keys).error) &&
                dict == old(dict) && version == old(version) && pairs == old(pairs)
    {
      if !keys.Tuple? || |keys.items| == 0 {
        return Some(TypeError);
      }
      var items := keys.items;
      var built: seq<Pair> := [];
      var i := 0;
      while i < |items|
        invariant 0 <= i <= |items|
        invariant SnapshotKeys(d.state, items[..i]) == Ok(built)
      {
        var key := items[i];
        assert items[..i + 1][..i] == items[..i];
        if !key.Str? {
          SnapshotErrorExtends(d.state, items, i + 1, TypeError);
          return Some(TypeError);
        }
        var found := d.state.Get(key.text);
        if found.Raised? {
          SnapshotErrorExtends(d.state, items, i + 1, Propagated);
          return Some(Propagated);
        }
        built := built + [Pair(key.text, Recorded(found))];
        i := i + 1;
      }
      assert items[..i] == items;
      dict := d;
      version := d.state.version;
      pairs := built;
      err := None;
    }

    /** guard_dict_check. The verdict is always that of a full rescan: the
        version fast path never changes the answer. The cached version moves
        to the namespace's version only after a rescan in which every pair
        passed. `lookups` counts the keys looked up: none on the fast path,
        and none after the first pair that does not pass. */
    method Check(stack: seq<Obj>, na: int, nk: int) returns (r: Status, ghost lookups: nat)
      requires Valid()
      modifies this`version
      ensures Valid()
      ensures r == Rescan(dict.state, pairs)
      ensures version == (if r == Pass then dict.state.version else old(version))
      ensures old(version) == dict.state.version ==> lookups == 0
      ensures old(version) != dict.state.version ==>
                1 <= lookups <= |pairs| &&
                (r == Pass ==> lookups == |pairs|) &&
                (r != Pass ==> PairVerdict(dict.state, pairs[lookups - 1]) == r) &&
                forall j :: 0 <= j < lookups - 1 ==> PairVerdict(dict.state, pairs[j]) == Pass
    {
      lookups := 0;
      var current := dict.state.version;
      if current != version {
        var i := 0;
        while i < |pairs|
          invariant 0 <= i <= |pairs| && lookups == i
          invariant Rescan(dict.state, pairs[i..]) == Rescan(dict.state, pairs)
          invariant forall j :: 0 <= j < i ==> PairVerdict(dict.state, pairs[j]) == Pass
        {
          var res := PairVerdict(dict.state, pairs[i]);
          lookups := lookups + 1;
          assert pairs[i..][0] == pairs[i] && pairs[i..][1..] == pairs[i + 1..];
          if res != Pass {
            return res, lookups;
          }
          i := i + 1;
        }
        version := current;
      }
      r := Pass;
    }
  }

  /** test_guard_dict (test_fat.py): a guard on `ns['key']` passes; a store to
      another name still passes; rebinding the watched key invalidates it, and
      it stays invalidated since the recorded value is never refreshed. */
  method DictScenario()
  {
    var ns := new Dict(map["key" := 1]);
    var g := new DictGuard();
    var err := g.Init(ns, Tuple([Str("key")]));
    assert err == None && g.pairs == [Pair("key", Some(1))];
    var r, lookups := g.Check([], 0, 0);
    assert r == Pass && lookups == 0;
    ns.SetItem("other", 7);
    r, lookups := g.Check([], 0, 0);
    assert r == Pass && lookups == 1;
    ns.SetItem("key", 2);
    r, lookups := g.Check([], 0, 0);
    assert r == Invalidated;
    r, lookups := g.Check([], 0, 0);
    assert r == Invalidated;
  }
}
