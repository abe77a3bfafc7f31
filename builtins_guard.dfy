/**
 * The builtins guard (GuardBuiltins): a dict guard over the builtins
 * namespace for some names, composed with an "extra" dict guard over the
 * globals for the same names, since a global of the same name would shadow
 * the builtin. Its build-time check compares against a copy of the builtins
 * taken once at startup.
 */
module BuiltinsGuards {
  import opened Host
  import opened DictGuards

  /** The process-wide state of the extension module: the copy of the
      interpreter's builtins taken at startup (`init_builtins`). */
  class ModuleState {
    var initBuiltins: Option<map<string, Id>>

    constructor ()
      ensures initBuiltins == None
    {
      initBuiltins := None;
    }

    /** fat_init_builtins: copy the interpreter's builtins the first time it
        succeeds, and never again. None for `interpBuiltins` stands for a
        missing thread state or unset interpreter builtins (RuntimeError). */
    method InitBuiltins(interpBuiltins: Option<Dict>) returns (err: Option<Error>)
      modifies this
      ensures old(initBuiltins).Some? ==> err == None && initBuiltins == old(initBuiltins)
      ensures old(initBuiltins).None? && interpBuiltins.None? ==>
                err == Some(RuntimeError) && initBuiltins == None
      ensures old(initBuiltins).None? && interpBuiltins.Some? ==>
                err == None && initBuiltins == Some(interpBuiltins.value.state.items)
    {
      if initBuiltins.Some? {
        return None;
      }
      if interpBuiltins.None? {
        return Some(RuntimeError);
      }
      initBuiltins := Some(interpBuiltins.value.state.items);
      err := None;
    }
  }

  /** Some watched name that exists in the startup builtins was recorded with
      another value than the startup one (or recorded as absent). */
  ghost predicate Diverged(startup: map<string, Id>, pairs: seq<Pair>)
  {
    exists i :: 0 <= i < |pairs| && pairs[i].key in startup && pairs[i].value != Some(startup[pairs[i].key])
  }

  /** Some watched name had a value in the globals when the guard was built. */
  ghost predicate Shadowed(pairs: seq<Pair>)
  {
    exists i :: 0 <= i < |pairs| && pairs[i].value.Some?
  }

  /** A name the globals guard recorded as absent is seen by its next rescan
      as soon as the globals bind it: a specialization accepted by InitGuard
      is invalidated by any later global that shadows a watched builtin. */
  lemma NewGlobalInvalidates(globals: Mapping<string, Id>, pairs: seq<Pair>, i: nat, value: Id)
    requires !Shadowed(pairs) && i < |pairs| && pairs[i].key !in globals.faulty
    ensures Rescan(globals.Store(pairs[i].key, value), pairs) != Pass
  {
    WatchedStoreInvalidates(globals, pairs, i, value);
  }

  /** A guard on builtin names (GuardBuiltinsObject). `base` plays the part of
      the dict guard the C structure extends. */
  class BuiltinsGuard {
    const base: DictGuard
    var extra: DictGuard?

    /** A guard as allocated, before Init (guard_builtins_new). */
    constructor ()
      ensures fresh(base) && base.dict == null && base.pairs == [] && extra == null
    {
      base := new DictGuard();
      extra := null;
    }

    /** A built guard: both sub-guards are built, are distinct objects, and
        watch the same names in the same order. */
    ghost predicate Valid()
      reads this, base, base.dict, extra, if extra == null then null else extra.dict
    {
      extra != null && extra != base && base.Valid() && extra.Valid() &&
      Keys(extra.pairs) == Keys(base.pairs)
    }

    /** guard_builtins_init: build the globals guard first, then the builtins
        guard, over the same keys. The first error is returned and leaves this
        guard as it was; on success both sub-guards are replaced. */
    method Init(builtins: Dict, globals: Dict, keys: Obj) returns (err: Option<Error>)
      modifies this, base
      ensures BuildPairs(globals.state, keys).Err? ==>
                err == Some(BuildPairs(globals.state, keys).error) &&
                extra == old(extra) && base.dict == old(base.dict) &&
                base.version == old(base.version) && base.pairs == old(base.pairs)
      ensures BuildPairs(globals.state, keys).Ok? && BuildPairs(builtins.state, keys).Err? ==>
                err == Some(BuildPairs(builtins.state, keys).error) &&
                extra == old(extra) && base.dict == old(base.dict) &&
                base.version == old(base.version) && base.pairs == old(base.pairs)
      ensures BuildPairs(globals.state, keys).Ok? && BuildPairs(builtins.state, keys).Ok? ==>
                err == None && Valid() && fresh(extra) &&
                base.dict == builtins && base.pairs == BuildPairs(builtins.state, keys).value &&
                base.version == builtins.state.version &&
                extra.dict == globals && extra.pairs == BuildPairs(globals.state, keys).value &&
                extra.version == globals.state.version
    {
      var globalsGuard := new DictGuard();
      var e := globalsGuard.Init(globals, keys);
      if e.Some? {
        return e;
      }
      e := base.Init(builtins, keys);
      if e.Some? {
        return e;
      }
      KeysOfSnapshot(globals.state, builtins.state, keys.items);
      extra := globalsGuard;
      err := None;
    }

    /** guard_builtins_init_guard: reject (true) when a watched name that
        exists in the startup builtins was recorded with another value, or
        when a watched name had a value in the globals. Nothing changes. */
    method InitGuard(st: ModuleState) returns (reject: bool)
      requires Valid() && st.initBuiltins.Some?
      ensures reject <==> Diverged(st.initBuiltins.value, base.pairs) || Shadowed(extra.pairs)
    {
      var startup := st.initBuiltins.value;
      var pairs := base.pairs;
      var i := 0;
      while i < |pairs|
        invariant 0 <= i <= |pairs|
        invariant forall j :: 0 <= j < i && pairs[j].key in startup ==> pairs[j].value == Some(startup[pairs[j].key])
      {
        var name := pairs[i].key;
        if name in startup && pairs[i].value != Some(startup[name]) {
          return true;
        }
        i := i + 1;
      }
      var globalPairs := extra.pairs;
      i := 0;
      while i < |globalPairs|
        invariant 0 <= i <= |globalPairs|
        invariant forall j :: 0 <= j < i ==> globalPairs[j].value.None?
      {
        if globalPairs[i].value.Some? {
          return true;
        }
        i := i + 1;
      }
      reject := false;
    }

    /** guard_builtins_check: the builtins guard decides first; only when it
        passes is the globals guard asked, and then its verdict is the answer.
        Each sub-guard moves its cached version to its namespace's version
        only after a rescan in which all its pairs passed; when the builtins
        guard does not pass, the globals guard is not asked at all. */
    method Check(stack: seq<Obj>, na: int, nk: int) returns (r: Status)
      requires Valid()
      modifies base`version, extra`version
      ensures Valid()
      ensures Rescan(base.dict.state, base.pairs) != Pass ==>
                r == Rescan(base.dict.state, base.pairs) && extra.version == old(extra.version)
      ensures Rescan(base.dict.state, base.pairs) == Pass ==>
                r == Rescan(extra.dict.state, extra.pairs) &&
                extra.version == (if r == Pass then extra.dict.state.version else old(extra.version))
      ensures base.version == (if Rescan(base.dict.state, base.pairs) == Pass then base.dict.state.version
                               else old(base.version))
    {
      var res, lookups := base.Check(stack, na, nk);
      if res != Pass {
        return res;
      }
      r, lookups := extra.Check(stack, na, nk);
    }
  }

  /** Snapshots of the same keys in two namespaces watch the same names. */
  lemma KeysOfSnapshot(m1: Mapping<string, Id>, m2: Mapping<string, Id>, keys: seq<Obj>)
    requires SnapshotKeys(m1, keys).Ok? && SnapshotKeys(m2, keys).Ok?
    ensures Keys(SnapshotKeys(m1, keys).value) == Keys(SnapshotKeys(m2, keys).value)
  {
    var p1, p2 := SnapshotKeys(m1, keys).value, SnapshotKeys(m2, keys).value;
    forall i | 0 <= i < |keys|
      ensures p1[i].key == p2[i].key
    {
      assert Ok(p1[i]) == SnapshotKey(m1, keys[i]);
      assert Ok(p2[i]) == SnapshotKey(m2, keys[i]);
    }
  }
}
