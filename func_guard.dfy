/**
 * The function guard (GuardFunc): it records the code a function object has
 * when the guard is built and reports that the function was redefined once
 * its code is rebound to any other code object.
 */
module FuncGuards {
  import opened Host

  /** A guard on the code of one function (GuardFuncObject). */
  class FuncGuard {
    var func: Function?
    var code: Option<Id>

    /** A guard as allocated, before Init (guard_func_new). */
    constructor ()
      ensures func == null && code == None
    {
      func := null;
      code := None;
    }

    /** A built guard watches a function and holds the code it recorded. */
    ghost predicate Valid()
      reads this
    {
      func != null && code.Some?
    }

    /** guard_func_init: a function object is watched, and the code it holds
        now is recorded; anything else is a TypeError that changes nothing. */
    method Init(o: Obj) returns (err: Option<Error>)
      modifies this
      ensures o.Func? ==> err == None && func == o.f && code == Some(o.f.code) && Valid()
      ensures !o.Func? ==> err == Some(TypeError) && func == old(func) && code == old(code)
    {
      if !o.Func? {
        return Some(TypeError);
      }
      func := o.f;
      code := Some(o.f.code);
      err := None;
    }

    /** guard_func_check: the arguments play no part. Invalidated exactly
        when the watched function's code is no longer the recorded code,
        Pass otherwise. */
    function Check(stack: seq<Obj>, na: int, nk: int): (r: Status)
      reads this, func
      requires Valid()
      ensures r == Pass || r == Invalidated
      ensures r == Invalidated <==> func.code != code.value
    {
      if func.code != code.value then Invalidated else Pass
    }
  }

  /** The verdict of a function guard does not depend on the call it is
      asked about. */
  lemma CheckIgnoresArguments(g: FuncGuard, s1: seq<Obj>, na1: int, nk1: int, s2: seq<Obj>, na2: int, nk2: int)
    requires g.Valid()
    ensures g.Check(s1, na1, nk1) == g.Check(s2, na2, nk2)
  {
  }

  /** test_guard_func (test_fat.py): a guard built on a function passes until
      the function's code is rebound, then reports the redefinition; binding
      the recorded code back makes it pass again. */
  method RebindScenario()
  {
    var f := new Function(10);
    var g := new FuncGuard();
    var err := g.Init(Func(f));
    assert err == None;
    assert g.Check([], 0, 0) == Pass;
    f.code := 11;
    assert g.Check([], 0, 0) == Invalidated;
    f.code := 10;
    assert g.Check([], 0, 0) == Pass;
    var err2 := g.Init(Str("abc"));
    assert err2 == Some(TypeError) && g.func == f;
  }
}
