/**
 * The argument-type guard (GuardArgType): it passes when the exact type of
 * one positional argument is one of a fixed list of types. Subclasses do not
 * pass, and an argument given by keyword is never looked at.
 */
module ArgTypeGuards {
  import opened Host

  /** How the "i" argument parser accepts the argument index, as written:
      any value that fits a C int, negative ones included. */
  function ParseArgIndexAsWritten(argIndex: int): (r: Result<int, Error>)
    ensures r.Ok? <==> IntMin <= argIndex <= IntMax
    ensures r.Ok? ==> r.value == argIndex
    ensures r.Err? ==> r.error == OverflowError
  {
    if IntMin <= argIndex <= IntMax then Ok(argIndex) else Err(OverflowError)
  }

  /** The stack slot the check reads for a guard whose index passed the
      parser, as written: nothing when `argIndex >= na`, else `argIndex`. */
  function SlotReadAsWritten(argIndex: int, na: int): (r: Option<int>)
    ensures r.None? <==> argIndex >= na
    ensures r.Some? ==> r.value == argIndex && r.value < na
  {
    if argIndex >= na then None else Some(argIndex)
  }

  /** As written, a negative index is accepted and the check then reads a slot
      before the first positional argument: here index -1 with one argument. */
  lemma NegativeIndexReadsBeforeArguments()
    ensures ParseArgIndexAsWritten(-1) == Ok(-1)
    ensures SlotReadAsWritten(-1, 1) == Some(-1)
  {
  }

  /** The corrected parser: a negative index is refused with a ValueError, so
      every accepted index names a positional slot from zero on. */
  function ParseArgIndex(argIndex: int): (r: Result<nat, Error>)
    ensures r.Ok? <==> 0 <= argIndex <= IntMax
    ensures r.Ok? ==> r.value == argIndex
    ensures r.Err? ==> r.error == (if argIndex < IntMin || argIndex > IntMax then OverflowError else ValueError)
  {
    match ParseArgIndexAsWritten(argIndex)
    case Err(e) => Err(e)
    case Ok(i) => if i < 0 then Err(ValueError) else Ok(i)
  }

  /** With the corrected parser, whenever the check reads a slot it is one of
      the `na` positional arguments. */
  lemma AcceptedIndexReadsAPositionalSlot(argIndex: int, na: int)
    requires ParseArgIndex(argIndex).Ok? && 0 <= na
    ensures SlotReadAsWritten(argIndex, na).Some? ==> 0 <= SlotReadAsWritten(argIndex, na).value < na
  {
  }

  /** The configuration guard_arg_type_init accepts: a C int index (not
      negative, see ParseArgIndex), and an iterable of at least one item, every
      item a class; the guard records the classes' identities in order. */
  function Configure(argIndex: int, types: Obj): (r: Result<(nat, seq<Id>), Error>)
    ensures r.Ok? <==> (ParseArgIndex(argIndex).Ok? && AsSequence(types).Some? &&
                        |AsSequence(types).value| > 0 &&
                        forall i :: 0 <= i < |AsSequence(types).value| ==> AsSequence(types).value[i].Class?)
    ensures r.Ok? ==> r.value.0 == argIndex && |r.value.1| == |AsSequence(types).value| &&
                      forall i :: 0 <= i < |r.value.1| ==> r.value.1[i] == AsSequence(types).value[i].id
    ensures ParseArgIndex(argIndex).Err? ==> r == Err(ParseArgIndex(argIndex).error)
    ensures ParseArgIndex(argIndex).Ok? && AsSequence(types).None? ==> r == Err(TypeError)
    ensures ParseArgIndex(argIndex).Ok? && AsSequence(types) == Some([]) ==> r == Err(ValueError)
    ensures (ParseArgIndex(argIndex).Ok? && AsSequence(types).Some? && |AsSequence(types).value| > 0 &&
             r.Err?) ==> r.error == TypeError
  {
    match ParseArgIndex(argIndex)
    case Err(e) => Err(e)
    case Ok(index) =>
      match AsSequence(types)
      case None => Err(TypeError)
      case Some(items) =>
        if |items| == 0 then Err(ValueError)
        else if exists i :: 0 <= i < |items| && !items[i].Class? then Err(TypeError)
        else Ok((index, seq(|items|, i requires 0 <= i < |items| => items[i].id)))
  }

  /** A guard on the type of one positional argument (GuardArgTypeObject). */
  class ArgTypeGuard {
    var argIndex: nat
    var argTypes: seq<Id>

    /** A guard as allocated, before Init (guard_arg_type_new). */
    constructor ()
      ensures argIndex == 0 && argTypes == []
    {
      argIndex := 0;
      argTypes := [];
    }

    /** guard_arg_type_init: the fields change only when the whole
        configuration is accepted; after any error they are as they were. */
    method Init(argIndex: int, types: Obj) returns (err: Option<Error>)
      modifies this
      ensures Configure(argIndex, types).Ok? ==>
                err == None && this.argIndex == argIndex &&
                argTypes == Configure(argIndex, types).value.1
      ensures Configure(argIndex, types).Err? ==>
                err == Some(Configure(argIndex, types).error) &&
                this.argIndex == old(this.argIndex) && argTypes == old(argTypes)
    {
      var parsed := ParseArgIndex(argIndex);
      if parsed.Err? {
        return Some(parsed.error);
      }
      var seqOpt := AsSequence(types);
      if seqOpt.None? {
        return Some(TypeError);
      }
      var items := seqOpt.value;
      if |items| == 0 {
        return Some(ValueError);
      }
      var collected: seq<Id> := [];
      var i := 0;
      while i < |items|
        invariant 0 <= i <= |items| && |collected| == i
        invariant forall j :: 0 <= j < i ==> items[j].Class? && collected[j] == items[j].id
      {
        if !items[i].Class? {
          return Some(TypeError);
        }
        collected := collected + [items[i].id];
        i := i + 1;
      }
      this.argIndex := parsed.value;
      argTypes := collected;
      err := None;
    }

    /** guard_arg_type_check: Mismatch when the argument is not among the `na`
        positional ones; otherwise Pass exactly when its exact type is one of
        the recorded types. Never Invalidated, and nothing changes. */
    method Check(stack: seq<Obj>, na: int, nk: int) returns (r: Status)
      requires 0 <= na <= |stack|
      ensures r == Pass || r == Mismatch
      ensures argIndex >= na ==> r == Mismatch
      ensures argIndex < na ==> (r == Pass <==> stack[argIndex].TypeId() in argTypes)
    {
      if argIndex >= na {
        return Mismatch;
      }
      var t := stack[argIndex].TypeId();
      r := Mismatch;
      var i := 0;
      while i < |argTypes|
        invariant 0 <= i <= |argTypes|
        invariant t !in argTypes[..i]
      {
        if argTypes[i] == t {
          r := Pass;
          return;
        }
        i := i + 1;
      }
      assert argTypes[..i] == argTypes;
    }
  }
}
