/**
 * Constant substitution (replace_consts): the constant table of a code object
 * is rebuilt slot by slot, every constant that is a key of the mapping being
 * replaced by the value the mapping gives it.
 */
module ConstRewrite {
  import opened Host

  /** replace_consts: a new table of the same length whose slot i holds
      `mapping[consts[i]]` when that key is present and `consts[i]` when it is
      missing, so equal constants are all replaced. When some lookup raises,
      the partly built table is dropped and there is no result. */
  method ReplaceConsts<V(==, !new)>(consts: seq<V>, mapping: Mapping<V, V>) returns (r: Option<seq<V>>)
    ensures r.None? <==> exists i :: 0 <= i < |consts| && mapping.Get(consts[i]) == Raised
    ensures r.Some? ==> |r.value| == |consts|
    ensures r.Some? ==> forall i :: 0 <= i < |consts| && consts[i] in mapping.items ==>
                          r.value[i] == mapping.items[consts[i]]
    ensures r.Some? ==> forall i :: 0 <= i < |consts| && consts[i] !in mapping.items ==>
                          r.value[i] == consts[i]
  {
    var table := new V[|consts|](i requires 0 <= i < |consts| => consts[i]);
    var i := 0;
    while i < |consts|
      invariant 0 <= i <= |consts|
      invariant forall j :: 0 <= j < i ==> mapping.Get(consts[j]) != Raised
      invariant forall j :: 0 <= j < i && consts[j] in mapping.items ==> table[j] == mapping.items[consts[j]]
      invariant forall j :: 0 <= j < i && consts[j] !in mapping.items ==> table[j] == consts[j]
    {
      var value := consts[i];
      match mapping.Get(value) {
        case Raised =>
          return None;
        case Found(newValue) =>
          table[i] := newValue;
        case Missing =>
          table[i] := value;
      }
      i := i + 1;
    }
    r := Some(table[..]);
  }
}
