# Guards of the `fat` extension, modelled in Dafny

The `fat` extension module (`fat.c`) lets a function run a specialized code
version only while some assumptions still hold. Each assumption is a *guard*.
A guard check answers one of four codes:

- 0: pass.
- 1: the assumption does not apply to this call.
- 2: the observed state changed since the guard was built.
- -1: a lookup raised an exception.

This project models the guards and the constant-table rewrite:

- The **argument-type guard** checks the exact type of one positional argument.
- The **function guard** notices that a function's code was rebound.
- The **dict guard** records the values of some keys of a namespace together
  with the namespace's modification version. A check takes a fast path when
  the version is unchanged. Otherwise it rescans the keys in order.
- The **builtins guard** composes a dict guard over the builtins with a dict
  guard over the globals. At build time it compares itself against a copy of
  the builtins taken once at startup.
- **replace_consts** rebuilds a constant table through a mapping.

Modelling choices:

- Object identities are natural numbers (`Host.Id`). Value equality plays no
  part, since the C code compares pointers.
- A namespace is a `Host.Mapping`. It holds its entries, the keys whose lookup
  raises an error other than KeyError, and a version that every store and
  removal increases. It sits in a `Host.Dict` object so that a guard and the
  code that mutates the namespace share it, as in the C code.
- Each guard is a class:
  - `tp_new` becomes the constructor;
  - `tp_init` becomes `Init`, which returns the raised error, if any;
  - the check function becomes `Check`.
- The builtins guard's C structure extends the dict guard. Here its dict-guard
  part is the field `base`.

Behaviours of the code worth knowing before reading the model:

- A failed rescan never refreshes the cached version or the recorded values.
  A guard whose watched key was rebound keeps answering 2 until the key is
  bound back to the recorded object (`DictGuards.DictScenario`).
- A lookup fault during a check answers -1 (`DictGuards.PairVerdict`).
- Duplicate keys and types are kept as given.

## Model

| member | source | states |
|---|---|---|
| ArgTypeGuards.ArgTypeGuard.constructor | fat.c:69-86 | a fresh guard has no argument types |
| ArgTypeGuards.ArgTypeGuard.Check | fat.c:19-45 | never 2 and changes nothing; 1 whenever `arg_index >= na`; otherwise 0 exactly when the exact type identity of `stack[arg_index]` is one of the recorded types, and 1 otherwise |
| ArgTypeGuards.SlotReadAsWritten | fat.c:28-31 | as written, the check reads no slot exactly when `arg_index >= na`, and otherwise reads slot `arg_index` itself, which is below `na` but may be negative |
| ArgTypeGuards.ParseArgIndexAsWritten | fat.c:100-102 | as written, the "i" parser accepts exactly the C `int` range, negative values included, and raises OverflowError outside it |
| ArgTypeGuards.NegativeIndexReadsBeforeArguments | fat.c:28-34 | as written, index -1 is accepted and, with one positional argument, the check reads slot -1 |
| ArgTypeGuards.ParseArgIndex | fat.c:100-102 | corrected parser: accepts exactly 0..INT_MAX and returns the index itself; OverflowError outside the C `int` range, ValueError for a negative index |
| ArgTypeGuards.AcceptedIndexReadsAPositionalSlot | fat.c:28-34 | with the corrected parser, any slot the check reads lies in `0 .. na-1` |
| ArgTypeGuards.Configure | fat.c:100-143 | accepted exactly when the index parses, the types are iterable, non-empty and all classes; then it records their identities in order; otherwise the error is the parser's (this uses the corrected index parser `ParseArgIndex` of the Findings row, so a negative index is a ValueError), TypeError for a non-iterable, ValueError for an empty sequence, and TypeError for a non-class item |
| ArgTypeGuards.ArgTypeGuard.Init | fat.c:88-152 | on success the fields become the accepted configuration; on every error the index and types are left as they were; the index is parsed by the corrected `ParseArgIndex` of the Findings row |
| FuncGuards.FuncGuard.constructor | fat.c:267-283 | a fresh guard watches no function |
| FuncGuards.FuncGuard.Init | fat.c:285-321 | a function object is watched and its current code recorded; anything else is a TypeError that leaves the guard unchanged |
| FuncGuards.FuncGuard.Check | fat.c:234-247 | answers 2 exactly when the watched function's current code is not the recorded one, 0 otherwise, and nothing else |
| FuncGuards.CheckIgnoresArguments | fat.c:234-247 | the function guard's verdict is the same whatever the call's arguments |
| DictGuards.PairVerdict | fat.c:409-435 | one watched pair: -1 exactly when the lookup raises a non-KeyError error; otherwise 0 exactly when the current value (absent when missing) is the recorded identity, and 2 otherwise; never 1 |
| DictGuards.Rescan | fat.c:484-494 | 0 exactly when every pair passes; otherwise the verdict of the first pair in registration order that does not pass |
| DictGuards.SnapshotKey | fat.c:580-597 | a key is recorded exactly when it is a str whose lookup does not raise, and the recorded pair passes against the namespace it was taken from; TypeError for a non-str key; the lookup's error otherwise |
| DictGuards.SnapshotKeys | fat.c:578-598 | the keys are recorded in tuple order exactly when each one is; otherwise the error is that of the first key that fails |
| DictGuards.SnapshotErrorExtends | fat.c:578-598 | an error met while recording a prefix of the keys is the error for the whole tuple |
| DictGuards.BuildPairs | fat.c:545-598 | TypeError for a non-tuple or an empty tuple; otherwise the recorded pairs, one per key, which all pass against the namespace they were taken from |
| DictGuards.UnwatchedStoreKeepsVerdict | fat.c:409-435 | storing to a name no pair watches does not change a rescan's verdict |
| DictGuards.WatchedStoreInvalidates | fat.c:409-435 | storing a different value to a watched, recorded name makes a rescan fail |
| DictGuards.WatchedRemovalInvalidates | fat.c:409-435 | removing a watched name that was recorded as present makes a rescan fail |
| DictGuards.MutationKeepsSynced | fat.c:472-497 | a store to the namespace keeps a synced cache synced: the version only grows |
| DictGuards.DictGuard.constructor | fat.c:518-535 | a fresh guard watches nothing |
| DictGuards.DictGuard.Init | fat.c:537-610 | on success the guard watches the namespace with the recorded pairs and the namespace's current version, and is synced; on any error the dict, pairs and version are left as they were |
| DictGuards.DictGuard.Check | fat.c:472-497 | the verdict is always that of a full rescan; with an unchanged version no key is looked up; otherwise keys are looked up in order up to and including the first that does not pass; the cached version moves to the namespace's version only after an all-pass rescan |
| BuiltinsGuards.ModuleState.InitBuiltins | fat.c:1043-1072 | the startup copy is taken once: later calls succeed and change nothing; with no interpreter builtins it is a RuntimeError; otherwise it records the builtins' entries |
| BuiltinsGuards.BuiltinsGuard.constructor | fat.c:759-774 | a fresh guard has an empty dict-guard part and no globals guard |
| BuiltinsGuards.BuiltinsGuard.Init | fat.c:776-807 | builds the globals guard first and then the builtins part over the same keys; the first error is returned and leaves the guard as it was; on success both parts are built, watch the same names, and record the current versions of the builtins and the globals |
| BuiltinsGuards.KeysOfSnapshot | fat.c:788-801 | snapshots of the same keys in two namespaces watch the same names in the same order |
| BuiltinsGuards.BuiltinsGuard.InitGuard | fat.c:712-743 | rejects exactly when a watched name present in the startup builtins was recorded with another value, or when a watched name had a value in the globals; changes nothing |
| BuiltinsGuards.NewGlobalInvalidates | fat.c:735-757 | after an accepted build, binding any watched name in the globals makes the globals guard's rescan fail |
| BuiltinsGuards.BuiltinsGuard.Check | fat.c:745-757 | a builtins rescan that does not pass is the answer, and the globals guard is left alone; otherwise the answer is the globals guard's rescan verdict; each sub-guard's cached version moves to its namespace's version exactly when its own rescan passed, and otherwise stays |
| ConstRewrite.ReplaceConsts | fat.c:894-925 | no result exactly when some constant's lookup raises; otherwise a table of the same length whose slot i is `mapping[consts[i]]` when that key is present and `consts[i]` otherwise |

## Left out

- `fat_specialize` and `fat_get_specialized` are left out. They only forward to the specialization registry of a patched interpreter, which is not part of this model.
- The attribute getters (`arg_types`, `keys`) and the `guard_globals` and `guard_type_dict` wrappers are left out. They build host objects or forward to the dict guard's constructor.
- The code-object rebuild (`PyCode_New`) in `fat_replace_consts` is left out. Only the constant-table substitution is modelled.
- Module initialisation, type-object tables, deallocation, traversal and reference counting are left out. They are memory management and host glue.
- Memory errors are not modelled: the `PyErr_NoMemory` paths and a failing `PyDict_Copy`.
- `fat_get_builtins_dict` and `PyEval_GetGlobals` read interpreter frames. The builtins and globals namespaces are parameters of `BuiltinsGuards.BuiltinsGuard.Init` instead, and their failure paths are not modelled. A missing thread state or missing interpreter builtins in `fat_init_builtins` is the `None` parameter of `BuiltinsGuards.ModuleState.InitBuiltins`.
- Argument parsing by keyword is not modelled, nor are the TypeErrors the argument parser raises for a missing argument or a wrongly typed one (a non-integer index for the argument-type guard, a non-dict namespace for the dict guard's `O!` format). `Init` methods take their arguments already unpacked and of the right kind.
- DictGuards.DictGuard.Check: the version is an unbounded `nat`. The C `size_t` version counter's wrap-around is not modelled.
- ConstRewrite.ReplaceConsts: constants are looked up by identity-like equality of `V`. Python's cross-type equality of constants (`1 == 1.0 == True`) is not modelled.
- `Host.AsSequence` treats tuples, lists and strings as iterable and every other object as not iterable. User-defined iterables are not modelled.
- Error messages are not modelled, only the exception kinds.
- Tests that expect a guard whose build was rejected to answer 2 rely on the guard base type of the patched interpreter, which is not part of this model.
- ConstRewrite.ReplaceConsts: a constant whose lookup raises makes the model return no table. The C code looks constants up with `PyDict_GetItem`, which clears such an error and reports the key as missing, so the program keeps that constant and goes on; the model's error branch follows the code's `PyErr_Occurred` test rather than what `PyDict_GetItem` does.

## Findings

| source | as written | input that shows it | evidently intended | confidence | as-written member | corrected member |
|---|---|---|---|---|---|---|
| fat.c:100-102, fat.c:28-34 | the "i" format accepts a negative `arg_index`, and the check's only bound test is `arg_index >= na`, so it reads `stack[arg_index]` before the first argument | `GuardArgType(-1, (int,))` called with one positional argument reads `stack[-1]` | a negative index is refused when the guard is built (here with ValueError), so the check only reads positional slots | medium, not executed | ArgTypeGuards.NegativeIndexReadsBeforeArguments | ArgTypeGuards.AcceptedIndexReadsAPositionalSlot |
