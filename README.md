# easycv argument validators in Dafny

A model of easycv's declarative argument-validation framework
(`easycv/validators.py`). Each transform declares, for every parameter, a
validator: `Number`, `Option`, `Regex`, `Type`, `List` or `Method`. The
framework does two jobs:

- **checking**: `check(name, kwargs)` fills in a stored default for an absent
  or `None` argument, or raises "argument not provided"; otherwise it calls
  `validate`, which raises "invalid argument" or "invalid method" (or a
  TypeError, when an Option whose options are not all strings builds its
  rejection message). `Method`
  pops its selector from the caller's dictionary, and in its dictionary form
  it also restricts the other argument names to the selected method's
  allow-list;
- **subsumption**: `a.accept(b)` says that `a` admits everything `b` admits,
  for two validators of the same kind.

Files:

- `values.dfy` (module `PyValues`): the Python values a validator sees (`None`,
  int, float as an exact real, str, list/tuple/ndarray, other objects), their
  classes, the error kinds, Python's negative indexing.
- `validators.dfy` (module `Validators`): the `Validator` datatype, one
  constructor per class. It holds `validate` and `check` as pure functions.
  These return the result and the argument dictionary afterwards. It also
  holds `accept`, `allowed_methods` and `add_unspecified_allowed_args`. The
  imperative side sits here too: the mutable argument dictionary is the class
  `Kwargs`, and the methods `CheckArgument`, `ValidateArgument` and
  `ValidateMethod` work on it. `ValidateList` loops over the elements of a
  container value. Each is proved equal to the pure function.
- `properties.dfy` (module `ValidatorProperties`): what the framework promises.
  `accept` is reflexive and transitive, and sound for values. Number and List
  validation are characterised exactly (Number for ints and for floats). Method's effect on the dictionary is
  stated for every outcome. `add_unspecified_allowed_args` is idempotent. The
  concrete validators of the Select and Mask transforms serve as examples.

Regular-expression matching (`re.match(pattern, str(value))`) is a library
call; it is the parameter `m: Matcher` of every validating function.

Behaviours of the code a reader might not expect, modelled as written:

- A name outside the selected method's allow-list raises the *invalid argument*
  error, not *invalid method* (`easycv/validators.py:279`).
- The allow-list test and `add_unspecified_allowed_args` skip the literal key
  `"method"`, not the validator's `method_name`.
- `Method.check` on a key that is present with value `None`, and with no
  default, raises before popping. The key then stays in the dictionary
  (`MethodCheckRemovesSelector` says when it is removed).
- `accept` is sound but not an exact superset test. `Number.accept` misses
  inclusions such as a validator that admits nothing (`NumberAcceptIncomplete`).
  `Method.accept` ignores allow-lists (`MethodAcceptIgnoresAllowLists`).
- After `add_unspecified_allowed_args(d)`, a name of `d` that some method
  already lists is not copied to the other methods. Only names no method
  mentions go to every allow-list (`ExtendedByProperties`).
- An out-of-range Option default index fails at construction (IndexError),
  as Python indexing does.

## Model

| member | source | states |
|---|---|---|
| `PyValues.PyIndex` | easycv/validators.py:203 | a Python index is valid exactly in `-n..n-1` and then names the position congruent to it modulo `n` |
| `Validators.NewOption` | easycv/validators.py:201-204 | the default index is resolved once to the literal option (negative indices from the end); an index out of range raises IndexError; no index means required |
| `Validators.AllowedMethods` | easycv/validators.py:243-248 | the declared names are the list's elements or the dictionary's keys |
| `Validators.SelectMethod` | easycv/validators.py:272-284 | succeeds iff the selected value is a declared name and, in dictionary form, no remaining key but "method" is outside its allow-list; an undeclared value is exactly the invalid-method case; success returns the value |
| `Validators.MethodValidate` | easycv/validators.py:269-284 | pops the selector before any check: afterwards the dictionary is the old one minus that key on every outcome, all other entries kept; KeyError exactly when the key is absent; success returns the popped declared name |
| `Validators.NotSpecified` | easycv/validators.py:254-255 | the names of `d` other than "method" that no allow-list mentions; every other name of `d` except "method" is in some allow-list |
| `Validators.ListSet` | easycv/validators.py:258 | lists the set of unspecified names once each, in an order left open (Python's set iteration order) |
| `Validators.AddUnspecifiedAllowedArgs` | easycv/validators.py:253-258 | same method names; every allow-list becomes its old contents followed by one duplicate-free listing of exactly the unspecified names |
| `Validators.ValidateValue` | easycv/validators.py:99-349 | each kind's validate on a lone value: success returns the value itself (a List its original container); failures are invalid-argument, invalid-method only from a Method, or TypeError only from an Option (either possibly inside a List) |
| `Validators.FirstFailure` | easycv/validators.py:347-348 | the error of the first element the inner validator rejects, of the kinds the inner validator can raise |
| `Validators.Validate` | easycv/validators.py:52-67 | only Method changes the dictionary (it removes the selector); a success returns `kwargs.get(name)`; validate never reports a missing argument |
| `Validators.Check` | easycv/validators.py:30-50 | absent or `None` argument: with a stored default a non-Method validator succeeds with it, unvalidated, and Method gives validate's outcome on the dictionary with the default written in; ArgumentNotProvided exactly when there is no default; a given argument gets validate's outcome; non-Method leaves the dictionary unchanged, Method removes the selector unless the argument is missing |
| `Validators.Accept` | easycv/validators.py:116-355 | accept never holds across kinds; what it means for values is proved in `AcceptSound`, and that it is a preorder in `AcceptReflexive` and `AcceptTransitive` |
| `Validators.AcceptAsWritten` | easycv/validators.py:351-355 | as written, comparing two Lists raises TypeError; every other pair gives the intended answer |
| `Validators.Kwargs.Pop` | easycv/validators.py:270 | `kwargs.pop(name)`: returns the value and removes the key, or KeyError with the dictionary unchanged |
| `Validators.ValidateList` | easycv/validators.py:334-349 | the loop over the elements computes exactly List validation |
| `Validators.ValidateMethod` | easycv/validators.py:269-284 | on the caller's dictionary, result and new contents are those of Method.validate |
| `Validators.ValidateArgument` | easycv/validators.py:52-67 | on the caller's dictionary, result and new contents are those of validate for every kind |
| `Validators.CheckArgument` | easycv/validators.py:260-267 | on the caller's dictionary, result and new contents are those of check; Method writes its default in before validating |
| `ValidatorProperties.NumberValidateInt` | easycv/validators.py:153-177 | an int passes iff min <= x <= max (inclusive, infinite when absent) and it is odd under only_odd and even under only_even; with both set no int passes |
| `ValidatorProperties.NumberValidateFloat` | easycv/validators.py:153-177 | a float passes iff only_integer is off, min <= x <= max, and it is odd under only_odd and even under only_even (`x % 2 == 0` exactly when `x / 2` is whole) |
| `ValidatorProperties.OptionValidateOutcomes` | easycv/validators.py:206-214 | Option passes exactly the listed values; a rejection is TypeError iff some option is not a string (the message joins them), otherwise invalid-argument |
| `ValidatorProperties.NumberValidateRejects` | easycv/validators.py:155-161 | non-numbers are rejected, floats are rejected under only_integer, and both parities together reject everything |
| `ValidatorProperties.FirstFailureNoneIff` | easycv/validators.py:347-348 | the elements pass iff every element passes the inner validator |
| `ValidatorProperties.FirstFailureIsFirst` | easycv/validators.py:347-348 | a failure is the error of an element all of whose predecessors pass |
| `ValidatorProperties.ListValidateIff` | easycv/validators.py:334-349 | List validation succeeds iff the value is a list/tuple/array, has the mandatory length when one is set, and every element passes the inner validator |
| `ValidatorProperties.CheckOrderIndependent` | easycv/validators.py:43-50 | checks by non-Method validators do not affect each other, in either order |
| `ValidatorProperties.OptionCheckDefault` | easycv/validators.py:201-204 | an Option built with any valid default index `i` (negative ones counted from the end) returns the option it selects from check on an absent argument, dictionary unchanged |
| `ValidatorProperties.CheckDelegates` | easycv/validators.py:43-50 | check on a present, non-`None` argument is validate |
| `ValidatorProperties.MethodValidateOutcomes` | easycv/validators.py:269-284 | in terms of the given dictionary: invalid method iff the selector is present and undeclared; invalid argument iff declared, dictionary form, and some other key but "method" is outside the allow-list; otherwise the selected name |
| `ValidatorProperties.MethodCheckRemovesSelector` | easycv/validators.py:260-267 | unless the argument is missing, Method.check leaves the selector key absent and every other entry as it was |
| `ValidatorProperties.AcceptReflexive` | easycv/validators.py:116-355 | every validator accepts itself |
| `ValidatorProperties.AcceptTransitive` | easycv/validators.py:116-355 | accept is transitive |
| `ValidatorProperties.AcceptSound` | easycv/validators.py:116-355 | if `a` accepts `b`, every value `b` validates on its own is validated by `a` |
| `ValidatorProperties.MethodAcceptIgnoresAllowLists` | easycv/validators.py:286-289 | a Method with a narrower allow-list accepts a wider one, yet rejects a call the wider one lets through |
| `ValidatorProperties.NumberAcceptIncomplete` | easycv/validators.py:179-190 | a Number admitting nothing is not accepted by an integers-only Number, though every value it admits is admitted |
| `ValidatorProperties.ListAcceptAsWrittenRaises` | easycv/validators.py:351-355 | as written any List compared with itself raises TypeError, while the intended rule accepts it |
| `ValidatorProperties.ExtendedByProperties` | easycv/validators.py:253-258 | old allow-lists are prefixes of the new ones; unspecified names land in every list; when there is a method, every name of `d` but "method" is in some list; duplicate-free lists stay duplicate-free |
| `ValidatorProperties.AddUnspecifiedIdempotent` | easycv/validators.py:253-258 | a second call with the same names changes nothing and, when there is a method, finds nothing to add |
| `ValidatorProperties.ListOfTwoNumbersExamples` | easycv/validators.py:334-349 | `List(Number(min_value=0), length=2)` admits `(3, 4)` and `[3, 4]` and rejects `(3, 4, 5)`, `"34"` and `(-1, 4)` |
| `ValidatorProperties.OptionDefaultExample` | easycv/validators.py:201-204 | `Option(["a", "b", "c"], default=1)` checks an empty dictionary to `"b"`, with `default=-1` to `"c"`; `Option([1, 3])` rejecting 5 raises TypeError |
| `ValidatorProperties.MethodDictExamples` | easycv/validators.py:269-284 | `Method({"x": ["a"], "y": ["b"]})` selects "x" with `a` leaving `{"a": 1}`, and rejects "x" with `b` as an invalid argument |
| `ValidatorProperties.MaskColorExample` | easycv/transforms/selectors.py:158-165 | the Mask `color` validator returns its default `(0, 255, 0)` for an absent argument, admits it, and rejects 256 |
| `ValidatorProperties.SelectRectangleExample` | easycv/transforms/selectors.py:42-44 | the Select `rectangle` output admits two points and rejects one; it accepts itself under the intended rule but raises as written |

## Left out

- Regular-expression matching and `str()` of a value: a library call, taken as the parameter `Matcher`.
- Regex flags and `description`: flags are not modelled. `accept` compares only patterns, so it would not be sound for two patterns compiled with different flags.
- Error message wording, the `inside_list` parameter that only changes it, and the lists of names in InvalidMethodError.
- Floating point beyond exact reals: infinities are absent bounds, NaN is not a value, and float parity is the exact "x/2 is whole".
- Python's `bool` being an `int`, numpy scalar types, and subclassing in `isinstance`: a value's class is one exact tag.
- Validators.ValidateValue: Option membership uses structural equality, so Python's `1 == 1.0` is not modelled.
- Validators.SelectMethod: in dictionary form an unhashable selector (a list) raises TypeError in Python; the model reports an invalid method.
- Validators.AddUnspecifiedAllowedArgs: requires the dictionary form, because the list form raises AttributeError at `self.methods.values()`.
- Validators.AddUnspecifiedAllowedArgs: returns the extended table instead of extending the lists in place, so one list object shared by two methods, which would be extended twice, is not captured.
- `allowed_methods` order and `allowed_args`: names are a set (order shows only in messages); `allowed_args(m)` is the map lookup `allowed[m]`.
- The abstract base `validate`/`accept` that return `None`, and construction of the other validator classes (plain datatype constructors).
- The interactive selectors, the lazy pipeline wrapper and image input (`easycv/transforms/selectors.py`, `easycv/lazy.py`, `cv/io/input.py`): GUI, deferred execution and I/O. Their validator declarations appear only as examples.
- The ordering of validators by the transform layer and sharing of a dictionary between concurrent calls: the transform base class is not part of this model.

## Findings

| source | as written | input that shows it | evidently intended | confidence | as-written member | corrected member |
|---|---|---|---|---|---|---|
| easycv/validators.py:353 | `self.length() == other.length()` calls the stored length, an int or `None`, so comparing two Lists raises TypeError (`ListAcceptAsWrittenRaises`) | `List(Number()).accept(List(Number()))` | equal mandatory lengths and the inner validator accepts the other's inner validator | high, not executed | `Validators.AcceptAsWritten` | `Validators.Accept` |
