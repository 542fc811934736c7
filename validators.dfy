/** The declarative argument validators of easycv: each transform parameter is
    governed by one `Validator`; `Check`/`Validate` test an argument
    dictionary against it and `Accept` compares two validators of one kind. */
module Validators {
  import opened PyValues

  /** `re.match(pattern, str(value))` succeeds. Regular-expression matching is
      a library the model does not look into, so it is a parameter. */
  type Matcher = (string, Value) -> bool

  /** How a Method validator declares its methods: a plain list of names, or a
      dictionary from each name to the other argument names legal with it. */
  datatype MethodTable =
    | MethodList(names: seq<string>)
    | MethodDict(allowed: map<string, seq<string>>)

  /** One constructor per validator class. `default` is the stored default;
      `NoneValue` makes the argument required. An Option's default is already
      the literal option (see `NewOption`). A `None` bound is infinite. */
  datatype Validator =
    | Number(minValue: Maybe<real>, maxValue: Maybe<real>,
             onlyInteger: bool, onlyOdd: bool, onlyEven: bool, default: Value)
    | Option(options: seq<Value>, default: Value)
    | Regex(pattern: string, default: Value)
    | Type(argType: TypeTag, default: Value)
    | List(validator: Validator, length: Maybe<int>, default: Value)
    | Method(methods: MethodTable, methodName: string, default: Value)

  datatype Kind = NumberKind | OptionKind | RegexKind | TypeKind | ListKind | MethodKind

  function KindOf(v: Validator): Kind
  {
    match v
    case Number(_, _, _, _, _, _) => NumberKind
    case Option(_, _) => OptionKind
    case Regex(_, _) => RegexKind
    case Type(_, _) => TypeKind
    case List(_, _, _) => ListKind
    case Method(_, _, _) => MethodKind
  }

  /** What `validate` and `check` leave behind: the result (or the error
      raised) and the argument dictionary afterwards. */
  datatype Outcome = Outcome(result: Result<Value>, kwargs: map<string, Value>)

  /** `Option(options, default=index)`: the default index is resolved to the
      literal option once, at construction, with Python's indexing. */
  function NewOption(options: seq<Value>, defaultIndex: Maybe<int>): (r: Result<Validator>)
    ensures r.Err? <==> defaultIndex.Some? && !(-|options| <= defaultIndex.value < |options|)
    ensures r.Err? ==> r.error == IndexError
    ensures r.Ok? ==> r.value.Option? && r.value.options == options
    ensures r.Ok? && defaultIndex.None? ==> r.value.default == NoneValue
    ensures r.Ok? && defaultIndex.Some? ==>
      r.value.default == options[if defaultIndex.value >= 0 then defaultIndex.value
                                 else |options| + defaultIndex.value]
  {
    match defaultIndex
    case None => Ok(Option(options, NoneValue))
    case Some(i) =>
      match PyIndex(|options|, i)
      case None => Err(IndexError)
      case Some(k) => Ok(Option(options, options[k]))
  }

  /** `kwargs.get(name)`: a missing key reads as `None`. */
  function Get(kwargs: map<string, Value>, name: string): Value
  {
    if name in kwargs then kwargs[name] else NoneValue
  }

  /* ---------------------------------------------------------------- Number */

  predicate BelowMax(maxValue: Maybe<real>, x: real)
  {
    maxValue.None? || x <= maxValue.value
  }

  predicate AboveMin(minValue: Maybe<real>, x: real)
  {
    minValue.None? || minValue.value <= x
  }

  /** The condition under which Number.validate does not raise: an allowed
      numeric kind, inside the inclusive bounds, and of the required parity.
      With both `onlyOdd` and `onlyEven` set nothing passes. */
  predicate NumberAllows(v: Validator, arg: Value)
    requires v.Number?
  {
    && (arg.Int? || (!v.onlyInteger && arg.Float?))
    && AboveMin(v.minValue, AsReal(arg)) && BelowMax(v.maxValue, AsReal(arg))
    && !(v.onlyOdd && IsEven(arg))
    && !(v.onlyEven && !IsEven(arg))
  }

  /* ---------------------------------------------------------------- Method */

  /** `allowed_methods`: the declared names, the list's elements or the
      dictionary's keys (their order only shows in error messages). */
  function AllowedMethods(t: MethodTable): (r: set<string>)
    ensures t.MethodDict? ==> r == t.allowed.Keys
    ensures t.MethodList? ==> forall n :: n in r <==> n in t.names
  {
    match t
    case MethodList(names) => set n | n in names
    case MethodDict(allowed) => allowed.Keys
  }

  /** `arg in self.methods`: a non-string value is never a declared name. */
  predicate IsDeclared(t: MethodTable, arg: Value)
  {
    arg.Str? && arg.s in AllowedMethods(t)
  }

  /** Some argument left in `rest`, other than the literal key "method", is
      not in the allow-list of the selected method. */
  predicate HasDisallowedArg(t: MethodTable, arg: Value, rest: map<string, Value>)
    requires t.MethodDict? && IsDeclared(t, arg)
  {
    exists a :: a in rest && a != "method" && a !in t.allowed[arg.s]
  }

  /** The checks Method.validate makes once the selected value `arg` has been
      popped and `rest` is what remains of the dictionary. */
  function SelectMethod(t: MethodTable, arg: Value, rest: map<string, Value>): (r: Result<Value>)
    ensures r.Ok? <==> IsDeclared(t, arg) && !(t.MethodDict? && HasDisallowedArg(t, arg, rest))
    ensures r.Ok? ==> r.value == arg
    ensures r == Err(InvalidMethod) <==> !IsDeclared(t, arg)
    ensures r.Err? ==> r.error == InvalidMethod || r.error == InvalidArgument
  {
    if !IsDeclared(t, arg) then Err(InvalidMethod)
    else if t.MethodDict? && HasDisallowedArg(t, arg, rest) then Err(InvalidArgument)
    else Ok(arg)
  }

  /** Method.validate: pop `name` (KeyError when absent), then select. */
  function MethodValidate(t: MethodTable, name: string, kwargs: map<string, Value>): (o: Outcome)
    ensures o.kwargs == kwargs - {name} && name !in o.kwargs
    ensures forall k :: k in kwargs && k != name ==> k in o.kwargs && o.kwargs[k] == kwargs[k]
    ensures o.result == Err(KeyError(name)) <==> name !in kwargs
    ensures o.result.Ok? ==> name in kwargs && o.result.value == kwargs[name] && IsDeclared(t, kwargs[name])
  {
    if name !in kwargs then Outcome(Err(KeyError(name)), kwargs)
    else
      var rest := kwargs - {name};
      Outcome(SelectMethod(t, kwargs[name], rest), rest)
  }

  /** The argument names of `defaultArgs` that no method's allow-list
      mentions, leaving out the literal "method" (not `methodName`). */
  function NotSpecified(allowed: map<string, seq<string>>, defaultArgs: set<string>): (r: set<string>)
    ensures r <= defaultArgs && "method" !in r
    ensures forall a :: a in r ==> forall k :: k in allowed ==> a !in allowed[k]
    ensures forall a :: a in defaultArgs && a != "method" && a !in r ==>
      exists k :: k in allowed && a in allowed[k]
  {
    set a | a in defaultArgs && a != "method" && forall k :: k in allowed ==> a !in allowed[k]
  }

  /** Each name occurs at most once. */
  predicate NoDuplicates(s: seq<string>)
  {
    forall i, j :: 0 <= i < j < |s| ==> s[i] != s[j]
  }

  /** The result of `add_unspecified_allowed_args(defaultArgs)`: the same
      method names, each allow-list extended by the same listing `order` of
      the previously unspecified names (in Python's set iteration order,
      which the model leaves open). */
  ghost predicate ExtendedBy(allowed: map<string, seq<string>>, defaultArgs: set<string>,
                             allowed': map<string, seq<string>>, order: seq<string>)
  {
    && allowed'.Keys == allowed.Keys
    && (forall k :: k in allowed ==> allowed'[k] == allowed[k] + order)
    && NoDuplicates(order)
    && (forall a :: a in order <==> a in NotSpecified(allowed, defaultArgs))
    && |order| == |NotSpecified(allowed, defaultArgs)|
  }

  /** Lists the elements of a set once each, in an order left open. */
  method ListSet(s: set<string>) returns (order: seq<string>)
    ensures forall a :: a in order <==> a in s
    ensures NoDuplicates(order)
    ensures |order| == |s|
  {
    order := [];
    var left := s;
    while left != {}
      invariant left <= s
      invariant forall a :: a in order <==> a in s - left
      invariant NoDuplicates(order)
      invariant |order| + |left| == |s|
      decreases left
    {
      var a :| a in left;
      order := order + [a];
      left := left - {a};
    }
  }

  /** Method.add_unspecified_allowed_args: append every argument name no
      method mentions to every method's allow-list. Only the dictionary form
      has allow-lists. */
  method AddUnspecifiedAllowedArgs(t: MethodTable, defaultArgs: set<string>)
    returns (t': MethodTable, order: seq<string>)
    requires t.MethodDict?
    ensures t'.MethodDict? && ExtendedBy(t.allowed, defaultArgs, t'.allowed, order)
  {
    var notSpecified := NotSpecified(t.allowed, defaultArgs);
    order := ListSet(notSpecified);
    var allowed := t.allowed;
    if notSpecified != {} {
      var todo := t.allowed.Keys;
      while todo != {}
        invariant todo <= t.allowed.Keys
        invariant allowed.Keys == t.allowed.Keys
        invariant forall k :: k in allowed ==>
          allowed[k] == if k in todo then t.allowed[k] else t.allowed[k] + order
        decreases todo
      {
        var k :| k in todo;
        allowed := allowed[k := allowed[k] + order];
        todo := todo - {k};
      }
    } else {
      assert forall k :: k in allowed ==> allowed[k] == allowed[k] + order;
    }
    t' := MethodDict(allowed);
  }

  /* ------------------------------------------------------- validate, check */

  /** `validate` of every kind on one value, with no other arguments around:
      how a List applies its inner validator to each element (a Method inside
      a List sees the one-entry dictionary `{name: e}` and pops it). On
      success the value comes back unchanged, a List's container included. */
  function ValidateValue(v: Validator, arg: Value, m: Matcher): (r: Result<Value>)
    ensures r.Ok? ==> r.value == arg
    ensures r.Err? ==> r.error in {InvalidArgument, InvalidMethod, TypeError}
    ensures r.Err? && r.error == InvalidMethod ==> KindOf(v) in {MethodKind, ListKind}
    ensures r.Err? && r.error == TypeError ==> KindOf(v) in {OptionKind, ListKind}
    decreases v, 0
  {
    match v
    case Number(_, _, _, _, _, _) =>
      if NumberAllows(v, arg) then Ok(arg) else Err(InvalidArgument)
    case Option(options, _) =>
      if arg in options then Ok(arg)
      else if exists o :: o in options && !o.Str? then Err(TypeError)
      else Err(InvalidArgument)
    case Regex(pattern, _) =>
      if m(pattern, arg) then Ok(arg) else Err(InvalidArgument)
    case Type(argType, _) =>
      if TypeOf(arg) == argType then Ok(arg) else Err(InvalidArgument)
    case List(inner, length, _) =>
      if !arg.Sequence? then Err(InvalidArgument)
      else if length.Some? && |arg.items| != length.value then Err(InvalidArgument)
      else
        (match FirstFailure(inner, arg.items, m)
         case None => Ok(arg)
         case Some(e) => Err(e))
    case Method(t, _, _) =>
      SelectMethod(t, arg, map[])
  }

  /** The error of the first element of `items` the inner validator rejects. */
  function FirstFailure(inner: Validator, items: seq<Value>, m: Matcher): (r: Maybe<Error>)
    ensures r.Some? ==> r.value in {InvalidArgument, InvalidMethod, TypeError}
    ensures r.Some? && r.value == InvalidMethod ==> KindOf(inner) in {MethodKind, ListKind}
    ensures r.Some? && r.value == TypeError ==> KindOf(inner) in {OptionKind, ListKind}
    decreases inner, 1, |items|
  {
    if items == [] then None
    else
      match ValidateValue(inner, items[0], m)
      case Err(e) => Some(e)
      case Ok(_) => FirstFailure(inner, items[1..], m)
  }

  /** `validator.validate(name, kwargs)`: only Method changes the dictionary. */
  function Validate(v: Validator, name: string, kwargs: map<string, Value>, m: Matcher): (o: Outcome)
    ensures o.kwargs == if v.Method? then kwargs - {name} else kwargs
    ensures o.result.Ok? ==> o.result.value == Get(kwargs, name)
    ensures o.result.Err? ==> !o.result.error.ArgumentNotProvided?
  {
    if v.Method? then MethodValidate(v.methods, name, kwargs)
    else Outcome(ValidateValue(v, Get(kwargs, name), m), kwargs)
  }

  /** `validator.check(name, kwargs)`: an absent or `None` argument takes the
      stored default (written into the dictionary by Method, returned
      unvalidated by every other kind) or is reported missing; a given one is
      validated. */
  function Check(v: Validator, name: string, kwargs: map<string, Value>, m: Matcher): (o: Outcome)
    ensures o.result.Ok? ==>
      o.result.value == if Get(kwargs, name) == NoneValue then v.default else Get(kwargs, name)
    ensures o.result == Err(ArgumentNotProvided(name)) <==>
      Get(kwargs, name) == NoneValue && v.default == NoneValue
    ensures o.result.Err? ==> o.result.error != KeyError(name)
    ensures Get(kwargs, name) == NoneValue && v.default != NoneValue ==>
      o == if v.Method? then Validate(v, name, kwargs[name := v.default], m)
           else Outcome(Ok(v.default), kwargs)
    ensures Get(kwargs, name) != NoneValue ==> o == Validate(v, name, kwargs, m)
    ensures !v.Method? ==> o.kwargs == kwargs
    ensures v.Method? ==>
      o.kwargs == if o.result == Err(ArgumentNotProvided(name)) then kwargs else kwargs - {name}
  {
    var arg := Get(kwargs, name);
    if arg == NoneValue && v.default == NoneValue then
      Outcome(Err(ArgumentNotProvided(name)), kwargs)
    else if v.Method? then
      Validate(v, name, if arg == NoneValue then kwargs[name := v.default] else kwargs, m)
    else if arg == NoneValue then
      Outcome(Ok(v.default), kwargs)
    else
      Validate(v, name, kwargs, m)
  }

  /* ---------------------------------------------------------------- accept */

  /** `self.min_value <= other.min_value`, a `None` bound being -inf. */
  predicate LowerCovers(selfMin: Maybe<real>, otherMin: Maybe<real>)
  {
    selfMin.None? || (otherMin.Some? && selfMin.value <= otherMin.value)
  }

  /** `self.max_value >= other.max_value`, a `None` bound being +inf. */
  predicate UpperCovers(selfMax: Maybe<real>, otherMax: Maybe<real>)
  {
    selfMax.None? || (otherMax.Some? && otherMax.value <= selfMax.value)
  }

  /** `a.accept(b)`: `a` admits at least what `b` admits. Different kinds never
      accept each other. A List compares mandatory lengths and inner
      validators (the intended rule; see `AcceptAsWritten`). */
  function Accept(a: Validator, b: Validator): (r: bool)
    ensures r ==> KindOf(a) == KindOf(b)
  {
    match (a, b)
    case (Number(_, _, _, _, _, _), Number(_, _, _, _, _, _)) =>
      && LowerCovers(a.minValue, b.minValue) && UpperCovers(a.maxValue, b.maxValue)
      && (b.onlyOdd || !a.onlyOdd)
      && (b.onlyEven || !a.onlyEven)
      && (b.onlyInteger || !a.onlyInteger)
    case (Option(_, _), Option(_, _)) =>
      forall o :: o in b.options ==> o in a.options
    case (Regex(_, _), Regex(_, _)) =>
      a.pattern == b.pattern
    case (Type(_, _), Type(_, _)) =>
      a.argType == b.argType
    case (List(_, _, _), List(_, _, _)) =>
      a.length == b.length && Accept(a.validator, b.validator)
    case (Method(_, _, _), Method(_, _, _)) =>
      AllowedMethods(b.methods) <= AllowedMethods(a.methods)
    case _ => false
  }

  /** `a.accept(b)` exactly as the source writes it: List.accept calls
      `self.length()` and `other.length()`, and an int or `None` is not
      callable, so two Lists raise TypeError. */
  function AcceptAsWritten(a: Validator, b: Validator): (r: Result<bool>)
    ensures r.Err? <==> a.List? && b.List?
    ensures r.Err? ==> r.error == TypeError
    ensures r.Ok? ==> r.value == Accept(a, b)
  {
    if a.List? && b.List? then Err(TypeError) else Ok(Accept(a, b))
  }

  /* ------------------------------------------- the argument dictionary */

  /** The mutable argument dictionary a transform call passes to `check`. */
  class Kwargs {
    var entries: map<string, Value>

    constructor (entries: map<string, Value>)
      ensures this.entries == entries
    {
      this.entries := entries;
    }

    /** `kwargs.pop(name)`. */
    method Pop(name: string) returns (r: Result<Value>)
      modifies this
      ensures entries == old(entries) - {name}
      ensures r == if name in old(entries) then Ok(old(entries)[name]) else Err(KeyError(name))
    {
      if name in entries {
        r := Ok(entries[name]);
        entries := entries - {name};
      } else {
        r := Err(KeyError(name));
      }
    }
  }

  /** List.validate, looping over the elements of the container. */
  method ValidateList(v: Validator, arg: Value, m: Matcher) returns (r: Result<Value>)
    requires v.List?
    ensures r == ValidateValue(v, arg, m)
  {
    if !arg.Sequence? {
      return Err(InvalidArgument);
    }
    if v.length.Some? && |arg.items| != v.length.value {
      return Err(InvalidArgument);
    }
    var items := arg.items;
    var i := 0;
    while i < |items|
      invariant 0 <= i <= |items|
      invariant FirstFailure(v.validator, items, m) == FirstFailure(v.validator, items[i..], m)
    {
      assert items[i..][1..] == items[i + 1..];
      var e := ValidateValue(v.validator, items[i], m);
      if e.Err? {
        return Err(e.error);
      }
      i := i + 1;
    }
    assert items[i..] == [];
    r := Ok(arg);
  }

  /** Method.validate: pops the selector from the caller's dictionary before
      any check, so it is gone on every outcome. */
  method ValidateMethod(t: MethodTable, name: string, kwargs: Kwargs) returns (r: Result<Value>)
    modifies kwargs
    ensures Outcome(r, kwargs.entries) == MethodValidate(t, name, old(kwargs.entries))
  {
    var popped := kwargs.Pop(name);
    if popped.Err? {
      return popped;
    }
    var arg := popped.value;
    if !IsDeclared(t, arg) {
      return Err(InvalidMethod);
    }
    if t.MethodDict? && HasDisallowedArg(t, arg, kwargs.entries) {
      return Err(InvalidArgument);
    }
    r := Ok(arg);
  }

  /** `validator.validate(name, kwargs)` on the caller's dictionary. */
  method ValidateArgument(v: Validator, name: string, kwargs: Kwargs, m: Matcher) returns (r: Result<Value>)
    modifies kwargs
    ensures Outcome(r, kwargs.entries) == Validate(v, name, old(kwargs.entries), m)
  {
    if v.Method? {
      r := ValidateMethod(v.methods, name, kwargs);
    } else if v.List? {
      r := ValidateList(v, Get(kwargs.entries, name), m);
    } else {
      r := ValidateValue(v, Get(kwargs.entries, name), m);
    }
  }

  /** `validator.check(name, kwargs)` on the caller's dictionary; Method
      writes its default into the dictionary before validating. */
  method CheckArgument(v: Validator, name: string, kwargs: Kwargs, m: Matcher) returns (r: Result<Value>)
    modifies kwargs
    ensures Outcome(r, kwargs.entries) == Check(v, name, old(kwargs.entries), m)
  {
    var arg := Get(kwargs.entries, name);
    if arg == NoneValue && v.default == NoneValue {
      return Err(ArgumentNotProvided(name));
    }
    if v.Method? {
      if arg == NoneValue {
        kwargs.entries := kwargs.entries[name := v.default];
      }
      r := ValidateArgument(v, name, kwargs, m);
    } else if arg == NoneValue {
      r := Ok(v.default);
    } else {
      r := ValidateArgument(v, name, kwargs, m);
    }
  }
}
