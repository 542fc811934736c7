/** What the validators promise, stated over the model: the meaning of each
    kind's `validate`, subsumption as a preorder that is sound for values,
    the dictionary effects of Method, and `add_unspecified_allowed_args`. */
module ValidatorProperties {
  import opened PyValues
  import opened Validators

  /* ------------------------------------------------------- validate, check */

  /** Number.validate on an int: inside the inclusive bounds and of the
      required parity; with both parities required no int passes. */
  lemma NumberValidateInt(v: Validator, i: int, m: Matcher)
    requires v.Number?
    ensures ValidateValue(v, Int(i), m).Ok? <==>
      && (v.minValue.None? || v.minValue.value <= i as real)
      && (v.maxValue.None? || i as real <= v.maxValue.value)
      && (v.onlyOdd ==> i % 2 == 1)
      && (v.onlyEven ==> i % 2 == 0)
    ensures v.onlyOdd && v.onlyEven ==> ValidateValue(v, Int(i), m).Err?
  {
  }

  /** Number.validate rejects every non-number, a float when only integers
      are allowed, and everything when both parities are required. */
  lemma NumberValidateRejects(v: Validator, x: Value, m: Matcher)
    requires v.Number?
    ensures !(x.Int? || x.Float?) ==> ValidateValue(v, x, m) == Err(InvalidArgument)
    ensures x.Float? && v.onlyInteger ==> ValidateValue(v, x, m) == Err(InvalidArgument)
    ensures v.onlyOdd && v.onlyEven ==> ValidateValue(v, x, m) == Err(InvalidArgument)
  {
  }

  /** Number.validate on a float: allowed unless only integers are, inside
      the inclusive bounds, and of the required parity (`x % 2 == 0` exactly
      when `x / 2` is whole). */
  lemma NumberValidateFloat(v: Validator, r: real, m: Matcher)
    requires v.Number?
    ensures ValidateValue(v, Float(r), m).Ok? <==>
      && !v.onlyInteger
      && (v.minValue.None? || v.minValue.value <= r)
      && (v.maxValue.None? || r <= v.maxValue.value)
      && (v.onlyOdd ==> (r / 2.0).Floor as real != r / 2.0)
      && (v.onlyEven ==> (r / 2.0).Floor as real == r / 2.0)
  {
  }

  /** Option.validate passes exactly the listed values. A rejection raises
      the invalid-argument error only when every option is a string: the
      message joins the options, which raises TypeError otherwise. */
  lemma OptionValidateOutcomes(v: Validator, x: Value, m: Matcher)
    requires v.Option?
    ensures ValidateValue(v, x, m).Ok? <==> x in v.options
    ensures ValidateValue(v, x, m) == Err(TypeError) <==>
      x !in v.options && exists o :: o in v.options && !o.Str?
    ensures ValidateValue(v, x, m) == Err(InvalidArgument) <==>
      x !in v.options && forall o :: o in v.options ==> o.Str?
  {
  }

  /** The items pass the inner validator exactly when each of them does. */
  lemma {:induction false} FirstFailureNoneIff(inner: Validator, items: seq<Value>, m: Matcher)
    ensures FirstFailure(inner, items, m).None? <==>
      forall i :: 0 <= i < |items| ==> ValidateValue(inner, items[i], m).Ok?
  {
    if items != [] {
      FirstFailureNoneIff(inner, items[1..], m);
      assert forall i :: 1 <= i < |items| ==> items[i] == items[1..][i - 1];
    }
  }

  /** A failure is the error of the first element the inner validator rejects. */
  lemma {:induction false} FirstFailureIsFirst(inner: Validator, items: seq<Value>, m: Matcher)
    requires FirstFailure(inner, items, m).Some?
    ensures exists i :: (0 <= i < |items| &&
      ValidateValue(inner, items[i], m) == Err(FirstFailure(inner, items, m).value) &&
      forall j :: 0 <= j < i ==> ValidateValue(inner, items[j], m).Ok?)
  {
    if ValidateValue(inner, items[0], m).Ok? {
      FirstFailureIsFirst(inner, items[1..], m);
      var i :| 0 <= i < |items[1..]| &&
        ValidateValue(inner, items[1..][i], m) == Err(FirstFailure(inner, items[1..], m).value) &&
        forall j :: 0 <= j < i ==> ValidateValue(inner, items[1..][j], m).Ok?;
      assert forall j :: 1 <= j < i + 1 ==> items[j] == items[1..][j - 1];
      assert ValidateValue(inner, items[i + 1], m) == Err(FirstFailure(inner, items, m).value);
    } else {
      assert ValidateValue(inner, items[0], m) == Err(FirstFailure(inner, items, m).value);
    }
  }

  /** List.validate succeeds exactly on a list, tuple or array of the
      mandatory length whose every element passes the inner validator. */
  lemma ListValidateIff(v: Validator, x: Value, m: Matcher)
    requires v.List?
    ensures ValidateValue(v, x, m).Ok? <==>
      && x.Sequence?
      && (v.length.Some? ==> |x.items| == v.length.value)
      && forall i :: 0 <= i < |x.items| ==> ValidateValue(v.validator, x.items[i], m).Ok?
  {
    if x.Sequence? {
      FirstFailureNoneIff(v.validator, x.items, m);
    }
  }

  /** For every kind but Method, `check` leaves the dictionary alone, so the
      order in which such validators run cannot change their outcomes. */
  lemma CheckOrderIndependent(v1: Validator, n1: string, v2: Validator, n2: string,
                              kwargs: map<string, Value>, m: Matcher)
    requires !v1.Method? && !v2.Method?
    ensures Check(v2, n2, Check(v1, n1, kwargs, m).kwargs, m) == Check(v2, n2, kwargs, m)
    ensures Check(v1, n1, Check(v2, n2, kwargs, m).kwargs, m) == Check(v1, n1, kwargs, m)
  {
  }

  /** `check` on an absent or `None` argument returns an Option's default,
      the option the default index selects (a negative index from the end). */
  lemma OptionCheckDefault(options: seq<Value>, index: int, name: string,
                           kwargs: map<string, Value>, m: Matcher)
    requires -|options| <= index < |options|
    requires options[PyIndex(|options|, index).value] != NoneValue
    requires Get(kwargs, name) == NoneValue
    ensures NewOption(options, Some(index)).Ok?
    ensures Check(NewOption(options, Some(index)).value, name, kwargs, m) ==
      Outcome(Ok(options[PyIndex(|options|, index).value]), kwargs)
  {
  }

  /** `check` on a given argument is `validate`. */
  lemma CheckDelegates(v: Validator, name: string, kwargs: map<string, Value>, m: Matcher)
    requires Get(kwargs, name) != NoneValue
    ensures Check(v, name, kwargs, m) == Validate(v, name, kwargs, m)
  {
  }

  /** The outcomes of Method.validate in terms of the dictionary it is given:
      the selector is popped in every case; an undeclared name is an invalid
      method; in dictionary form any other key but the literal "method"
      missing from the selected allow-list is an invalid argument. */
  lemma MethodValidateOutcomes(t: MethodTable, name: string, kwargs: map<string, Value>)
    ensures MethodValidate(t, name, kwargs).kwargs == kwargs - {name}
    ensures MethodValidate(t, name, kwargs).result == Err(InvalidMethod) <==>
      name in kwargs && !IsDeclared(t, kwargs[name])
    ensures MethodValidate(t, name, kwargs).result == Err(InvalidArgument) <==>
      && name in kwargs && IsDeclared(t, kwargs[name]) && t.MethodDict?
      && exists a :: a in kwargs && a != name && a != "method" && a !in t.allowed[kwargs[name].s]
    ensures MethodValidate(t, name, kwargs).result.Ok? ==>
      MethodValidate(t, name, kwargs).result == Ok(kwargs[name])
  {
    if name in kwargs && IsDeclared(t, kwargs[name]) && t.MethodDict? {
      var rest := kwargs - {name};
      var sel := kwargs[name].s;
      if exists a :: a in kwargs && a != name && a != "method" && a !in t.allowed[sel] {
        var a :| a in kwargs && a != name && a != "method" && a !in t.allowed[sel];
        assert a in rest;
      }
    }
  }

  /** Method.check: unless it reports the argument missing, the selector key
      is absent from the dictionary afterwards and every other key is kept. */
  lemma MethodCheckRemovesSelector(v: Validator, name: string, kwargs: map<string, Value>, m: Matcher)
    requires v.Method?
    requires Get(kwargs, name) != NoneValue || v.default != NoneValue
    ensures name !in Check(v, name, kwargs, m).kwargs
    ensures forall k :: k in kwargs && k != name ==>
      k in Check(v, name, kwargs, m).kwargs && Check(v, name, kwargs, m).kwargs[k] == kwargs[k]
  {
  }

  /* ---------------------------------------------------------------- accept */

  /** Every validator accepts itself. */
  lemma {:induction false} AcceptReflexive(v: Validator)
    ensures Accept(v, v)
  {
    if v.List? {
      AcceptReflexive(v.validator);
    }
  }

  /** Acceptance composes. */
  lemma {:induction false} AcceptTransitive(a: Validator, b: Validator, c: Validator)
    requires Accept(a, b) && Accept(b, c)
    ensures Accept(a, c)
  {
    if a.List? {
      AcceptTransitive(a.validator, b.validator, c.validator);
    }
  }

  /** Soundness of subsumption: a value that `b` lets through on its own,
      `a` lets through too whenever `a` accepts `b`. */
  lemma {:induction false} AcceptSound(a: Validator, b: Validator, x: Value, m: Matcher)
    requires Accept(a, b) && ValidateValue(b, x, m).Ok?
    ensures ValidateValue(a, x, m).Ok?
  {
    if a.List? {
      ListValidateIff(b, x, m);
      forall i | 0 <= i < |x.items|
        ensures ValidateValue(a.validator, x.items[i], m).Ok?
      {
        AcceptSound(a.validator, b.validator, x.items[i], m);
      }
      ListValidateIff(a, x, m);
    }
  }

  /** Method.accept compares only method names: a validator whose allow-list
      is narrower is still accepted, though it lets through a call the
      accepting validator rejects. */
  lemma MethodAcceptIgnoresAllowLists(m: Matcher)
    ensures
      var narrow := Method(MethodDict(map["x" := []]), "method", NoneValue);
      var wide := Method(MethodDict(map["x" := ["a"]]), "method", NoneValue);
      var kwargs := map["method" := Str("x"), "a" := Int(1)];
      && Accept(narrow, wide)
      && Validate(wide, "method", kwargs, m).result == Ok(Str("x"))
      && Validate(narrow, "method", kwargs, m).result == Err(InvalidArgument)
  {
    var kwargs := map["method" := Str("x"), "a" := Int(1)];
    assert "a" in kwargs - {"method"};
  }

  /** Number.accept is sound but not complete: a validator that admits
      nothing (both parities required) is not accepted by one that only
      asks for integers, although every value it admits is admitted. */
  lemma NumberAcceptIncomplete(m: Matcher)
    ensures
      var empty := Number(None, None, false, true, true, NoneValue);
      var integers := Number(None, None, true, false, false, NoneValue);
      && !Accept(integers, empty)
      && forall x :: ValidateValue(empty, x, m).Ok? ==> ValidateValue(integers, x, m).Ok?
  {
    var empty := Number(None, None, false, true, true, NoneValue);
    forall x ensures ValidateValue(empty, x, m).Err? {
      NumberValidateRejects(empty, x, m);
    }
  }

  /** Finding: List.accept as written raises TypeError when it compares two
      Lists, even a List with itself, where the intended rule holds. */
  lemma ListAcceptAsWrittenRaises(v: Validator)
    requires v.List?
    ensures AcceptAsWritten(v, v) == Err(TypeError)
    ensures Accept(v, v)
  {
    AcceptReflexive(v);
  }

  /* ---------------------------------------- add_unspecified_allowed_args */

  /** After `add_unspecified_allowed_args(d)`: each old allow-list is a prefix
      of the new one, every previously unmentioned name of `d` (other than
      "method") is in every allow-list, every such name of `d` is in some
      allow-list when there is a method at all, and no allow-list gains a
      duplicate. */
  lemma {:induction false} ExtendedByProperties(allowed: map<string, seq<string>>, d: set<string>,
                                                allowed': map<string, seq<string>>, order: seq<string>)
    requires ExtendedBy(allowed, d, allowed', order)
    ensures allowed'.Keys == allowed.Keys
    ensures forall k :: k in allowed ==> allowed[k] <= allowed'[k]
    ensures forall k, a :: k in allowed' && a in NotSpecified(allowed, d) ==> a in allowed'[k]
    ensures allowed != map[] ==>
      forall a :: a in d && a != "method" ==> exists k :: k in allowed' && a in allowed'[k]
    ensures forall k :: k in allowed && NoDuplicates(allowed[k]) ==> NoDuplicates(allowed'[k])
  {
    forall k | k in allowed && NoDuplicates(allowed[k])
      ensures NoDuplicates(allowed'[k])
    {
      var s, s' := allowed[k], allowed'[k];
      assert s' == s + order;
      forall i, j | 0 <= i < j < |s'|
        ensures s'[i] != s'[j]
      {
        if j >= |s| && i < |s| {
          assert s'[j] == order[j - |s|];
          assert s'[j] in NotSpecified(allowed, d);
          assert s'[i] == s[i];
        } else if i >= |s| {
          assert s'[i] == order[i - |s|] && s'[j] == order[j - |s|];
        }
      }
    }
    if allowed != map[] {
      var k0 :| k0 in allowed;
      forall a | a in d && a != "method"
        ensures exists k :: k in allowed' && a in allowed'[k]
      {
        if a in NotSpecified(allowed, d) {
          assert a in allowed'[k0];
        } else {
          var k :| k in allowed && a in allowed[k];
          assert allowed'[k] == allowed[k] + order;
        }
      }
    }
  }

  /** `add_unspecified_allowed_args` is idempotent: a second call with the
      same argument names finds nothing unspecified and changes nothing. */
  lemma {:induction false} AddUnspecifiedIdempotent(
    allowed: map<string, seq<string>>, d: set<string>,
    allowed': map<string, seq<string>>, order: seq<string>,
    allowed'': map<string, seq<string>>, order': seq<string>)
    requires ExtendedBy(allowed, d, allowed', order)
    requires ExtendedBy(allowed', d, allowed'', order')
    ensures allowed'' == allowed'
    ensures allowed != map[] ==> order' == []
  {
    ExtendedByProperties(allowed, d, allowed', order);
    if allowed != map[] {
      assert NotSpecified(allowed', d) == {};
    }
    assert forall k :: k in allowed'' ==> allowed''[k] == allowed'[k];
  }

  /* ------------------------------------------------------------- examples */

  /** `List(Number(min_value=0), length=2)`: accepts `(3, 4)` and `[3, 4]`,
      rejects `(3, 4, 5)`, the string "34" and `(-1, 4)`. */
  lemma ListOfTwoNumbersExamples(m: Matcher)
    ensures
      var v := List(Number(Some(0.0), None, false, false, false, NoneValue), Some(2), NoneValue);
      && ValidateValue(v, Sequence(PyTuple, [Int(3), Int(4)]), m).Ok?
      && ValidateValue(v, Sequence(PyList, [Int(3), Int(4)]), m).Ok?
      && ValidateValue(v, Sequence(PyTuple, [Int(3), Int(4), Int(5)]), m) == Err(InvalidArgument)
      && ValidateValue(v, Str("34"), m) == Err(InvalidArgument)
      && ValidateValue(v, Sequence(PyTuple, [Int(-1), Int(4)]), m) == Err(InvalidArgument)
  {
  }

  /** `Option(["a", "b", "c"], default=1).check("m", {})` returns "b", and
      with `default=-1` it returns "c"; `Option([1, 3])` rejecting 5 raises
      TypeError while building its message. */
  lemma OptionDefaultExample(m: Matcher)
    ensures NewOption([Str("a"), Str("b"), Str("c")], Some(1)).Ok?
    ensures Check(NewOption([Str("a"), Str("b"), Str("c")], Some(1)).value, "m", map[], m).result
      == Ok(Str("b"))
    ensures NewOption([Str("a"), Str("b"), Str("c")], Some(-1)).Ok?
    ensures Check(NewOption([Str("a"), Str("b"), Str("c")], Some(-1)).value, "m", map[], m).result
      == Ok(Str("c"))
    ensures ValidateValue(Option([Int(1), Int(3)], NoneValue), Int(5), m) == Err(TypeError)
  {
    assert Int(1) in [Int(1), Int(3)];
  }

  /** `Method({"x": ["a"], "y": ["b"]})`: selecting "x" with "a" succeeds and
      leaves `{"a": 1}`; selecting "x" with "b" is an invalid argument. */
  lemma MethodDictExamples(m: Matcher)
    ensures
      var v := Method(MethodDict(map["x" := ["a"], "y" := ["b"]]), "method", NoneValue);
      && Validate(v, "method", map["method" := Str("x"), "a" := Int(1)], m)
         == Outcome(Ok(Str("x")), map["a" := Int(1)])
      && Validate(v, "method", map["method" := Str("x"), "b" := Int(1)], m)
         == Outcome(Err(InvalidArgument), map["b" := Int(1)])
  {
    var kwargs := map["method" := Str("x"), "b" := Int(1)];
    assert "b" in kwargs - {"method"};
    assert map["method" := Str("x"), "a" := Int(1)] - {"method"} == map["a" := Int(1)];
    assert kwargs - {"method"} == map["b" := Int(1)];
  }

  /** The `color` argument of the Mask transform: a list of three integers in
      0..255 defaulting to `(0, 255, 0)`, which `check` returns when the
      argument is left out. */
  lemma MaskColorExample(m: Matcher)
    ensures
      var color := List(Number(Some(0.0), Some(255.0), true, false, false, NoneValue), Some(3),
                         Sequence(PyTuple, [Int(0), Int(255), Int(0)]));
      && Check(color, "color", map[], m).result == Ok(Sequence(PyTuple, [Int(0), Int(255), Int(0)]))
      && ValidateValue(color, color.default, m).Ok?
      && ValidateValue(color, Sequence(PyList, [Int(0), Int(256), Int(0)]), m) == Err(InvalidArgument)
  {
  }

  /** The `rectangle` output of the Select transform: two points of two
      non-negative integers. The intended rule accepts it against itself;
      the source raises TypeError. */
  lemma SelectRectangleExample(m: Matcher)
    ensures
      var point := List(Number(Some(0.0), None, true, false, false, NoneValue), Some(2), NoneValue);
      var rectangle := List(point, Some(2), NoneValue);
      && ValidateValue(rectangle, Sequence(PyList, [Sequence(PyTuple, [Int(1), Int(2)]),
                                                    Sequence(PyTuple, [Int(5), Int(7)])]), m).Ok?
      && ValidateValue(rectangle, Sequence(PyList, [Sequence(PyTuple, [Int(1), Int(2)])]), m).Err?
      && Accept(rectangle, rectangle)
      && AcceptAsWritten(rectangle, rectangle) == Err(TypeError)
  {
  }
}
