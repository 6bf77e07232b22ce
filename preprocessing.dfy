/** Feature validation, ordering and normalisation (backend/preprocessing.py).
    A Python dict is modelled as its (name, value) items in iteration order. */
module Preprocessing {
  import opened Wrappers
  import opened Values
  import opened Exceptions

  type FeatureMap = seq<(string, Value)>

  /** `set(features.keys())` */
  function Keys(m: FeatureMap): set<string> {
    if m == [] then {} else {m[0].0} + Keys(m[1..])
  }

  /** `set(required_features)` */
  function RequiredSet(required: seq<string>): set<string> {
    set n | n in required
  }

  /** No name occurs twice, as in every Python dict. */
  predicate DistinctKeys(m: FeatureMap) {
    forall i, j :: 0 <= i < j < |m| ==> m[i].0 != m[j].0
  }

  /** `features[name]` */
  function Lookup(m: FeatureMap, name: string): Value
    requires name in Keys(m)
  {
    if m[0].0 == name then m[0].1 else Lookup(m[1..], name)
  }

  // ---------------------------------------------------------------------------
  // validate_features

  /** The check one item undergoes in the validation loop: the exception it raises, if any. */
  function CheckItem(item: (string, Value), parse: Parser): (r: Option<Exception>)
    ensures r.None? <==> IsFiniteNumber(item.1, parse)
    ensures r.Some? ==> (r.value.NotNumeric? || r.value.InvalidValue?) && r.value.name == item.0
    ensures r.Some? ==> (r.value.NotNumeric? <==> ToFloat(item.1, parse).None?)
    ensures r.Some? && r.value.InvalidValue? ==>
              ToFloat(item.1, parse) == Some(r.value.value) && !r.value.value.Finite?
  {
    match ToFloat(item.1, parse)
    case None => Some(NotNumeric(item.0))
    case Some(f) => if f.Finite? then None else Some(InvalidValue(item.0, f))
  }

  /** The exception raised by the first item, in iteration order, that fails its check. */
  function FirstInvalid(m: FeatureMap, parse: Parser): (r: Option<Exception>)
    ensures r.Some? ==> r.value.NotNumeric? || r.value.InvalidValue?
  {
    if m == [] then None
    else if CheckItem(m[0], parse).Some? then CheckItem(m[0], parse)
    else FirstInvalid(m[1..], parse)
  }

  /** What `validate_features` does: the set of missing names is checked first, then every
      item (required or not) in iteration order. */
  function Validation(features: FeatureMap, required: seq<string>, parse: Parser): Outcome<Exception> {
    var missing := RequiredSet(required) - Keys(features);
    if missing != {} then Fail(MissingFeatures(missing))
    else match FirstInvalid(features, parse)
      case Some(e) => Fail(e)
      case None => Pass
  }

  /** validate_features(features, required_features) */
  method ValidateFeatures(features: FeatureMap, required: seq<string>, parse: Parser)
    returns (outcome: Outcome<Exception>)
    ensures outcome == Validation(features, required, parse)
  {
    var missing := RequiredSet(required) - Keys(features);
    if missing != {} {
      return Fail(MissingFeatures(missing));
    }
    var i := 0;
    while i < |features|
      invariant 0 <= i <= |features|
      invariant FirstInvalid(features, parse) == FirstInvalid(features[i..], parse)
    {
      assert features[i..][1..] == features[i + 1..];
      var (name, value) := features[i];
      var number := ToFloat(value, parse);
      if number.None? {
        return Fail(NotNumeric(name));
      }
      if !number.value.Finite? {
        return Fail(InvalidValue(name, number.value));
      }
      i := i + 1;
    }
    return Pass;
  }

  lemma {:induction false} KeysAt(m: FeatureMap, name: string)
    ensures name in Keys(m) <==> exists i :: 0 <= i < |m| && m[i].0 == name
  {
    if m != [] {
      KeysAt(m[1..], name);
      if name in Keys(m[1..]) {
        var i :| 0 <= i < |m[1..]| && m[1..][i].0 == name;
        assert m[i + 1].0 == name;
      }
      if exists i :: 0 <= i < |m| && m[i].0 == name {
        var i :| 0 <= i < |m| && m[i].0 == name;
        if i > 0 { assert m[1..][i - 1].0 == name; }
      }
    }
  }

  lemma {:induction false} FirstInvalidNone(m: FeatureMap, parse: Parser)
    ensures FirstInvalid(m, parse).None? <==> forall i :: 0 <= i < |m| ==> IsFiniteNumber(m[i].1, parse)
  {
    if m != [] {
      FirstInvalidNone(m[1..], parse);
      assert forall i :: 1 <= i < |m| ==> m[i] == m[1..][i - 1];
    }
  }

  lemma {:induction false} FirstInvalidIsFirstOffender(m: FeatureMap, parse: Parser)
    requires FirstInvalid(m, parse).Some?
    ensures exists j :: 0 <= j < |m| && CheckItem(m[j], parse) == FirstInvalid(m, parse) &&
                        forall i :: 0 <= i < j ==> IsFiniteNumber(m[i].1, parse)
  {
    if CheckItem(m[0], parse).None? {
      FirstInvalidIsFirstOffender(m[1..], parse);
      var j :| 0 <= j < |m[1..]| && CheckItem(m[1..][j], parse) == FirstInvalid(m[1..], parse) &&
               forall i :: 0 <= i < j ==> IsFiniteNumber(m[1..][i].1, parse);
      assert forall i :: 1 <= i < j + 1 ==> m[i] == m[1..][i - 1];
      assert CheckItem(m[j + 1], parse) == FirstInvalid(m, parse);
    }
  }

  /** Validation reports missing names exactly when some required name is absent, whatever
      the values are, and the names it reports are required minus present. */
  lemma ValidationReportsMissing(features: FeatureMap, required: seq<string>, parse: Parser)
    ensures (Validation(features, required, parse).Fail? &&
             Validation(features, required, parse).error.MissingFeatures?)
            <==> exists n :: n in required && n !in Keys(features)
    ensures (exists n :: n in required && n !in Keys(features)) ==>
            Validation(features, required, parse) == Fail(MissingFeatures(RequiredSet(required) - Keys(features)))
  {
  }


  /** Validation passes exactly when every required name is present and every item,
      extra ones included, converts to a finite number. */
  lemma ValidationPasses(features: FeatureMap, required: seq<string>, parse: Parser)
    ensures Validation(features, required, parse) == Pass <==>
            RequiredSet(required) <= Keys(features) &&
            forall i :: 0 <= i < |features| ==> IsFiniteNumber(features[i].1, parse)
  {
    FirstInvalidNone(features, parse);
  }

  /** A value error names the first offending item in iteration order; every item before it
      converted to a finite number. */
  lemma ValidationNamesFirstOffender(features: FeatureMap, required: seq<string>, parse: Parser)
    requires Validation(features, required, parse).Fail?
    requires !Validation(features, required, parse).error.MissingFeatures?
    ensures exists j :: 0 <= j < |features| &&
              CheckItem(features[j], parse) == Some(Validation(features, required, parse).error) &&
              Validation(features, required, parse).error.name == features[j].0 &&
              forall i :: 0 <= i < j ==> IsFiniteNumber(features[i].1, parse)
  {
    FirstInvalidIsFirstOffender(features, parse);
  }

  // ---------------------------------------------------------------------------
  // preprocess_input

  /** Every required name is present and its value converts to a finite number. */
  predicate RequiredFinite(features: FeatureMap, required: seq<string>, parse: Parser) {
    forall n :: n in required ==> n in Keys(features) && IsFiniteNumber(Lookup(features, n), parse)
  }

  lemma {:induction false} LookupIsItem(m: FeatureMap, name: string)
    requires name in Keys(m)
    ensures exists i :: 0 <= i < |m| && m[i] == (name, Lookup(m, name))
  {
    if m[0].0 != name {
      LookupIsItem(m[1..], name);
      var i :| 0 <= i < |m[1..]| && m[1..][i] == (name, Lookup(m[1..], name));
      assert m[i + 1] == (name, Lookup(m, name));
    }
  }

  lemma ValidatedRequiredAreFinite(features: FeatureMap, required: seq<string>, parse: Parser)
    requires Validation(features, required, parse) == Pass
    ensures RequiredFinite(features, required, parse)
  {
    ValidationPasses(features, required, parse);
    forall n | n in required
      ensures n in Keys(features) && IsFiniteNumber(Lookup(features, n), parse)
    {
      assert n in RequiredSet(required);
      LookupIsItem(features, n);
    }
  }

  /** `[features[name] for name in required_features]` as a float64 array. */
  function Column(features: FeatureMap, required: seq<string>, parse: Parser): (col: seq<Float>)
    requires RequiredFinite(features, required, parse)
  {
    seq(|required|, i requires 0 <= i < |required| => ToFloat(Lookup(features, required[i]), parse).value)
  }

  /** `np.nan_to_num(a, nan=0.0, posinf=0.0, neginf=0.0)` */
  function NanToNum(a: seq<Float>): (r: seq<real>)
    ensures |r| == |a|
    ensures forall i :: 0 <= i < |a| ==> r[i] == (if a[i].Finite? then a[i].r else 0.0)
  {
    seq(|a|, i requires 0 <= i < |a| => match a[i] case Finite(x) => x case _ => 0.0)
  }

  /** preprocess_input(features, required_features) */
  function PreprocessInput(features: FeatureMap, required: seq<string>, parse: Parser)
    : (r: Result<seq<real>, Exception>)
    ensures r.Failure? <==> Validation(features, required, parse).Fail?
    ensures r.Failure? ==> Validation(features, required, parse) == Fail(r.error)
    ensures r.Success? ==>
              |r.value| == |required| &&
              forall i :: 0 <= i < |required| ==>
                required[i] in Keys(features) &&
                ToFloat(Lookup(features, required[i]), parse) == Some(Finite(r.value[i]))
  {
    match Validation(features, required, parse)
    case Fail(e) => Failure(e)
    case Pass =>
      ValidatedRequiredAreFinite(features, required, parse);
      Success(NanToNum(Column(features, required, parse)))
  }

  /** After a successful validation every element of the array is already finite, so the
      nan_to_num safety step replaces nothing. */
  lemma NanToNumChangesNothing(features: FeatureMap, required: seq<string>, parse: Parser)
    requires Validation(features, required, parse) == Pass
    ensures RequiredFinite(features, required, parse)
    ensures forall i :: 0 <= i < |required| ==>
              Column(features, required, parse)[i] == Finite(NanToNum(Column(features, required, parse))[i])
  {
    ValidatedRequiredAreFinite(features, required, parse);
  }

  /** The vector depends only on the values of the required names: extra keys and the
      position of items in the input do not change it. */
  lemma PreprocessDependsOnlyOnRequired(f1: FeatureMap, f2: FeatureMap, required: seq<string>, parse: Parser)
    requires PreprocessInput(f1, required, parse).Success?
    requires PreprocessInput(f2, required, parse).Success?
    requires forall n :: n in required ==> n in Keys(f1) && n in Keys(f2) && Lookup(f1, n) == Lookup(f2, n)
    ensures PreprocessInput(f1, required, parse) == PreprocessInput(f2, required, parse)
  {
    var v1, v2 := PreprocessInput(f1, required, parse).value, PreprocessInput(f2, required, parse).value;
    forall i | 0 <= i < |required| ensures v1[i] == v2[i] {
      assert required[i] in required;
    }
    assert v1 == v2;
  }

  lemma {:induction false} LookupUnique(m: FeatureMap, i: int)
    requires DistinctKeys(m) && 0 <= i < |m|
    ensures m[i].0 in Keys(m) && Lookup(m, m[i].0) == m[i].1
  {
    KeysAt(m, m[i].0);
    if i > 0 {
      assert m[1..][i - 1] == m[i];
      LookupUnique(m[1..], i - 1);
    }
  }

  /** Reordering the items of a dict changes neither whether validation passes, nor the
      missing names reported, nor the vector produced. */
  lemma PreprocessIgnoresOrder(f1: FeatureMap, f2: FeatureMap, required: seq<string>, parse: Parser)
    requires DistinctKeys(f1) && DistinctKeys(f2)
    requires multiset(f1) == multiset(f2)
    ensures Keys(f1) == Keys(f2)
    ensures Validation(f1, required, parse).Pass? <==> Validation(f2, required, parse).Pass?
    ensures Validation(f1, required, parse).Fail? && Validation(f1, required, parse).error.MissingFeatures? ==>
              Validation(f2, required, parse) == Validation(f1, required, parse)
    ensures PreprocessInput(f1, required, parse).Success? ==>
              PreprocessInput(f1, required, parse) == PreprocessInput(f2, required, parse)
  {
    forall x ensures x in f1 <==> x in f2 {
      assert x in f1 <==> x in multiset(f1);
      assert x in f2 <==> x in multiset(f2);
    }
    forall k ensures k in Keys(f1) <==> k in Keys(f2) {
      KeysAt(f1, k);
      KeysAt(f2, k);
      if k in Keys(f1) {
        var i :| 0 <= i < |f1| && f1[i].0 == k;
        assert f1[i] in f2;
      }
      if k in Keys(f2) {
        var i :| 0 <= i < |f2| && f2[i].0 == k;
        assert f2[i] in f1;
      }
    }
    SameFiniteness(f1, f2, parse);
    SameFiniteness(f2, f1, parse);
    ValidationPasses(f1, required, parse);
    ValidationPasses(f2, required, parse);
    if PreprocessInput(f1, required, parse).Success? {
      forall n | n in required ensures n in Keys(f1) && n in Keys(f2) && Lookup(f1, n) == Lookup(f2, n) {
        assert n in RequiredSet(required);
        KeysAt(f1, n);
        var i :| 0 <= i < |f1| && f1[i].0 == n;
        LookupUnique(f1, i);
        assert f1[i] in f2;
        var j :| 0 <= j < |f2| && f2[j] == f1[i];
        LookupUnique(f2, j);
      }
      PreprocessDependsOnlyOnRequired(f1, f2, required, parse);
    }
  }

  lemma SameFiniteness(f1: FeatureMap, f2: FeatureMap, parse: Parser)
    requires forall x :: x in f1 ==> x in f2
    ensures (forall j :: 0 <= j < |f2| ==> IsFiniteNumber(f2[j].1, parse)) ==>
            (forall i :: 0 <= i < |f1| ==> IsFiniteNumber(f1[i].1, parse))
  {
    if forall j :: 0 <= j < |f2| ==> IsFiniteNumber(f2[j].1, parse) {
      forall i | 0 <= i < |f1| ensures IsFiniteNumber(f1[i].1, parse) {
        assert f1[i] in f2;
      }
    }
  }

  // ---------------------------------------------------------------------------
  // normalize_features

  /** What the loop stores for one value: finite floats unchanged, NaN and the infinities
      as 0.0; `None` when np.isfinite rejects the value with a TypeError. */
  function NormalizeValue(v: Value): Option<Float> {
    match v
    case Number(f) => Some(if f.Finite? then f else Finite(0.0))
    case _ => None
  }

  /** The dict `normalize_features` builds from the items seen so far (the last item is the
      last one inserted). */
  function Normalized(m: FeatureMap): Result<FeatureMap, Exception>
    decreases |m|
  {
    if m == [] then Success([])
    else
      match Normalized(m[..|m| - 1])
      case Failure(e) => Failure(e)
      case Success(prefix) =>
        var (name, value) := m[|m| - 1];
        match NormalizeValue(value)
        case None => Failure(NotFloat(name))
        case Some(f) => Success(prefix + [(name, Number(f))])
  }

  lemma {:induction false} NormalizedFailureStays(m: FeatureMap, k: nat)
    requires k <= |m|
    requires Normalized(m[..k]).Failure?
    ensures Normalized(m) == Normalized(m[..k])
    decreases |m| - k
  {
    if k < |m| {
      assert m[..|m| - 1][..k] == m[..k];
      NormalizedFailureStays(m[..|m| - 1], k);
    } else {
      assert m[..k] == m;
    }
  }

  /** normalize_features(features) */
  method NormalizeFeatures(features: FeatureMap) returns (r: Result<FeatureMap, Exception>)
    ensures r == Normalized(features)
  {
    var normalized: FeatureMap := [];
    var i := 0;
    while i < |features|
      invariant 0 <= i <= |features|
      invariant Normalized(features[..i]) == Success(normalized)
    {
      assert features[..i + 1][..i] == features[..i];
      var (name, value) := features[i];
      if !value.Number? {
        NormalizedFailureStays(features, i + 1);
        return Failure(NotFloat(name));
      }
      if value.f.Finite? {
        normalized := normalized + [(name, Number(value.f))];
      } else {
        normalized := normalized + [(name, Number(Finite(0.0)))];
      }
      i := i + 1;
    }
    assert features[..i] == features;
    return Success(normalized);
  }

  /** On success the keys are kept in order, finite values pass through, non-finite ones
      become 0.0, and every value in the result is a finite number. */
  lemma {:induction false} NormalizedValues(m: FeatureMap, r: FeatureMap)
    requires Normalized(m) == Success(r)
    ensures |r| == |m|
    ensures forall i :: 0 <= i < |m| ==>
              r[i].0 == m[i].0 && m[i].1.Number? &&
              r[i].1 == Number(if m[i].1.f.Finite? then m[i].1.f else Finite(0.0))
    ensures forall i :: 0 <= i < |r| ==> r[i].1.Number? && r[i].1.f.Finite?
    decreases |m|
  {
    if m != [] {
      var prefix := Normalized(m[..|m| - 1]).value;
      NormalizedValues(m[..|m| - 1], prefix);
    }
  }

  /** Normalisation succeeds exactly when every value is an int or float; otherwise the
      TypeError names the first other value in iteration order. */
  lemma {:induction false} NormalizedFails(m: FeatureMap)
    ensures Normalized(m).Success? <==> forall i :: 0 <= i < |m| ==> m[i].1.Number?
    ensures Normalized(m).Failure? ==>
              exists j :: 0 <= j < |m| && !m[j].1.Number? && Normalized(m).error == NotFloat(m[j].0) &&
                          forall i :: 0 <= i < j ==> m[i].1.Number?
    decreases |m|
  {
    if m != [] {
      var init := m[..|m| - 1];
      NormalizedFails(init);
      assert forall i :: 0 <= i < |init| ==> init[i] == m[i];
    }
  }

  /** Normalising a normalised dict changes nothing. */
  lemma {:induction false} NormalizedIdempotent(m: FeatureMap, r: FeatureMap)
    requires Normalized(m) == Success(r)
    ensures Normalized(r) == Success(r)
    decreases |m|
  {
    if m != [] {
      var prefix := Normalized(m[..|m| - 1]).value;
      NormalizedIdempotent(m[..|m| - 1], prefix);
      NormalizedValues(m, r);
      assert r[..|r| - 1] == prefix;
    }
  }
}
