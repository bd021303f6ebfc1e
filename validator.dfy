/**
  Field validation: applying an ordered list of checks to one value, and binding
  per-field check lists to the fields of a record (pkg/validator/validator.go).
 */
module Validator {

  /** A check: a pure function from a value to pass/fail and an error.
      The error is whatever the check returns, even when it fails with a "nil" error. */
  type Check<!T, E> = T -> (bool, E)

  /** An ordered list of checks for one field. */
  type Checks<!T, E> = seq<Check<T, E>>

  /** The outcome of running a check list on one value. */
  datatype ValidatedField<T, E> = ValidatedField(value: T, isValid: bool, errors: seq<E>)

  /** Every check of the list accepts the value. */
  predicate AllPass<T, E>(checks: Checks<T, E>, value: T)
  {
    forall i | 0 <= i < |checks| :: checks[i](value).0
  }

  /** The errors of the failing checks, in list order. */
  function FailedErrors<T, E>(checks: Checks<T, E>, value: T): (errors: seq<E>)
  {
    if checks == [] then []
    else
      var last := checks[|checks| - 1](value);
      FailedErrors(checks[..|checks| - 1], value) + (if last.0 then [] else [last.1])
  }

  /** The positions of the failing checks, in increasing order: an independent
      description of which checks contribute an error. */
  ghost function FailingIndices<T, E>(checks: Checks<T, E>, value: T): (idx: seq<nat>)
    ensures forall j | 0 <= j < |idx| :: idx[j] < |checks| && !checks[idx[j]](value).0
    ensures forall j1, j2 | 0 <= j1 < j2 < |idx| :: idx[j1] < idx[j2]
    ensures forall i | 0 <= i < |checks| && !checks[i](value).0 :: i in idx
  {
    if checks == [] then []
    else
      var n := |checks| - 1;
      FailingIndices(checks[..n], value) + (if checks[n](value).0 then [] else [n])
  }

  /** The reference value of applying a check list to a value. */
  function Validate<T, E>(checks: Checks<T, E>, value: T): (field: ValidatedField<T, E>)
  {
    ValidatedField(value, AllPass(checks, value), FailedErrors(checks, value))
  }

  /** No short-circuit: the errors of a concatenated list are the errors of each part, in order. */
  lemma {:induction false} FailedErrorsAppend<T, E>(a: Checks<T, E>, b: Checks<T, E>, value: T)
    ensures FailedErrors(a + b, value) == FailedErrors(a, value) + FailedErrors(b, value)
    decreases |b|
  {
    if b == [] {
      assert a + b == a;
    } else {
      var n := |b| - 1;
      assert (a + b)[..|a + b| - 1] == a + b[..n];
      assert (a + b)[|a + b| - 1] == b[n];
      FailedErrorsAppend(a, b[..n], value);
    }
  }

  /** The errors are exactly those of the failing checks, one per failing check, in
      declaration order. */
  lemma {:induction false} FailedErrorsAtFailingIndices<T, E>(checks: Checks<T, E>, value: T)
    ensures |FailedErrors(checks, value)| == |FailingIndices(checks, value)|
    ensures forall j | 0 <= j < |FailedErrors(checks, value)| ::
      FailedErrors(checks, value)[j] == checks[FailingIndices(checks, value)[j]](value).1
  {
    if checks != [] {
      var n := |checks| - 1;
      var prefix := checks[..n];
      FailedErrorsAtFailingIndices(prefix, value);
      forall j | 0 <= j < |FailingIndices(prefix, value)|
        ensures prefix[FailingIndices(prefix, value)[j]] == checks[FailingIndices(prefix, value)[j]]
      {
      }
    }
  }

  /** A result is valid exactly when it carries no error. */
  lemma {:induction false} ValidIffNoErrors<T, E>(checks: Checks<T, E>, value: T)
    ensures AllPass(checks, value) <==> FailedErrors(checks, value) == []
  {
    if checks != [] {
      var n := |checks| - 1;
      ValidIffNoErrors(checks[..n], value);
      if AllPass(checks, value) {
        assert AllPass(checks[..n], value);
      } else if AllPass(checks[..n], value) {
        assert !checks[n](value).0;
      }
    }
  }

  /** ApplyValidators: runs every check, in order, on the value.
      (pkg/validator/validator.go:11-21) */
  method ApplyValidators<T, E>(checks: Checks<T, E>, value: T) returns (field: ValidatedField<T, E>)
    ensures field.value == value
    ensures field.isValid <==> AllPass(checks, value)
    ensures field.errors == FailedErrors(checks, value)
    ensures field.isValid <==> field.errors == []
  {
    field := ValidatedField(value, true, []);
    for i := 0 to |checks|
      invariant field.value == value
      invariant field.isValid <==> AllPass(checks[..i], value)
      invariant field.errors == FailedErrors(checks[..i], value)
    {
      assert checks[..i + 1][..i] == checks[..i];
      var outcome := checks[i](value);
      if !outcome.0 {
        field := field.(isValid := false, errors := field.errors + [outcome.1]);
      }
    }
    assert checks[..|checks|] == checks;
    ValidIffNoErrors(checks, value);
  }

  /** BindValidators: captures the per-field check lists and returns the record
      validation function. (pkg/validator/validator.go:23-33) */
  function BindValidators<K, T, E>(checksByField: map<K, Checks<T, E>>)
    : (validate: map<K, T> -> map<K, ValidatedField<T, E>>)
  {
    data => map k | k in checksByField && k in data :: Validate(checksByField[k], data[k])
  }

  /** The body of the function BindValidators returns: visits the configured fields in
      an arbitrary order and validates each one the data supplies.
      (pkg/validator/validator.go:24-32) */
  method ValidateDataMap<K, T, E>(checksByField: map<K, Checks<T, E>>, data: map<K, T>)
    returns (fields: map<K, ValidatedField<T, E>>)
    ensures fields.Keys == checksByField.Keys * data.Keys
    ensures forall k | k in fields :: fields[k] == Validate(checksByField[k], data[k])
    ensures fields == BindValidators(checksByField)(data)
  {
    fields := map[];
    var pending := checksByField.Keys;
    while pending != {}
      invariant pending <= checksByField.Keys
      invariant fields.Keys == (checksByField.Keys - pending) * data.Keys
      invariant forall k | k in fields :: k in checksByField && k in data
      invariant forall k | k in fields :: fields[k] == Validate(checksByField[k], data[k])
      decreases pending
    {
      var key :| key in pending;
      if key in data {
        var field := ApplyValidators(checksByField[key], data[key]);
        fields := fields[key := field];
      }
      pending := pending - {key};
    }
    var expected := BindValidators(checksByField)(data);
    assert fields.Keys == expected.Keys;
  }

  /** A record is valid (every produced field valid) exactly when every configured field
      that the data supplies passes all its checks; configured fields the data omits
      are not reported. (pkg/validator/validator.go:26-29, pkg/validator/validator_test.go:20-24) */
  lemma RecordValidity<K, T, E>(checksByField: map<K, Checks<T, E>>, data: map<K, T>)
    ensures (forall k | k in BindValidators(checksByField)(data) :: BindValidators(checksByField)(data)[k].isValid)
        <==> (forall k | k in checksByField && k in data :: AllPass(checksByField[k], data[k]))
  {
    var fields := BindValidators(checksByField)(data);
    if forall k | k in fields :: fields[k].isValid {
      forall k | k in checksByField && k in data ensures AllPass(checksByField[k], data[k]) {
        assert k in fields;
      }
    }
  }
}
