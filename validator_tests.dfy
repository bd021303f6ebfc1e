/**
  The concrete checks and the table-driven cases of pkg/validator/validator_test.go,
  stated as methods that call the modelled operations and promise the expected results.
 */
module ValidatorTests {
  import opened Validator
  import opened MapHelpers

  /** A Go error value: nil, or an error carrying a message. */
  datatype Error = Nil | ErrorString(message: string)

  const LengthMessage := "Must be longer than 8 characters"
  const AlphabeticMessage := "Must be an alphabetic string"
  const PositiveMessage := "Value must be positive"

  /** validateLength (pkg/validator/validator_test.go:245-250). */
  function ValidateLength(v: string): (outcome: (bool, Error))
  {
    if |v| > 8 then (true, Nil) else (false, ErrorString(LengthMessage))
  }

  /** validatePositive (pkg/validator/validator_test.go:252-257). */
  function ValidatePositive(v: int): (outcome: (bool, Error))
  {
    if v > 0 then (true, Nil) else (false, ErrorString(PositiveMessage))
  }

  /** The language of the pattern ^[A-Za-z]+$: non-empty, ASCII letters only. */
  predicate IsAlphabetic(s: string)
  {
    |s| > 0 && forall i | 0 <= i < |s| :: 'A' <= s[i] <= 'Z' || 'a' <= s[i] <= 'z'
  }

  /** validateCharacter (pkg/validator/validator_test.go:270-280), with the regular
      expression replaced by the predicate it denotes. */
  function ValidateCharacter(s: string): (outcome: (bool, Error))
  {
    if IsAlphabetic(s) then (true, Nil) else (false, ErrorString(AlphabeticMessage))
  }

  /** A check that fails without an error value. */
  function RejectWithNil(v: string): (outcome: (bool, Error))
  {
    (false, Nil)
  }

  /** The "name" check list of TestBindValidators. */
  function NameChecks(): (checks: Checks<string, Error>)
  {
    [ValidateLength, ValidateCharacter]
  }

  /** The "name" check list applied to any name: one error per failing check, the
      length error first. (pkg/validator/validator_test.go:38, 48, 58) */
  lemma NameChecksOutcome(name: string)
    ensures Validate(NameChecks(), name) == ValidatedField(name, |name| > 8 && IsAlphabetic(name),
      (if |name| > 8 then [] else [ErrorString(LengthMessage)]) +
      (if IsAlphabetic(name) then [] else [ErrorString(AlphabeticMessage)]))
  {
    var checks := NameChecks();
    assert checks[..1] == [ValidateLength];
    assert checks[..1][..0] == [];
    assert checks[0](name) == ValidateLength(name);
    assert checks[1](name) == ValidateCharacter(name);
    assert FailedErrors(checks[..1], name) == (if |name| > 8 then [] else [ErrorString(LengthMessage)]);
  }

  /** ApplyValidators with the "name" check list. */
  method ApplyNameChecks(name: string) returns (field: ValidatedField<string, Error>)
    ensures field.value == name
    ensures field.isValid <==> |name| > 8 && IsAlphabetic(name)
    ensures field.errors ==
      (if |name| > 8 then [] else [ErrorString(LengthMessage)]) +
      (if IsAlphabetic(name) then [] else [ErrorString(AlphabeticMessage)])
  {
    field := ApplyValidators(NameChecks(), name);
    NameChecksOutcome(name);
  }

  /** "hell" fails only the length check. (pkg/validator/validator_test.go:46-54) */
  method ShortName() returns (field: ValidatedField<string, Error>)
    ensures field == ValidatedField("hell", false, [ErrorString(LengthMessage)])
  {
    field := ApplyNameChecks("hell");
  }

  /** "hellowor8d" fails only the alphabetic check. (pkg/validator/validator_test.go:56-64) */
  method NameWithDigit() returns (field: ValidatedField<string, Error>)
    ensures field == ValidatedField("hellowor8d", false, [ErrorString(AlphabeticMessage)])
  {
    var name := "hellowor8d";
    assert name[8] == '8';
    field := ApplyNameChecks(name);
  }

  /** "helloWorld" passes both checks. (pkg/validator/validator_test.go:35-44) */
  method ValidName() returns (field: ValidatedField<string, Error>)
    ensures field == ValidatedField("helloWorld", true, [])
  {
    field := ApplyNameChecks("helloWorld");
  }

  /** A failing check's error is recorded even when it is nil.
      (pkg/validator/validator.go:14-17) */
  method NilErrorIsRecorded(v: string) returns (field: ValidatedField<string, Error>)
    ensures field == ValidatedField(v, false, [Nil])
  {
    var checks: Checks<string, Error> := [RejectWithNil];
    field := ApplyValidators(checks, v);
    assert checks[..0] == [];
  }

  /** The test runner of TestBindValidators for the "name" cases: bind, validate, and
      ask Every whether all produced fields are valid. A record without "name" is
      reported valid, since the missing field is skipped.
      (pkg/validator/validator_test.go:17-31, 33-65) */
  method NameRecordIsValid(data: map<string, string>) returns (valid: bool)
    ensures valid <==> ("name" in data ==> |data["name"]| > 8 && IsAlphabetic(data["name"]))
  {
    var config := map["name" := NameChecks()];
    var fields := ValidateDataMap(config, data);
    valid := Every(fields, (f: ValidatedField<string, Error>) => f.isValid);
    if "name" in data {
      assert "name" in fields;
      NameChecksOutcome(data["name"]);
    } else {
      assert fields.Keys == {};
    }
  }

  /** The "age" check list of TestBindValidators. */
  function AgeChecks(): (checks: Checks<int, Error>)
  {
    [ValidatePositive]
  }

  /** The "age" check list applied to any age: valid exactly when it is positive.
      (pkg/validator/validator_test.go:70, 80) */
  lemma AgeChecksOutcome(age: int)
    ensures Validate(AgeChecks(), age) ==
      ValidatedField(age, age > 0, if age > 0 then [] else [ErrorString(PositiveMessage)])
  {
    var checks := AgeChecks();
    assert checks[..0] == [];
    assert checks[0](age) == ValidatePositive(age);
  }

  /** The "age" cases of TestBindValidators: the bound function yields one field, valid
      exactly when the age is positive. (pkg/validator/validator_test.go:66-87) */
  method AgeRecord(age: int) returns (fields: map<string, ValidatedField<int, Error>>)
    ensures fields == map["age" := ValidatedField(age, age > 0, if age > 0 then [] else [ErrorString(PositiveMessage)])]
  {
    fields := ValidateDataMap(map["age" := AgeChecks()], map["age" := age]);
    AgeChecksOutcome(age);
    assert fields.Keys == {"age"};
    assert fields["age"] == ValidatedField(age, age > 0, if age > 0 then [] else [ErrorString(PositiveMessage)]);
  }

  /** The record {"age": 30} is valid and {"age": -1} is not.
      (pkg/validator/validator_test.go:67-86) */
  method AgeRecordsAreChecked() returns (adult: bool, negative: bool)
    ensures adult && !negative
  {
    var fields := AgeRecord(30);
    adult := Every(fields, (f: ValidatedField<int, Error>) => f.isValid);
    fields := AgeRecord(-1);
    negative := Every(fields, (f: ValidatedField<int, Error>) => f.isValid);
    assert "age" in fields && !fields["age"].isValid;
  }

  /** The two-field maps of the Every, Some and Filter tables: field "a" and field "b",
      each with its value and validity flag. */
  function Fields(aValue: string, aValid: bool, bValue: string, bValid: bool)
    : (fields: map<string, ValidatedField<string, Error>>)
  {
    map["a" := ValidatedField(aValue, aValid, []), "b" := ValidatedField(bValue, bValid, [])]
  }

  /** TestEvery: true when both fields are valid, false when one is not.
      (pkg/validator/validator_test.go:90-124) */
  method EveryCases() returns (allValid: bool, oneInvalid: bool)
    ensures allValid && !oneInvalid
  {
    allValid := Every(Fields("test", true, "example", true), (f: ValidatedField<string, Error>) => f.isValid);
    var someInvalid := Fields("test", false, "example", true);
    oneInvalid := Every(someInvalid, (f: ValidatedField<string, Error>) => f.isValid);
    assert "a" in someInvalid && !someInvalid["a"].isValid;
  }

  /** TestSome: true when one field is valid, false when none is.
      (pkg/validator/validator_test.go:126-160) */
  method SomeCases() returns (oneValid: bool, noneValid: bool)
    ensures oneValid && !noneValid
  {
    var oneValidField := Fields("test", false, "example", true);
    oneValid := Some(oneValidField, (f: ValidatedField<string, Error>) => f.isValid);
    assert "b" in oneValidField && oneValidField["b"].isValid;
    noneValid := Some(Fields("fail", false, "fail", false), (f: ValidatedField<string, Error>) => f.isValid);
  }

  /** TestFilter: keeping the valid fields leaves one of them, or both when both are
      valid. (pkg/validator/validator_test.go:162-196) */
  method FilterCases() returns (oneKept: map<string, ValidatedField<string, Error>>, bothKept: map<string, ValidatedField<string, Error>>)
    ensures |oneKept| == 1 && oneKept == map["b" := ValidatedField("example", true, [])]
    ensures |bothKept| == 2 && bothKept == Fields("hello", true, "world", true)
  {
    oneKept := Filter(Fields("test", false, "example", true), (f: ValidatedField<string, Error>) => f.isValid);
    assert oneKept.Keys == {"b"};
    bothKept := Filter(Fields("hello", true, "world", true), (f: ValidatedField<string, Error>) => f.isValid);
    assert bothKept.Keys == {"a", "b"};
  }

  /** ASCII upper-casing of one character. */
  function UpperChar(c: char): (upper: char)
  {
    if 'a' <= c <= 'z' then (c as int - 32) as char else c
  }

  /** ASCII upper-casing of a string. */
  function ToUpper(s: string): (upper: string)
  {
    if s == [] then [] else [UpperChar(s[0])] + ToUpper(s[1..])
  }

  /** Map with upper-casing: {"a": "test", "b": "example"} becomes
      {"a": "TEST", "b": "EXAMPLE"}. (pkg/validator/validator.go:35-41) */
  method MapToUpper() returns (result: map<string, string>)
    ensures result == map["a" := "TEST", "b" := "EXAMPLE"]
  {
    result := Map(map["a" := "test", "b" := "example"], ToUpper);
    assert ToUpper("test") == "TEST" by {
      assert "test"[1..] == "est" && "est"[1..] == "st" && "st"[1..] == "t" && "t"[1..] == "";
    }
    assert ToUpper("example") == "EXAMPLE" by {
      assert "example"[1..] == "xample" && "xample"[1..] == "ample" && "ample"[1..] == "mple";
      assert "mple"[1..] == "ple" && "ple"[1..] == "le" && "le"[1..] == "e" && "e"[1..] == "";
    }
    assert result.Keys == {"a", "b"};
  }

  /** The reducer of the "Concatenate valid fields" case. */
  function Concatenate(acc: string, f: ValidatedField<string, Error>): (joined: string)
  {
    acc + f.value
  }

  /** The reducer of the "Concatenate with separator" case. */
  function ConcatenateWithSeparator(acc: string, f: ValidatedField<string, Error>): (joined: string)
  {
    if acc != "" then acc + ", " + f.value else f.value
  }

  /** The two-field map the Reduce cases use. */
  function Words(): (fields: map<string, ValidatedField<string, Error>>)
  {
    map["a" := ValidatedField("hello", true, []), "b" := ValidatedField("world", true, [])]
  }

  /** The only enumerations of two distinct keys are the two orders of them. */
  lemma TwoKeyEnumerations<K>(order: seq<K>, a: K, b: K)
    requires a != b && Enumerates(order, {a, b})
    ensures order == [a, b] || order == [b, a]
  {
    EnumeratesMembers(order, {a, b});
    assert |order| == 2;
    assert a in order && b in order;
  }

  /** Both visiting orders are possible and they give different results, so the
      Reduce cases expect one particular order of map iteration.
      (pkg/validator/validator_test.go:206-232) */
  lemma ReduceCasesDependOnOrder()
    ensures Enumerates(["a", "b"], Words().Keys) && Enumerates(["b", "a"], Words().Keys)
    ensures FoldInOrder(Words(), ["a", "b"], Concatenate, "") == "helloworld"
    ensures FoldInOrder(Words(), ["b", "a"], Concatenate, "") == "worldhello"
    ensures FoldInOrder(Words(), ["a", "b"], ConcatenateWithSeparator, "") == "hello, world"
    ensures FoldInOrder(Words(), ["b", "a"], ConcatenateWithSeparator, "") == "world, hello"
  {
    assert Words().Keys == {"a", "b"};
    assert multiset({"a", "b"}) == multiset{"a", "b"};
    assert ["a", "b"][..1] == ["a"] && ["a"][..0] == [];
    assert ["b", "a"][..1] == ["b"] && ["b"][..0] == [];
  }

  /** Reduce visits the two keys in one of the two possible orders. */
  lemma WordsEnumerations(order: seq<string>)
    requires Enumerates(order, Words().Keys)
    ensures order == ["a", "b"] || order == ["b", "a"]
  {
    var keys: set<string> := {"a", "b"};
    assert Words().Keys == keys;
    TwoKeyEnumerations(order, "a", "b");
  }

  /** TestReduce: each reducer gives one of two strings, depending on the order in
      which the map is visited; the expected "helloworld" and "hello, world" are only
      one of the two. (pkg/validator/validator_test.go:198-243) */
  method ReduceCases() returns (joined: string, separated: string)
    ensures joined == "helloworld" || joined == "worldhello"
    ensures separated == "hello, world" || separated == "world, hello"
  {
    ReduceCasesDependOnOrder();
    ghost var order: seq<string>;
    joined, order := Reduce(Words(), Concatenate, "");
    WordsEnumerations(order);
    separated, order := Reduce(Words(), ConcatenateWithSeparator, "");
    WordsEnumerations(order);
  }
}
