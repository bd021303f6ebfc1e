# generic-validator, modelled in Dafny

This project models the Go package `validator` (`pkg/validator/validator.go`). The package has two parts:

- **Field validation.** `ApplyValidators` runs an ordered list of checks against one value. It runs every check and never stops early. It records overall validity and the errors of the failing checks, in list order. `BindValidators` captures a map from field key to check list and returns a function. Given a data map, that function validates every field that is both configured and supplied.
- **Map helpers.** `Map`, `Every`, `Some`, `Filter` and `Reduce` work over a Go `map[K]V`.

Modules:

- `Validator` (`validator.dfy`) holds the check type, `ValidatedField`, `ApplyValidators`, `BindValidators` and the closure's loop as the method `ValidateDataMap`.
- `MapHelpers` (`map_helpers.dfy`) holds the five map helpers.
- `ValidatorTests` (`validator_tests.dfy`) holds the concrete checks and the table-driven cases of `pkg/validator/validator_test.go`. Each case is a method that calls the modelled operations and promises the expected result.

How the model is encoded:

- A check is a total Dafny function `T -> (bool, E)`. The error type `E` is generic.
- The test module uses `datatype Error = Nil | ErrorString(message)`. So a failing check that returns a nil error is modelled, and the model appends that nil like the Go code does.
- A Go map is a Dafny `map`. Every loop over a map takes keys out of a shrinking set with `var key :| key in pending`. So each method's contract holds for every iteration order, as Go's `range` over a map requires.
- `Reduce` also returns, as a ghost out-parameter, the order it visited the keys in. Its result is the left fold of the reducer along that order.
- The loops with state (`ApplyValidators`, the `BindValidators` closure, `Map`, `Filter`, `Every`, `Some`, `Reduce`) are methods with loop invariants. The functions `AllPass`, `FailedErrors`, `Validate` and `FoldInOrder` specify them.

The results are Dafny values, so two runs of `ApplyValidators` on the same checks and value give equal results. The contract of `ApplyValidators` fixes its result completely.

## Model

| member | source | states |
|---|---|---|
| `Validator.ApplyValidators` | pkg/validator/validator.go:11-21 | The result keeps the input value unchanged. It is valid iff every check accepts the value. Its errors are the failing checks' errors in list order. It is valid iff it carries no error, so an empty list gives a valid result with no errors. |
| `Validator.FailingIndices` | pkg/validator/validator.go:13-18 | The positions of the failing checks: strictly increasing, each one a check that fails, and every failing check included. |
| `Validator.FailedErrorsAtFailingIndices` | pkg/validator/validator.go:13-18 | There is exactly one error per failing check. The j-th error is the error returned by the j-th failing check. |
| `Validator.FailedErrorsAppend` | pkg/validator/validator.go:13-18 | No short-circuit: the errors of a concatenated check list are the errors of the first part followed by those of the second. |
| `Validator.ValidIffNoErrors` | pkg/validator/validator.go:12-19 | All checks pass iff the error list is empty. |
| `Validator.BindValidators` | pkg/validator/validator.go:23-33 | Captures the per-field check lists and returns the record validation function, given in closed form: `Validate` of each field's checks on its value, over the keys present in both maps. `ValidateDataMap` is proved equal to it. |
| `Validator.ValidateDataMap` | pkg/validator/validator.go:24-32 | The closure's loop visits the configured keys in any order. Its output has exactly the keys found in both maps, each holding that field's validation result, and it equals the bound function's value. |
| `Validator.RecordValidity` | pkg/validator/validator.go:26-29 | Every produced field is valid iff every configured and supplied field passes all its checks. A configured field missing from the data does not make the record invalid. |
| `MapHelpers.Map` | pkg/validator/validator.go:35-41 | The result has exactly the input's keys, each mapped to fn of the input's value. |
| `MapHelpers.Every` | pkg/validator/validator.go:43-50 | True iff fn holds for every value; true on an empty map. |
| `MapHelpers.Some` | pkg/validator/validator.go:52-59 | True iff fn holds for some value; false on an empty map. |
| `MapHelpers.Filter` | pkg/validator/validator.go:61-69 | The result keeps exactly the keys whose value satisfies fn, with their values unchanged. Every kept value satisfies fn, and the result's size is the number of such keys. |
| `MapHelpers.Reduce` | pkg/validator/validator.go:71-77 | The visiting order lists every key exactly once. The result is the reducer folded along that order, starting from the initial value. An empty map returns the initial value. |
| `MapHelpers.FoldOrderIndependent` | pkg/validator/validator.go:73-75 | With a reducer that gives the same result whichever of two values comes first, any two permutations of the keys give the same fold. |
| `MapHelpers.ReduceDeterministic` | pkg/validator/validator.go:71-77 | With such a reducer, any two visiting orders Reduce may take give the same result. |
| `ValidatorTests.ValidateLength` | pkg/validator/validator_test.go:245-250 | Passes with a nil error when the string is longer than 8; otherwise fails with "Must be longer than 8 characters". The length is counted in characters, where Go's `len` counts bytes. |
| `ValidatorTests.ValidatePositive` | pkg/validator/validator_test.go:252-257 | Passes with a nil error when the value is positive; otherwise fails with "Value must be positive". |
| `ValidatorTests.ValidateCharacter` | pkg/validator/validator_test.go:270-280 | Passes with a nil error when the string matches `^[A-Za-z]+$` (non-empty, ASCII letters only); otherwise fails with "Must be an alphabetic string". |
| `ValidatorTests.NameChecksOutcome` | pkg/validator/validator_test.go:36-63 | The check list {validateLength, validateCharacter} on any name is valid iff the name is longer than 8 and alphabetic. The length error, when present, comes before the alphabetic error. |
| `ValidatorTests.ApplyNameChecks` | pkg/validator/validator_test.go:245-280 | ApplyValidators with that check list gives the same outcome for every name. |
| `ValidatorTests.ValidName` | pkg/validator/validator_test.go:35-44 | "helloWorld" is valid with no errors. |
| `ValidatorTests.ShortName` | pkg/validator/validator_test.go:45-54 | "hell" is invalid with the single error "Must be longer than 8 characters". |
| `ValidatorTests.NameWithDigit` | pkg/validator/validator_test.go:55-64 | "hellowor8d" is invalid with the single error "Must be an alphabetic string". |
| `ValidatorTests.NilErrorIsRecorded` | pkg/validator/validator.go:14-17 | A check that fails with a nil error still contributes that nil to the error list. |
| `ValidatorTests.NameRecordIsValid` | pkg/validator/validator_test.go:17-31 | Bind, validate, then Every over isValid: the record is valid iff a supplied "name" is longer than 8 and alphabetic. A record without "name" counts as valid. |
| `ValidatorTests.AgeChecksOutcome` | pkg/validator/validator_test.go:252-257 | The check list {validatePositive} on any age is valid iff the age is positive, and otherwise has the single error "Value must be positive". |
| `ValidatorTests.AgeRecord` | pkg/validator/validator_test.go:66-87 | Binding {"age": [validatePositive]} and applying it to {"age": n} gives exactly {"age": {n, n > 0, errors}}. |
| `ValidatorTests.AgeRecordsAreChecked` | pkg/validator/validator_test.go:67-86 | {"age": 30} is valid and {"age": -1} is not. |
| `ValidatorTests.EveryCases` | pkg/validator/validator_test.go:90-124 | Every over isValid: true when both fields are valid, false when one is invalid. |
| `ValidatorTests.SomeCases` | pkg/validator/validator_test.go:126-160 | Some over isValid: true when one field is valid, false when none is. |
| `ValidatorTests.FilterCases` | pkg/validator/validator_test.go:162-196 | Filter over isValid keeps one entry (which one is named) or both entries. |
| `ValidatorTests.MapToUpper` | pkg/validator/validator.go:35-41 | Map with upper-casing turns {"a": "test", "b": "example"} into {"a": "TEST", "b": "EXAMPLE"}. |
| `ValidatorTests.ReduceCasesDependOnOrder` | pkg/validator/validator_test.go:206-232 | Both key orders are valid enumerations of the test map. They give "helloworld" / "worldhello" for plain concatenation and "hello, world" / "world, hello" with the separator. |
| `ValidatorTests.ReduceCases` | pkg/validator/validator_test.go:198-243 | Whatever order Reduce takes, it returns one of those two strings for each reducer. |

## Left out

- Go's `error` interface, `errors.New` and `fmt.Errorf` are left out. An error is a generic value, or `Error` in the test module.
- The Go `testing` harness (`t.Run`, `t.Errorf`, the table runners' loops) is left out. Each table row is a method instead.
- `validateCharacter` delegates to Go's `regexp` package, which is foreign code. It is modelled as the language of `^[A-Za-z]+$`: non-empty and ASCII letters only. Its branch for a pattern that fails to compile is left out, because the pattern is a constant that compiles.
- `validateTrue` and `validateEmptyString` (pkg/validator/validator_test.go:259-268) are left out, because no test case uses them.
- `validateLength` compares Go's `len`, which counts bytes, while the model uses `|v|`, which counts characters. They agree on the ASCII inputs of the tests.
- Go's `int` is 64-bit. No modelled operation does arithmetic on it, so unbounded `int` changes nothing.
- A nil Go map behaves like an empty one for every operation modelled, so it is not modelled separately.
- `Map`, `Filter`, `BindValidators`: Dafny maps are values, so "the input is not modified" holds by construction. Aliasing of Go maps is not modelled.
- `MapHelpers.Reduce`: the model claims no specific iteration order, because Go does not fix one. Determinism is proved only for reducers where the order of two values does not matter.
- Go generic constraints (`comparable`, `any`) are modelled by Dafny type parameters. Map keys get equality because Dafny requires it of map keys.

## Findings

| source | as written | input that shows it | evidently intended | confidence | as-written member | corrected member |
|---|---|---|---|---|---|---|
| pkg/validator/validator_test.go:206-232 | The two Reduce cases expect "helloworld" and "hello, world", which assumes "a" is visited before "b". | The map {"a": "hello", "b": "world"}, visited "b" first, gives "worldhello" and "world, hello". | Accept either order, or use a reducer that does not depend on order. | high (not executed) | `ValidatorTests.ReduceCasesDependOnOrder` | `ValidatorTests.ReduceCases` |
