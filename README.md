# Verified model of the `going` data-access helpers

This project models three small parts of a Go library for applications that
talk to relational databases:

- **`columns`**: `Columns` is an ordered, duplicate-free list of column
  names. It is built from a record's fields, or starts empty. `Add` and
  `Remove` change it in place. It renders three SQL fragments: the names
  joined with `", "`, the same with a `:` in front of each name (the
  bind-parameter form), and the assignment list `name = :name, ...`. The
  collection stores two sequences, `Names` and `SymbolizedNames`. The model
  is the class `Columns.Columns`. Its invariant `Valid()` says that `Names`
  has no repeats and that `SymbolizedNames[i] == ":" + Names[i]` at every i.
  `Add` and `Remove` are proved against the sequence functions `AddAll` and
  `Without`, and the lemmas beside those functions prove what the tests
  ask of them. Module `ColumnsScenarios` replays every assertion of the
  three tests of the package (`columns_test.go:17-65`) against these
  contracts, the rendered strings included.
- **`nulls`**: `NullInt32`, `NullUInt32` and `NullString` each pair a value
  with a `Valid` flag. `Value` feeds the database driver. `MarshalJSON` and
  `UnmarshalJSON` map "not valid" to and from the JSON literal `null`. Each
  becomes a class with the struct's two fields (module `Nulls`). The integer
  text conversions they use from Go's `strconv` are modelled in module
  `Strconv`: `ParseInt(s, 10, 32)` and `FormatInt(n, 10)`. That module also
  proves that parsing formatted text gives the number back exactly when the
  number fits in 32 signed bits. `NullUInt32` reads its JSON with the
  signed 32-bit parser and then converts to `uint32`. So `"-1"` is accepted
  as 4294967295, and a valid value of 2^31 or more is written as text that
  its own `UnmarshalJSON` rejects. The model states both behaviours as the
  code has them.
- **`validate/validators`**: `IntIsPresent.IsValid` adds the message
  `"<Name> can not be blank."` under the key `generateKey(Name)` when
  `Field` is zero, and does nothing otherwise (module `Validators`).

The implementation file of `columns` is not part of this model. The model
follows what the package's tests assert (`columns_test.go:17-65`): build in
field order, skip fields tagged `-`, use the tag when there is one and the
field name otherwise, add only absent names, and remove listed names in place.
`SymbolizedNames` is stored because the test reads it as a field
(`columns_test.go:24`); the class invariant keeps it in step with `Names`.

Files: `wrappers.dfy` (Option, Result), `columns.dfy`,
`columns_scenarios.dfy`, `strconv.dfy`, `nulls.dfy`, `validators.dfy`.

## Model

| member | source | states |
|---|---|---|
| `Columns.ColumnsForStruct` | columns/columns_test.go:10-24 | A fresh valid collection whose names are `ColumnsOf(fields)`: each field's column added in declaration order. A record passed by value and by pointer give the same names and symbolized names. |
| `Columns.ColumnsOfFields` | columns/columns_test.go:10-23 | A record's columns have no repeats. They are exactly the columns its fields name. When those are distinct, they appear in field declaration order. |
| `Columns.FieldColumnsMembers` | columns/columns_test.go:10-15 | A name is contributed exactly when some field not tagged `-` names it, through its tag or, untagged, through its own name. |
| `ColumnsScenarios.FooColumns` | columns/columns_test.go:10-23 | The test record yields `first_name`, `LastName`, `email_address`: the tag replaces the name, and the field tagged `-` is skipped. |
| `ColumnsScenarios.FooRenderings` | columns/columns_test.go:23-27 | A valid collection holding the test record's columns has, literally, the symbolized names, `NamesString`, `SymbolizedNamesString` and `UpdatesString` the test expects. |
| `ColumnsScenarios.FooBarRenderings` | columns/columns_test.go:30-34 | The same four expectations once `bar` is added. |
| `ColumnsScenarios.FirstLastRenderings` | columns/columns_test.go:37-41 | The same four expectations once `bar` and `email_address` are removed. |
| `ColumnsScenarios.AddBar` | columns/columns_test.go:29-30 | `Add("bar")` on the test record's columns appends `bar`. |
| `ColumnsScenarios.RemoveBarAndEmail` | columns/columns_test.go:36-37 | `Remove("bar", "email_address")` leaves `first_name`, `LastName`. |
| `Columns.Columns.constructor` | columns/columns_test.go:48 | `NewColumns` gives an empty, valid collection. |
| `Columns.Columns.IndexOf` | columns/columns_test.go:52-54 | The linear scan behind duplicate suppression: -1 exactly when the name is absent, otherwise a position holding it. |
| `Columns.Columns.Add` | columns/columns_test.go:29-31 | The invariant is kept, and the new names are `AddAll(old names, args)`: each argument appended in order unless already present. |
| `Columns.AddAllExtends` | columns/columns_test.go:29-30 | Adding never changes or reorders the names already there; it only appends. |
| `Columns.AddAllFresh` | columns/columns_test.go:29-30 | Adding N distinct new names appends exactly those names, in argument order, so the length grows by N. |
| `Columns.AddAllMembers` | columns/columns_test.go:29-30 | After adding, a name is present iff it was present before or was added. |
| `Columns.AddAllNoDuplicates` | columns/columns_test.go:48-54 | Adding keeps the names duplicate-free. |
| `Columns.AddAllPresent` | columns/columns_test.go:52-54 | Adding names that are all present already changes nothing. |
| `Columns.AddAllIdempotent` | columns/columns_test.go:49-54 | Adding the same names a second time changes nothing. |
| `Columns.Columns.Remove` | columns/columns_test.go:36-38 | The invariant is kept, and the new names are `Without(old names, args)`: the old names minus those listed, the rest in their old order, with the symbolized names following along. |
| `Columns.WithoutMembers` | columns/columns_test.go:36-37 | After removal, a name is present iff it was present before and was not listed. |
| `Columns.WithoutIsSubsequence` | columns/columns_test.go:36-37 | The names that survive a removal keep their relative order. |
| `Columns.WithoutSameNames` | columns/columns_test.go:36-37 | The result depends only on which names are listed, not on their order: `Remove("bar", "email_address")` equals `Remove("email_address", "bar")`. |
| `Columns.WithoutAbsent` | columns/columns_test.go:36-37 | Removing names that are not present changes nothing. |
| `Columns.WithoutNoDuplicates` | columns/columns_test.go:36-38 | Removal keeps the names duplicate-free. |
| `Columns.Join` | columns/columns_test.go:25-27 | `strings.Join`: the empty string for no parts; otherwise the parts' total length plus one separator between each neighbouring pair, so one separator fewer than parts. |
| `Columns.JoinAddFresh` | columns/columns_test.go:25-32 | Adding a new name to a non-empty collection extends its `NamesString` by `", "` and that name. |
| `Columns.Columns.NamesString` | columns/columns_test.go:25 | The names joined with `", "`. It is empty for no names, and otherwise its length is the names' total length plus 2 per separator. |
| `Columns.Columns.SymbolizedNamesString` | columns/columns_test.go:26 | The stored symbolized names joined with `", "`. By the invariant, these are `":" + Names[i]` in order. |
| `Columns.Columns.UpdatesString` | columns/columns_test.go:27 | `Names[i] + " = :" + Names[i]` for each i in order, joined with `", "`. Each name is paired with its own symbol. |
| `Strconv.Digits` | nulls/null_int32.go:50 | The decimal digits of a natural number: non-empty, all digits, spelling exactly that number, with no leading zero (the first digit is `0` only for 0, and then it is the only digit). |
| `Strconv.FormatInt` | nulls/null_int32.go:50 | JSON integer text (`IsJsonInteger`: an optional `-`, never `+`, digits with no leading zero) whose value is exactly n; it starts with `-` exactly for a negative number. |
| `Strconv.ParseUint32` | nulls/null_int32.go:64 | `strconv.ParseUint(s, 10, 32)`, which `ParseInt` calls on the text after its sign: accepts exactly non-empty digit runs up to 2^32 - 1 and returns their value. The error is a range error exactly when the value read from the front passes 2^32 - 1 before any non-digit (`Overflows`); otherwise it is a syntax error. |
| `Strconv.OverflowsLeadingDigits` | nulls/null_int32.go:64 | The running value passes the limit before a non-digit exactly when the maximal run of leading digits spells more than 2^32 - 1. |
| `Strconv.ParseInt32` | nulls/null_int32.go:64 | Accepts exactly the base-10 integer texts (optional sign, at least one digit) whose value lies in [-2^31, 2^31-1], and returns that value. The error is a syntax error exactly when the text is not decimal and its leading digits do not overflow 32 bits; every other failure is a range error. |
| `Strconv.RangeBeforeSyntax` | nulls/null_int32.go:64-67 | `"4294967296x"` is a range error: the digits pass 2^32 - 1 before the letter is read. |
| `Strconv.SyntaxBeforeRange` | nulls/null_int32.go:64-67 | `"4294967295x"` is a syntax error: the digits stop at 2^32 - 1. |
| `Strconv.ParseFormatInt` | nulls/null_uint32.go:48-68 | Parsing the decimal of n gives n back when n fits in 32 signed bits, and a range error otherwise. |
| `Nulls.NullInt32.constructor` | nulls/null_int32.go:20-28 | `NewNullInt32(i)` and `NewNullInt32Ptr(i)` hold `i` and are valid. |
| `Nulls.NullInt32.Value` | nulls/null_int32.go:39-44 | No value iff not valid; otherwise `Int64(Int32)`, which lies in the int32 range. |
| `Nulls.NullInt32.MarshalJSON` | nulls/null_int32.go:48-53 | `null` when not valid. Otherwise the JSON integer text whose value is the number, which is not `null` and which `ParseInt32` reads back as the same number. |
| `Nulls.NullInt32.UnmarshalJSON` | nulls/null_int32.go:57-72 | `null`: not valid, number unchanged, no error. Accepted decimal: that number, valid, no error. Anything else: not valid, number unchanged, the parse error returned. |
| `Nulls.RoundTripInt32` | nulls/null_int32.go:48-71 | Marshalling a `NullInt32` and unmarshalling the text into another one, or back into itself, copies `Valid` and, when valid, the number, with no error. |
| `Nulls.NullUInt32.constructor` | nulls/null_uint32.go:20-28 | `NewNullUInt32(i)` and `NewNullUInt32Ptr(i)` hold `i` and are valid. |
| `Nulls.NullUInt32.Value` | nulls/null_uint32.go:39-44 | No value iff not valid; otherwise `Int64(UInt32)`, which lies in [0, 2^32). |
| `Nulls.NullUInt32.MarshalJSON` | nulls/null_uint32.go:48-53 | `null` when not valid. Otherwise the JSON integer text whose value is the number, which `ParseInt32` reads back when the value is below 2^31, and rejects with a range error when it is not. |
| `Nulls.WrapToUint32` | nulls/null_uint32.go:69 | Go's `uint32(i)` on an int32 value keeps a non-negative number and adds 2^32 to a negative one. |
| `Nulls.NullUInt32.UnmarshalJSON` | nulls/null_uint32.go:57-72 | `null`: not valid, unchanged, no error. Decimal text in the *signed* 32-bit range: stored as `WrapToUint32` of it, valid. Anything else, 2^31 and above included: not valid, unchanged, the parse error returned. |
| `Nulls.MinusOneWraps` | nulls/null_uint32.go:64-70 | `"-1"` is accepted and stored as 4294967295. |
| `Nulls.RoundTripUInt32` | nulls/null_uint32.go:48-71 | The JSON round trip, into another value or back into the same one, restores `Valid` and the value only when the value is below 2^31. A valid larger value comes back as a range error with `Valid` false. |
| `Nulls.NullString.constructor` | nulls/null_string.go:16-24 | `NewNullString(s)` and `NewNullStringPtr(s)` hold `s` and are valid. |
| `Nulls.NullString.Value` | nulls/null_string.go:35-41 | No value iff the text is empty, whatever `Valid` says; otherwise the text. It is a function of the record and changes nothing. |
| `Nulls.NullString.MarshalJSON` | nulls/null_string.go:45-50 | `null` when not valid. Otherwise, for a sound string codec, text other than `null` that decodes back to the string. |
| `Nulls.NullString.UnmarshalJSON` | nulls/null_string.go:54-66 | `null`: not valid, text unchanged, no error. A successful decode: that text, valid. A failed decode: not valid, text unchanged, the decoder's error returned. |
| `Nulls.RoundTripString` | nulls/null_string.go:45-66 | With a sound codec, the JSON round trip, into another value or back into the same one, copies `Valid` and, when valid, the text, with no error. |
| `Validators.WithMessage` | validate/validators/int_is_present.go:16 | Adding a message under a key appends exactly that message to that key's list and leaves every other key's messages as they were. |
| `Validators.Errors.Add` | validate/validators/int_is_present.go:16 | The collection becomes `WithMessage(old, key, msg)`. |
| `Validators.BlankMessage` | validate/validators/int_is_present.go:16 | The message is the field name followed by `" can not be blank."`. |
| `Validators.IntIsPresent.IsValid` | validate/validators/int_is_present.go:14-18 | A zero `Field` adds exactly one message, `BlankMessage(Name)` under `generateKey(Name)`, and both depend on `Name` alone. A non-zero `Field` leaves the errors unchanged. `Name` and `Field` are never changed. |

## Left out

- The implementation of `columns` is not part of this model. Anything it does beyond what the tests show (for instance trimming names) is not modelled.
- `ColumnsForStruct`'s reflection is replaced by a sequence of (field name, `db` tag) pairs, with `""` for "no tag", as Go's `Tag.Get` reports it. Dereferencing a pointer argument is the `ByPointer` case, which carries the pointee's fields.
- Go's slices and value copies: `Columns` is a class, so copying a `Columns` value and sharing a backing array between copies (aliasing) are not modelled.
- `NewNullInt32`/`NewNullInt32Ptr` (and their `UInt32` and `String` counterparts) return a value and a pointer in Go. A Dafny class instance is always a reference, so each pair is one constructor.
- The `error` results of `Value` and of the integer `MarshalJSON`s are always nil in the source and are left out. So is the error of `NullString.MarshalJSON`, since `json.Marshal` of a Go string does not fail.
- JSON string quoting and unquoting (`json.Marshal`/`json.Unmarshal` of a Go string) are a `StringCodec` the caller supplies. `SoundCodec` states what encoding/json guarantees of it for valid UTF-8 text.
- JSON text is a Dafny `string`, a sequence of Unicode characters, not Go's byte slice. The integer types only compare it with `null` and parse ASCII digits, so the encoding of other characters makes no difference to them.
- `NullString.String` is Unicode text. A Go string holding invalid UTF-8, which `json.Marshal` writes with U+FFFD in place of the bad bytes so that it does not come back unchanged, is not modelled; `SoundCodec` and `RoundTripString` speak only of valid text.
- `generateKey` is not part of this model. `IsValid` takes it as a function parameter.
- `validate.Errors` is a map from key to messages with `Add` appending. Its lock and its other methods are not modelled.
- `Scan` of all types (it delegates to `database/sql`'s driver-value conversion), `UnmarshalXML` of all types (it drives `encoding/xml`'s decoder), and `NullFloat32`/`NullFloat64` (floating-point parsing and narrowing) are left out.
