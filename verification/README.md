# Document marshalling and conformance, modelled in Dafny

This project models the document layer of a schema-driven object mapper for a
key/attribute document store. The behaviour is taken from what its document
test suite (`test/Document.js`) asserts. A model has a name, which is its table,
and a schema: the ordered declarations of its fields. Each field has a type
(`Number`, `String`, `Boolean` or `Date`), an optional default and an
optional validator. The project models five things:

- **The attribute-value codec.** `toDynamo` writes a plain object in the
  store's tagged wire shape `{field: {tag: payload}}`, with numbers and dates
  as `{N: "<decimal text>"}`, strings as `{S: text}` and booleans as
  `{BOOL: b}`. `fromDynamo` reads it back (modules `Decimal`, `Codec`).
- **The wire classifier `isDynamoObject`** (module `WireFormat`). It answers
  `null` for `{}`. Otherwise it answers whether every field holds a tagged
  value, looking inside `M` (map) and `L` (list) payloads. An independent
  grammar of tagged values (`Attribute`) is proved to describe exactly what
  the classifier accepts.
- **The conformance pipeline `objectFromSchema`** (module `Conformance`). It
  walks the schema in order. Each field's value is the one supplied, else its
  default when defaults are asked for. Every present value is type-checked,
  and validated only when validation is asked for. The first field that fails
  decides the error. The result holds only declared fields that have a value.
- **Documents** (module `Documents`). A `Document` class holds its fields as
  a map:
  - `conformToSchema` replaces them in place with the conformed object;
  - `toDynamo` conforms and then encodes;
  - `save` conforms with defaults and validation, encodes, and hands
    `{Item, TableName}` to the store's `putItem`. A `Store` class records
    every put and either accepts it or rejects it with its own error value.
- **The concrete cases of the test suite** (modules `Vectors`, `Scenarios`),
  together with a few concrete cases of the choices listed below.

JavaScript values are the datatype `Values.Value`. Objects are maps from
field names to values. A `Date` field holds its instant as epoch
milliseconds, the number `Date.now()` returns. Numbers are JavaScript's safe
integers (magnitude below 2^53).
Defaults are the value a literal, a producer or an asynchronous producer
resolves to. A validator is one of three kinds:

- a literal, compared by strict equality;
- a predicate, whose resolved result must be truthy;
- a pattern, kept abstract as the `string -> bool` matcher it denotes and
  applied to the value's template-literal text.

Three choices cover cases the test suite does not exercise:
- `fromDynamo` reads a field the schema does not declare by its tag alone
  when the field holds a tagged value (`{extra: {S: "x"}}` gives
  `{extra: "x"}`), and keeps it exactly as it is otherwise;
- `fromDynamo` fails (`None`) when a declared field does not hold an
  attribute of its declared type, or an undeclared tagged field holds an
  `N` payload that is not integer text;
- `toDynamo` fails with the `TypeMismatch` of the first declared field, in
  schema order, whose value has another type (the suite's type-mismatch
  test for saving is only a TODO, test/Document.js:299).

## Model

| member | source | states |
|---|---|---|
| Decimal.NatToText | test/Document.js:28-31 | the decimal text of a natural number is non-empty, all digits, with a leading `0` only for zero |
| Decimal.NatRoundTrip | test/Document.js:47-50 | reading back the digits of n gives n |
| Decimal.IntRoundTrip | test/Document.js:47-50 | reading back the text of any integer (with its minus sign) gives the integer |
| Decimal.IntToTextCanonical | test/Document.js:28-31 | the text of every integer is canonical: no leading zero, no `-0` |
| Decimal.CanonicalNatRoundTrip | test/Document.js:47-50 | digit text without a leading zero is exactly the text of the number it denotes |
| Decimal.CanonicalRoundTrip | test/Document.js:47-50 | canonical text reads back and prints back to itself |
| Schemas.FieldOf | test/Document.js:16 | a name has a declaration exactly when it is declared; with distinct names it is that field's declaration |
| Schemas.FieldOfFirst | test/Document.js:16 | should names repeat, the declaration found is the one at the name's first position |
| WireFormat.NonObjectIsNotAttributeValue | test/Document.js:421-423 | a plain value is never a tagged value |
| WireFormat.PlainFieldIsNotWire | test/Document.js:421-423 | an object with a plain-valued field is classified `false` |
| WireFormat.ScalarTagged | test/Document.js:417-419 | `{tag: payload}` with a scalar tag is a tagged value |
| WireFormat.UnknownTagged | test/Document.js:425-427 | `{key: payload}` with a key that is not a tag is not a tagged value |
| WireFormat.MapTagged | test/Document.js:428-435 | `{M: inner}` is a tagged value exactly when `isDynamoObject(inner)` is `true` |
| WireFormat.ListTagged | test/Document.js:436-455 | `{L: items}` is a tagged value exactly when every element is one |
| WireFormat.OneField | test/Document.js:408-415 | a one-field object is classified by whether its field holds a tagged value |
| WireFormat.TwoFields | test/Document.js:416-427 | a two-field object is `true` exactly when both fields hold tagged values |
| WireFormat.WellFormedIsAttributeValue | test/Document.js:428-455 | every tree of the tagged-value grammar (scalars, non-empty maps, lists) is accepted by the classifier |
| WireFormat.ParseInverts | test/Document.js:428-455 | every value the classifier accepts is written from a well-formed grammar tree |
| WireFormat.ParseInvertsMap | test/Document.js:428-435 | an accepted `{M: ...}` value is written from a well-formed map tree |
| WireFormat.ParseInvertsList | test/Document.js:436-455 | an accepted `{L: [...]}` value is written from a well-formed list tree |
| Vectors.ClassifierFlatExamples | test/Document.js:403-427 | `{}` gives `null`; bare `{N: "1"}` and `{S: "Hello"}`, plain fields and an unknown tag give `false`; tagged fields give `true` |
| Vectors.ClassifierMapExamples | test/Document.js:428-435 | a nested `M` of tagged fields gives `true`; one with an unknown tag inside gives `false` |
| Vectors.ClassifierTaggedList | test/Document.js:436-439 | an `L` of `{S: ...}` elements gives `true` |
| Vectors.ClassifierPlainList | test/Document.js:440-443 | an `L` of plain strings gives `false` |
| Vectors.ClassifierObjectList | test/Document.js:444-447 | an `L` of untagged maps gives `false` |
| Vectors.ClassifierMapList | test/Document.js:448-451 | an `L` of `{M: ...}` elements gives `true` |
| Vectors.ClassifierMixedList | test/Document.js:452-455 | an `L` of untagged plain objects gives `false` |
| Codec.EncodeAttribute | test/Document.js:28-31 | a value encodes exactly when it has the declared type |
| Codec.DecodeAttribute | test/Document.js:47-50 | what an attribute decodes to has the declared type |
| Codec.AttributeRoundTrip | test/Document.js:22-57 | decoding an encoded attribute gives the value back |
| Codec.AttributeCanonicalRoundTrip | test/Document.js:41-57 | encoding a decoded canonical attribute gives the attribute back |
| Codec.Encode | test/Document.js:22-38 | `toDynamo` succeeds exactly when every declared field held has its type; the result's fields are exactly the declared fields held |
| Codec.EncodeValues | test/Document.js:28-31 | each encoded field is its value encoded by the field's declared type |
| Codec.EncodeFirstMismatch | test/Document.js:22-38 | a property of `toDynamo` that no test asserts: when it fails, the error is the type mismatch of the first ill-typed field in schema order |
| Codec.EncodeDetermined | test/Document.js:28-31 | an object holding exactly the declared fields, each encoded by its type, is what `toDynamo` returns |
| Codec.Unmarshal | test/Document.js:41-57 | a property of `fromDynamo` that no test asserts: what reads back by its tag alone is a tagged value the classifier accepts |
| Codec.UnmarshalMarshal | test/Document.js:41-57 | a property of `fromDynamo` that no test asserts: reading back the by-type structural encoding of any value with no empty object gives the value |
| Codec.EmptyObjects | test/Document.js:22-57 | `{}` encodes to `{}` and decodes from `{}` |
| Codec.EncodeDecodeRoundTrip | test/Document.js:22-57 | decoding what `toDynamo` returns gives back the declared part of the object |
| Codec.DecodedWellTyped | test/Document.js:47-50 | what `fromDynamo` returns has the declared types |
| Codec.DecodeEncodeRoundTrip | test/Document.js:41-57 | encoding what `fromDynamo` returns gives back a canonical wire object of declared fields |
| Codec.EncodedAttributeIsTagged | test/Document.js:28-31 | every encoded attribute is a tagged value |
| Codec.EncodedIsWire | test/Document.js:415-419 | what `toDynamo` returns is classified `true`, or `null` when it holds no declared field |
| Conformance.ObjectFromSchema | test/Document.js:469-613 | `objectFromSchema` succeeds exactly when every field with a value passes its checks; it returns only declared names |
| Conformance.ConformedAt | test/Document.js:470-485 | the result holds exactly the declared fields that resolve to a value, each with that value |
| Conformance.NoDefaultsRestricts | test/Document.js:476-485 | without defaults the result is the input restricted to the declared fields |
| Conformance.SuppliedWins | test/Document.js:470-485 | a supplied declared field keeps the supplied value, whatever its default |
| Conformance.DefaultsFill | test/Document.js:503-542 | with defaults, an absent field appears exactly when it has a default, with that default |
| Conformance.ConformedWellTyped | test/Document.js:497-500 | every field of the result has its declared type |
| Conformance.ConformedValid | test/Document.js:543-613 | with validation, every field of the result passes its validator |
| Conformance.FirstFailure | test/Document.js:543-553 | the error is the type or validation error of the first failing field in schema order |
| Conformance.TypeCheckWithoutValidation | test/Document.js:497-500 | without validation, conformance succeeds exactly when every resolved value has its type |
| Conformance.ValidationOnlyRejects | test/Document.js:554-558 | what conforms with validation conforms without it, to the same object |
| Conformance.ConformIdempotent | test/Document.js:469-485 | a property of `objectFromSchema` that no test asserts: conforming a conformed object changes nothing |
| Conformance.ResolvesAlike | test/Document.js:470-485 | inputs whose fields resolve alike conform alike |
| Documents.ConformedEncodes | test/Document.js:111-118 | the conformed object always encodes, and decoding that gives it back |
| Documents.EncodeConformedSpec | test/Document.js:59-76 | conform-then-encode fails exactly when conformance fails, with its error, and otherwise decodes to the conformed object |
| Documents.PlainConformanceIsTypeCheck | test/Document.js:497-500 | without options, conformance and `toDynamo` accept the same objects |
| Documents.ConformedIsPlain | test/Document.js:421-423 | a non-empty conformed object is classified `false`, an empty one `null` |
| Documents.PutItemSpec | test/Document.js:111-118 | `save` sends the encoded conformed fields to the model's table, or fails with conformance's error |
| Documents.PutItemIdempotent | test/Document.js:111-118 | a property of `save` that no test asserts: saving again after a save sends the same item |
| Documents.Store.constructor | test/Document.js:87-92 | a fresh store has recorded no put |
| Documents.Store.PutItem | test/Document.js:87-92 | each put is appended to the log; a rejecting store fails with its own error value |
| Documents.Document.constructor | test/Document.js:94 | a new document holds the given fields |
| Documents.Document.ToDynamo | test/Document.js:59-76 | the document's `toDynamo` fails exactly when conformance does, and otherwise decodes back to the conformed fields |
| Documents.Document.ConformToSchema | test/Document.js:359-389 | on success the fields become the conformed object and the document itself is returned; on failure nothing changes |
| Documents.Document.Save | test/Document.js:80-316 | on a conformance error nothing changes and nothing is put; otherwise the fields are conformed in place, the item is appended to the store's log, and the document or the store's error is returned |
| Scenarios.CharlieCodec | test/Document.js:22-57 | `{id: 1, name: "Charlie"}` encodes to `{id: {N: "1"}, name: {S: "Charlie"}}` and decodes back |
| Scenarios.DecodeUndeclared | test/Document.js:41-57 | a property of `fromDynamo` that no test asserts: against the User schema, an undeclared `{S: s}` field decodes to `s` and an undeclared plain field is kept |
| Scenarios.ConformUser | test/Document.js:371-373 | conforming a user drops every undeclared field |
| Scenarios.SaveUser | test/Document.js:145-153 | saving a user with extra fields puts only `id` and `name` into table `User` |
| Scenarios.SaveCharlieExamples | test/Document.js:111-153 | Charlie is saved as `{id: {N: "1"}, name: {S: "Charlie"}}` in `User`, with or without `hello: "world"` |
| Scenarios.SaveRobot | test/Document.js:120-137 | a robot's date is stored as the decimal text of its epoch milliseconds, in table `Robot` |
| Scenarios.SaveAbsentField | test/Document.js:155-164 | a declared field the document lacks is left out of the item |
| Scenarios.SaveDefault | test/Document.js:166-197 | default 5 puts `age: {N: "5"}` |
| Scenarios.SaveAge | test/Document.js:199-208 | an age that passes its validator is saved as it is |
| Scenarios.RefuseAgeFour | test/Document.js:210-222 | age 4 failing its validator gives the exact `age with a value of 4 ...` error |
| Scenarios.SaveValidatedLiteral | test/Document.js:199-222 | `validate: 5` saves age 5 and refuses age 4 |
| Scenarios.SaveValidatedPredicate | test/Document.js:224-272 | `val > 5` saves age 6 and refuses age 4 |
| Scenarios.SaveValidatedPattern | test/Document.js:274-297 | `/.../` saves `"Tom"` and refuses `"a"` with the exact message |
| Scenarios.MismatchText | test/Document.js:499 | the type-mismatch text for a string id is exactly the one asserted |
| Scenarios.AgeText | test/Document.js:221 | the validation text for age 4 is exactly the one asserted |
| Scenarios.IdText | test/Document.js:545 | the validation text for id `test` is exactly the one asserted |
| Scenarios.NameText | test/Document.js:296 | the validation text for name `a` is exactly the one asserted |
| Scenarios.ConformDeclaredOnly | test/Document.js:470-485 | undeclared fields are dropped and absent ones are not invented |
| Scenarios.ConformTypeMismatch | test/Document.js:497-500 | `{id: "hello"}` against a Number id fails with the exact `TypeMismatch` |
| Scenarios.ConformDefaults | test/Document.js:503-542 | a default applies only when defaults are asked for |
| Scenarios.ConformIdUnvalidated | test/Document.js:554-558 | without validation, a string id is kept whatever its validator |
| Scenarios.ConformIdValid | test/Document.js:564-568 | a string id that passes its validator is kept |
| Scenarios.RefuseIdTest | test/Document.js:559-563 | id `test` failing its validator gives the exact `id with a value of test ...` error |
| Scenarios.ConformValidatedPredicate | test/Document.js:569-583 | `val.length > 5` is checked only with validation: `test` is refused, `hello world` kept |
| Scenarios.ConformValidatedPattern | test/Document.js:584-598 | `/ID_.+/` is checked only with validation: `test` is refused, `ID_test` kept |
| Scenarios.ConformValidatedLiteral | test/Document.js:599-613 | `validate: "ID_test"` is checked only with validation: `test` is refused, `ID_test` kept |
| Scenarios.ConformAbsentNotValidated | test/Document.js:549-553 | a validator on an absent field is not run |
| Scenarios.ConformCharlieInPlace | test/Document.js:375-386 | `conformToSchema` drops `hello` from the document in place and returns the document |
| Scenarios.DocumentToDynamo | test/Document.js:59-76 | a document's `toDynamo` gives `{}` for `{}` and Charlie's item for Charlie |
| Scenarios.SaveRejected | test/Document.js:301-315 | a rejecting store still records the put, and `save` fails with the store's error unchanged |
| Scenarios.SaveAccepted | test/Document.js:139-143 | an accepted save returns the document itself and appends its item |
| Scenarios.SaveTwoModels | test/Document.js:120-137 | two documents of two models are put, in order, into their own tables, and each save returns its document |

## Left out

- The readiness gate (test/Document.js:317-355) is not modelled. This covers the table-status polling, the pending-operation queue and the timing of deferred saves. It is asynchronous, timer-driven behaviour; every save here runs against a store that is already active.
- The promise and callback calling conventions (test/Document.js:105-108) are interface plumbing. Both return the same results.
- Asynchronous defaults and validators are modelled only through the value or the truth value they resolve to.
- Regular-expression semantics are not modelled. A pattern validator is the matcher it denotes, and the `g` flag's `lastIndex` state is not modelled.
- Numbers are JavaScript's safe integers, of magnitude below 2^53. Integers beyond that range, which a double does not hold exactly, are not modelled, nor is the exponent text (`"1e+21"`) that `String(n)` writes from 10^21 on: `Decimal.IntToText` writes every integer as plain digits. Fractions, `NaN` and infinities are left out. So is the string-to-number coercion that the test suite leaves commented out (test/Document.js:486-496), and `Number(text)` leniency such as `""` or hex text. `fromDynamo` reads only integer decimal text.
- `Date` objects are not modelled: a `Date` field holds epoch milliseconds, and `Date.now()` is a parameter.
- The order of an object's keys is not modelled; objects are maps.
- `undefined` is not modelled: a field is present with a value or absent.
- Other schema features are not modelled: the `required` flag, union types, and the `Buffer`, `List`, `Map` and `Set` field types.
- The global `Model.defaults`, the table-creation options, and the mocking of the store client are not modelled.
- Store errors are an opaque value, passed on unchanged; there is no retry.
- Documents.Document.ToDynamo: requires the schema's field names to be distinct. A schema written as a JavaScript object always satisfies this.
- Codec.DecodeEncodeRoundTrip: holds only for wire objects of declared fields in canonical text. `fromDynamo` accepts `"007"` and `"-0"`, which encode back as `"7"` and `"0"`.
- Codec.Unmarshal: reads `B`, `SS`, `NS` and `BS` payloads back as they are; binary values and sets are not modelled.
- Codec.Marshal is a reference encoding by JavaScript type, used only to state what `Codec.Unmarshal` inverts; it is not an operation of the document layer.
