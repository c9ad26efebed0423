# Cast member identity, validation and update, and the category update request

This project models three pieces of the catalog administration backend:

- **CastMemberID** (`cast_member_id.dfy`, module `CastMemberIdentity`): the identifier value
  object of a cast member. It wraps a non-null string. `from(String)` keeps the string as it is.
  `from(UUID)` and `unique()` store the UUID's text in lower case. `equals` compares the
  wrapped strings and is false for null and for every other class. `hashCode` depends on the
  wrapped string alone.
- **CastMember** (`cast_member.dfy`, module `CastMembers`): the contract of the aggregate, as
  its unit tests pin it down. `newMember(name, type)` and `update(name, type)` run one ordered
  validation pass. The name is checked for null, then for blankness (which ends the name
  checks), then for a length of 3 to 255. The type is checked for null. The messages are
  collected in order into a notification, and any message aborts the call with one aggregate
  failure carrying the list. `Validate` is that pass as a function. `CastMember` is a class
  whose `Update` replaces name and type and moves `updatedAt` forward. `id` and `createdAt`
  are `const`, so nothing can change them after creation.
- **UpdateCategoryRequest** (`update_category_request.dfy`, module `CategoryModels`): the
  request record and its `isActive()` rule, under which a missing flag means active.

`java_strings.dfy` (module `JavaStrings`) states the `java.lang.String` behaviour the three rely
on. `trim()` strips characters at or below U+0020 from both ends. `length()` counts UTF-16 code
units. `toLowerCase()` is stated for ASCII letters. `hashCode()` is the JDK's 31-based
polynomial in 32-bit arithmetic. `wrappers.dfy` holds `Option` (a nullable reference) and
`Result` (a return or a thrown exception).

Nullable Java arguments are `Option` values. `NotificationException` is a `Failure` carrying
the ordered `seq<Error>`, and each `Error` has the `message` its tests read. The random UUID
behind `unique()` and the clock behind the timestamps are parameters. `Update` requires the
new time to be strictly later than `updatedAt`.

Where the source is silent, the model decides as follows:

- The `CastMember` class and its validator are not part of this model's source. Only their
  tests are. The length rule is applied to the trimmed name. The tests use a name of more than
  255 characters with or without trimming, so they do not tell the two readings apart.
- "Blank" means that `trim()` leaves nothing: every character is at or below U+0020. Java's
  `String.isBlank()` would instead use `Character.isWhitespace`, which differs on, for example,
  U+2003 (whitespace, not trimmed) and U+0001 (trimmed, not whitespace). The tests use only
  `" "`, on which the two agree.
- The lower bound of 3 comes from the message text only. No test exercises it.
- When both name and type are invalid, `Validate` lists the name's error before the type's.
  No lemma states this, because no test checks it.
- `Update` validates before it commits anything. Its postcondition on failure states only the
  errors and the class invariant, not the old field values (see "## Left out").

## Model

| member | source | states |
|---|---|---|
| `JavaStrings.Trim` | domain/src/test/java/com/fullcycle/admin/catalogo/domain/castmember/CastMemberTest.java:46-57 | trimming leaves nothing exactly when every character is at or below U+0020; otherwise the result starts and ends with a kept character and is the input with only such characters removed at its ends |
| `JavaStrings.Length` | domain/src/test/java/com/fullcycle/admin/catalogo/domain/castmember/CastMemberTest.java:61-77 | a string's Java length is at least its number of characters and at most twice that |
| `JavaStrings.BasicPlaneLength` | domain/src/test/java/com/fullcycle/admin/catalogo/domain/castmember/CastMemberTest.java:61-77 | without supplementary-plane characters, the Java length is the number of characters |
| `JavaStrings.ToLower` | domain/src/main/java/com/fullcycle/admin/catalogo/domain/castmemeber/CastMemberID.java:27 | lower-casing keeps the length, leaves no upper-case letter, and lowers each character in place |
| `JavaStrings.ToLowerKeepsLowercase` | domain/src/main/java/com/fullcycle/admin/catalogo/domain/castmemeber/CastMemberID.java:27 | lower-casing a string with no upper-case letter returns it unchanged |
| `JavaStrings.ToLowerIdempotent` | domain/src/main/java/com/fullcycle/admin/catalogo/domain/castmemeber/CastMemberID.java:27 | lower-casing twice is the same as lower-casing once |
| `CastMemberIdentity.New` | domain/src/main/java/com/fullcycle/admin/catalogo/domain/castmemeber/CastMemberID.java:13-16 | construction fails exactly when the value is null; otherwise the identifier holds that value |
| `CastMemberIdentity.NullIsRejected` | domain/src/main/java/com/fullcycle/admin/catalogo/domain/castmemeber/CastMemberID.java:13-16 | building an identifier from null throws a NullPointerException, both directly and through from(String) |
| `CastMemberIdentity.FromString` | domain/src/main/java/com/fullcycle/admin/catalogo/domain/castmemeber/CastMemberID.java:22-24 | from(String) fails exactly on null; otherwise getValue() returns the given string unchanged |
| `CastMemberIdentity.ToLowerKeepsUuidText` | domain/src/main/java/com/fullcycle/admin/catalogo/domain/castmemeber/CastMemberID.java:27 | lower-casing UUID text gives UUID text |
| `CastMemberIdentity.FromUuid` | domain/src/main/java/com/fullcycle/admin/catalogo/domain/castmemeber/CastMemberID.java:26-28 | from(UUID) holds UUID text with no upper-case letter that is the UUID's own text up to letter case |
| `CastMemberIdentity.Unique` | domain/src/main/java/com/fullcycle/admin/catalogo/domain/castmemeber/CastMemberID.java:18-20 | unique() always holds lower-case UUID text |
| `CastMemberIdentity.UuidRoundTrip` | domain/src/main/java/com/fullcycle/admin/catalogo/domain/castmemeber/CastMemberID.java:22-41 | re-wrapping the value of from(u) with from(String) gives an identifier equal to from(u) |
| `CastMemberIdentity.FromUuidOfLowercaseText` | domain/src/main/java/com/fullcycle/admin/catalogo/domain/castmemeber/CastMemberID.java:26-28 | a UUID whose text is already lower case is stored verbatim |
| `CastMemberIdentity.FromUuidIgnoresCase` | domain/src/main/java/com/fullcycle/admin/catalogo/domain/castmemeber/CastMemberID.java:26-41 | UUID texts that differ only in letter case give equal identifiers |
| `JavaStrings.UnitsHash` | domain/src/main/java/com/fullcycle/admin/catalogo/domain/castmemeber/CastMemberID.java:45 | the JDK string hash of no code units is 0 |
| `JavaStrings.StringHash` | domain/src/main/java/com/fullcycle/admin/catalogo/domain/castmemeber/CastMemberID.java:45 | the empty string hashes to 0 |
| `JavaStrings.ObjectsHash` | domain/src/main/java/com/fullcycle/admin/catalogo/domain/castmemeber/CastMemberID.java:45 | Objects.hash of one value is 31 plus that value's hash, modulo 2^32 |
| `CastMemberIdentity.CastMemberID.GetValue` | domain/src/main/java/com/fullcycle/admin/catalogo/domain/castmemeber/CastMemberID.java:30-33 | the value returned determines the identifier: wrapping it again gives this identifier |
| `CastMemberIdentity.CastMemberID.Equals` | domain/src/main/java/com/fullcycle/admin/catalogo/domain/castmemeber/CastMemberID.java:36-41 | an identifier equals itself (line 37) and never equals null or an object of another class (line 38) |
| `CastMemberIdentity.CastMemberID.HashCode` | domain/src/main/java/com/fullcycle/admin/catalogo/domain/castmemeber/CastMemberID.java:43-46 | the hash is 31 plus the hash of the wrapped string, modulo 2^32, so it depends on the value alone |
| `CastMemberIdentity.EqualsIffSameValue` | domain/src/main/java/com/fullcycle/admin/catalogo/domain/castmemeber/CastMemberID.java:36-41 | two identifiers are equal if and only if their values are equal |
| `CastMemberIdentity.EqualsReflexive` | domain/src/main/java/com/fullcycle/admin/catalogo/domain/castmemeber/CastMemberID.java:37 | every identifier equals itself |
| `CastMemberIdentity.EqualsSymmetric` | domain/src/main/java/com/fullcycle/admin/catalogo/domain/castmemeber/CastMemberID.java:36-41 | equality is symmetric |
| `CastMemberIdentity.EqualsTransitive` | domain/src/main/java/com/fullcycle/admin/catalogo/domain/castmemeber/CastMemberID.java:36-41 | equality is transitive |
| `CastMemberIdentity.NeverEqualsNullOrOtherClass` | domain/src/main/java/com/fullcycle/admin/catalogo/domain/castmemeber/CastMemberID.java:38 | an identifier never equals null, nor an object of another class, even one wrapping the same string |
| `CastMemberIdentity.EqualIdsHaveEqualHashes` | domain/src/main/java/com/fullcycle/admin/catalogo/domain/castmemeber/CastMemberID.java:43-46 | equal identifiers have equal hash codes |
| `CastMembers.ValidNameIsNonBlankAndBounded` | domain/src/test/java/com/fullcycle/admin/catalogo/domain/castmember/CastMemberTest.java:46-77 | a valid name is not blank and has at most 255 characters once trimmed |
| `CastMembers.NameErrors` | domain/src/test/java/com/fullcycle/admin/catalogo/domain/castmember/CastMemberTest.java:31-77 | the name checks report at most one error, and none exactly when the name is present and 3 to 255 characters long once trimmed |
| `CastMembers.TypeErrors` | domain/src/test/java/com/fullcycle/admin/catalogo/domain/castmember/CastMemberTest.java:80-92 | the type check reports nothing exactly when the type is present, and otherwise only "'type' should not be null" |
| `CastMembers.Validate` | domain/src/test/java/com/fullcycle/admin/catalogo/domain/castmember/CastMemberTest.java:12-92 | a pass reports no errors exactly when the name is valid and the type present; it reports at most two; with a type, only the name's errors; with a valid name, only the type's |
| `CastMembers.AcceptedValuesAreValid` | domain/src/test/java/com/fullcycle/admin/catalogo/domain/castmember/CastMemberTest.java:12-27 | values that pass validation are a present type and a present, valid name |
| `CastMembers.NullNameReportsOneError` | domain/src/test/java/com/fullcycle/admin/catalogo/domain/castmember/CastMemberTest.java:31-42 | a null name with a type yields exactly "'name' should not be null" |
| `CastMembers.BlankNameReportsOneError` | domain/src/test/java/com/fullcycle/admin/catalogo/domain/castmember/CastMemberTest.java:46-57 | a blank name with a type yields exactly "'name' should not be empty", without the length error |
| `CastMembers.SingleSpaceReportsEmpty` | domain/src/test/java/com/fullcycle/admin/catalogo/domain/castmember/CastMemberTest.java:46-57 | " " is shorter than 3, yet yields only "'name' should not be empty" |
| `CastMembers.OverlongNameReportsOneError` | domain/src/test/java/com/fullcycle/admin/catalogo/domain/castmember/CastMemberTest.java:61-77 | a name whose Java length (UTF-16 units) exceeds 255 after trimming yields exactly "'name' must be between 3 and 255 characters" |
| `CastMembers.ShortNameReportsOneError` | domain/src/test/java/com/fullcycle/admin/catalogo/domain/castmember/CastMemberTest.java:70 | a non-blank name under 3 characters after trimming yields exactly the length error |
| `CastMembers.NullTypeReportsOneError` | domain/src/test/java/com/fullcycle/admin/catalogo/domain/castmember/CastMemberTest.java:80-92 | a valid name contributes no error, so a null type yields exactly "'type' should not be null" |
| `CastMembers.PlainNameValidity` | domain/src/test/java/com/fullcycle/admin/catalogo/domain/castmember/CastMemberTest.java:14 | a basic-plane name with no blank at either end is its own trim, and is valid exactly when it has 3 to 255 characters |
| `CastMembers.VinDieselIsValid` | domain/src/test/java/com/fullcycle/admin/catalogo/domain/castmember/CastMemberTest.java:14 | "Vin Diesel" is a valid name |
| `CastMembers.BraianIsValid` | domain/src/test/java/com/fullcycle/admin/catalogo/domain/castmember/CastMemberTest.java:101 | "Braian" is a valid name |
| `CastMembers.CastMember.constructor` | domain/src/test/java/com/fullcycle/admin/catalogo/domain/castmember/CastMemberTest.java:12-27 | a member built from a valid name has the given fields and equal timestamps, and satisfies the invariant |
| `CastMembers.CastMember.NewMember` | domain/src/test/java/com/fullcycle/admin/catalogo/domain/castmember/CastMemberTest.java:12-92 | creation fails exactly when validation reports errors, and then carries exactly those errors; otherwise a fresh valid member has the given name and type, the unique() identifier, and both timestamps at the creation time |
| `CastMembers.CastMember.Update` | domain/src/test/java/com/fullcycle/admin/catalogo/domain/castmember/CastMemberTest.java:96-211 | update fails exactly when validation reports errors, with the same errors as creation; on success it returns the member itself with the new name and type and a strictly later updatedAt; id and createdAt never change; the member stays valid |
| `CastMembers.CastMember.Commit` | domain/src/test/java/com/fullcycle/admin/catalogo/domain/castmember/CastMemberTest.java:110-117 | committing validated values sets name, type and updatedAt to them and keeps the member valid |
| `CastMembers.UpdateScenario` | domain/src/test/java/com/fullcycle/admin/catalogo/domain/castmember/CastMemberTest.java:96-117 | a member created as "Braian", a director, and updated to "Vin Diesel", an actor, keeps its unique() identifier and creation time, has the new name and type, and a strictly later updatedAt |
| `CategoryModels.UpdateCategoryRequest.IsActive` | infrastructure/src/main/java/com/fullcycle/admin/catalogo/infrastructure/category/models/UpdateCategoryRequest.java:11-13 | isActive() is false exactly when the flag is present and false |
| `CategoryModels.MissingFlagMeansActive` | infrastructure/src/main/java/com/fullcycle/admin/catalogo/infrastructure/category/models/UpdateCategoryRequest.java:11-13 | a null flag means active |
| `CategoryModels.PresentFlagIsReturned` | infrastructure/src/main/java/com/fullcycle/admin/catalogo/infrastructure/category/models/UpdateCategoryRequest.java:12 | a present flag, true or false, is returned as it is |
| `CategoryModels.IsActiveIgnoresNameAndDescription` | infrastructure/src/main/java/com/fullcycle/admin/catalogo/infrastructure/category/models/UpdateCategoryRequest.java:5-13 | isActive() does not depend on the name or the description |
| `CategoryModels.AccessorsReturnComponents` | infrastructure/src/main/java/com/fullcycle/admin/catalogo/infrastructure/category/models/UpdateCategoryRequest.java:5-9 | name(), description() and active() return the values the record was built with |

## Left out

- CastMembers.CastMember.Update: on failure, the contract does not say that name, type and updatedAt keep their previous values. The tests of a failed update check only the error, and the entity's own source is not part of this model.
- CastMemberIdentity.Unique: uniqueness of generated identifiers is not modelled. The random UUID is a parameter, and collision probability is outside a deterministic model.
- CastMemberIdentity.FromUuid: a null UUID, for which `anId.toString()` would throw, is not modelled. The UUID argument is always present.
- JavaStrings.ToLower: only ASCII letters are lowered, not the full Unicode case mapping of `toLowerCase()`. UUID text is ASCII, so `from(UUID)` is unaffected.
- CastMemberIdentity.CastMemberID.Equals: the `this == o` identity short-cut is not a separate step. Identifiers are values here, and the short-cut gives the same answer as comparing values.
- The `Identifier` base class and `CategoryID` are not part of this model. An object of any other class is represented only by the string it wraps.
- Jackson's `@JsonProperty` bindings and JSON field names are serialisation plumbing and are left out.
- The wall clock behind `createdAt` and `updatedAt` is a natural-number parameter supplied by the caller.
- The notification object's own API (`append`, `hasError`) is represented by sequence concatenation. Only the resulting ordered list is observable in the tests.
- `CastMemberType` has only the two values the tests use, `ACTOR` and `DIRECTOR`.
