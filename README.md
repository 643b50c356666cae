# LogEvent audit record — a Dafny model

This project models `LogEvent`, the persistent audit record of the ALA logger
service. One record says who did what (event type, optional reason and source
type), from where (user e-mail and IP, source, source URL), with a comment,
a reporting month key and a set of detail rows. The model covers the
record's own logic:

- **The month key.** The canonical constructor keeps a caller's month only when
  its trimmed form is longer than three characters and the *untrimmed* string
  is accepted by `Integer.parseInt`. Otherwise it stamps the key from the
  clock: the year, then the month as two digits.
- **`isInteger`.** It never fails. It is true exactly when `Integer.parseInt`
  accepts the string, and false on every `NumberFormatException`.
- **`recordCountsToLogDetails`.** It turns a map from category key to count into
  a fresh set of detail rows `(""+typeId, key, count)`. A null map gives the
  empty set.
- **The entity.** A class with the scalar fields of the table. It has the
  canonical constructor, the six overloads that delegate to it, the
  no-argument constructor, and one frame-exact setter per field.

Modules:

- `wrappers.dfy` (`Wrappers`): `Option`, which stands for a Java reference
  that may be null.
- `java_lang.dfy` (`JavaLang`): the pieces of `java.lang` the record relies
  on, over ASCII text. These are `Integer.parseInt` (`ParseInt`), the decimal
  rendering behind `"" + n` (`IntToString`, `NatToDigits`) and `String.trim`
  (`Trim`). The module also holds the two round trips between parsing and
  rendering.
- `log_event.dfy` (`LogEvents`): `IsInteger`, the month rule
  (`NormalizeMonth`, `StampedMonth`, `ResolveMonth`), the detail rows
  (`LogDetail`, `DetailsOf`, `RecordCountsToLogDetails`) and the `LogEvent`
  class.

The ambient clock `Calendar.getInstance()` is replaced by two parameters,
`year` and `mth` (the calendar month, 1 to 12). Every constructor that can
reach the month rule takes them.

The model follows the code on two points where one might expect otherwise:

- The month rule parses the untrimmed string, so a padded month such as
  `"  202401  "` is replaced by the clock's stamp, not trimmed and kept
  (`PaddedMonthIsStamped`). The `trim()` on the accepted branch therefore never
  changes anything (`NormalizeMonthKeepsOrStamps`).
- The stored month is not always a six-digit `YYYYMM` string. The code also
  keeps any other int string longer than three characters: `"-123"` and
  `"+2024"` (`SignedMonthIsKept`), or `"0000"` (`NormalizeMonthKeepsOrStamps`
  with `IsIntegerAcceptsSigned`). `setMonth` stores anything, null included.

## Model

| member | source | states |
|---|---|---|
| `JavaLang.ParseInt` | src/main/java/org/ala/jpa/entity/LogEvent.java:142-150 | the parse `isInteger` runs. It succeeds only on a string that starts with a digit or a sign and ends with a digit. |
| `JavaLang.NatToDigits` | src/main/java/org/ala/jpa/entity/LogEvent.java:105 | the decimal rendering of a number is a non-empty digit string. It starts with '0' only for zero, and its digit value is the number. |
| `JavaLang.IntToString` | src/main/java/org/ala/jpa/entity/LogEvent.java:136 | `"" + n` never starts with '+'. It is all digits exactly when n is not negative. |
| `JavaLang.ParseIntOfIntToString` | src/main/java/org/ala/jpa/entity/LogEvent.java:136 | every int's rendering parses back to that int. |
| `JavaLang.IntToStringOfParseInt` | src/main/java/org/ala/jpa/entity/LogEvent.java:142-150 | a canonical int string (no '+', no leading zero, no "-0") that parses is exactly the rendering of its value. |
| `JavaLang.ParseDigits` | src/main/java/org/ala/jpa/entity/LogEvent.java:144 | an unsigned digit string parses to its value when that value is at most 2^31-1, and is rejected otherwise. |
| `JavaLang.ParsePlus` | src/main/java/org/ala/jpa/entity/LogEvent.java:144 | '+' followed by digits parses to their value when it is at most 2^31-1, and is rejected otherwise. |
| `JavaLang.ParseNegated` | src/main/java/org/ala/jpa/entity/LogEvent.java:144 | '-' followed by digits parses to minus their value when it is at most 2^31, and is rejected otherwise. |
| `JavaLang.TrimStart` | src/main/java/org/ala/jpa/entity/LogEvent.java:99-100 | the result is a suffix of the input. Everything cut off is at or below U+0020, and the result does not start with such a character. |
| `JavaLang.TrimEnd` | src/main/java/org/ala/jpa/entity/LogEvent.java:99-100 | the result is a prefix of the input. Everything cut off is at or below U+0020, and the result does not end with such a character. |
| `JavaLang.Trim` | src/main/java/org/ala/jpa/entity/LogEvent.java:99-100 | `trim()` returns the middle of the string: every character cut off before and after it is at or below U+0020. The result has no such character at either end, and it is the identity on a string whose ends are not such characters. |
| `LogEvents.IsInteger` | src/main/java/org/ala/jpa/entity/LogEvent.java:142-150 | `isInteger` holds only of a non-empty string that ends in a digit, starts with a digit or a sign, and has no character at or below U+0020 at either end. |
| `LogEvents.IsIntegerSyntax` | src/main/java/org/ala/jpa/entity/LogEvent.java:142-150 | `isInteger` holds if and only if the string is an optional sign and at least one digit, with a value in [-2^31, 2^31-1]. |
| `LogEvents.IsIntegerAcceptsSigned` | src/main/java/org/ala/jpa/entity/LogEvent.java:142-150 | digits whose value fits an int are accepted bare, after '+' and after '-'. |
| `LogEvents.IsIntegerRejectsOverflow` | src/main/java/org/ala/jpa/entity/LogEvent.java:142-150 | digits whose value exceeds 2^31 are rejected, with or without a sign, and no exception escapes. |
| `LogEvents.IsIntegerRejectsBlank` | src/main/java/org/ala/jpa/entity/LogEvent.java:142-150 | a string holding a blank or control character anywhere is rejected. |
| `LogEvents.IsIntegerIsTrimmed` | src/main/java/org/ala/jpa/entity/LogEvent.java:99-100 | a string that `isInteger` accepts is non-empty, and `trim()` returns it unchanged. |
| `LogEvents.StampedMonth` | src/main/java/org/ala/jpa/entity/LogEvent.java:102-105 | the stamp has at least three characters and ends in two digits, the first of them 0 or 1. It starts with '-' exactly when the year is negative, and is all digits otherwise. |
| `LogEvents.StampedMonthParts` | src/main/java/org/ala/jpa/entity/LogEvent.java:102-106 | the stamped key ends in two digits whose value is the month (01 to 12). What precedes them parses back to the year. |
| `LogEvents.FourDigitYearStamp` | src/main/java/org/ala/jpa/entity/LogEvent.java:103-105 | with a four-digit year the stamp has six characters, all digits. It parses to year*100 + month. |
| `LogEvents.NormalizeMonth` | src/main/java/org/ala/jpa/entity/LogEvent.java:99-106 | the stored month is either the clock's stamp or the caller's own string, unchanged, which is longer than three characters and an int. |
| `LogEvents.NormalizeMonthKeepsOrStamps` | src/main/java/org/ala/jpa/entity/LogEvent.java:99-106 | the stored month is the caller's string, character for character, when it is longer than 3 and `isInteger` accepts it. Otherwise it is the clock's stamp. |
| `LogEvents.PaddedMonthIsStamped` | src/main/java/org/ala/jpa/entity/LogEvent.java:99-105 | a month padded with blanks is discarded for the stamp, not trimmed and kept. |
| `LogEvents.SignedMonthIsKept` | src/main/java/org/ala/jpa/entity/LogEvent.java:99-100 | "-ddd" and "+ddd" (three or more digits, fitting an int) are kept with their sign. |
| `LogEvents.NormalizeMonthIdempotent` | src/main/java/org/ala/jpa/entity/LogEvent.java:99-106 | with a four-digit year, a stored month fed back to the rule, at any clock, is stored unchanged. |
| `LogEvents.ResolveMonth` | src/main/java/org/ala/jpa/entity/LogEvent.java:99-106 | the month branch keeps the caller's string, character for character, when it is longer than three characters and `isInteger` accepts it, and stamps the month from the clock otherwise. This is also the value of `NormalizeMonth` that the constructors state. |
| `LogEvents.DetailsOf` | src/main/java/org/ala/jpa/entity/LogEvent.java:131-137 | a row is in the detail set if and only if its type id is `""+typeId`, its key is in the map and its count is that key's value. |
| `LogEvents.DetailsOfSize` | src/main/java/org/ala/jpa/entity/LogEvent.java:131-137 | there are exactly as many detail rows as map keys. |
| `LogEvents.DetailTypeIdsParse` | src/main/java/org/ala/jpa/entity/LogEvent.java:136 | the type id text in every row parses back to the event type id. |
| `LogEvents.RecordCountsToLogDetails` | src/main/java/org/ala/jpa/entity/LogEvent.java:128-140 | a null map gives the empty set, never null. A map gives exactly its detail rows, one per key. |
| `LogEvents.LogEvent.Init` | src/main/java/org/ala/jpa/entity/LogEvent.java:89-97 | the canonical constructor's body copies every argument into its field verbatim, stores the resolved month, and leaves `id` alone. |
| `LogEvents.LogEvent.constructor` | src/main/java/org/ala/jpa/entity/LogEvent.java:88-107 | the canonical constructor gives `id` 0, copies all other arguments verbatim and stores `NormalizeMonth(month, year, mth)`. |
| `LogEvents.LogEvent.WithDetails` | src/main/java/org/ala/jpa/entity/LogEvent.java:80-82 | reason type, source type and URL are null. The month is the clock's stamp. |
| `LogEvents.LogEvent.WithDetailsAndUrl` | src/main/java/org/ala/jpa/entity/LogEvent.java:84-86 | the month is the clock's stamp. Every other argument is copied. |
| `LogEvents.LogEvent.WithCounts` | src/main/java/org/ala/jpa/entity/LogEvent.java:109-111 | the details are the rows of the count map (empty for a null map). Reason type, source type and URL are null, and the month is stamped. |
| `LogEvents.LogEvent.WithCountsAndUrl` | src/main/java/org/ala/jpa/entity/LogEvent.java:113-115 | the details are the rows of the count map, and the month is stamped. |
| `LogEvents.LogEvent.WithMonthAndCounts` | src/main/java/org/ala/jpa/entity/LogEvent.java:117-119 | the details are the rows of the count map. Reason type, source type and URL are null, and the month follows the month rule. |
| `LogEvents.LogEvent.WithMonthCountsAndUrl` | src/main/java/org/ala/jpa/entity/LogEvent.java:121-123 | the details are the rows of the count map, and the month follows the month rule. |
| `LogEvents.LogEvent.Empty` | src/main/java/org/ala/jpa/entity/LogEvent.java:125-126 | every reference field is null and every int field is 0. |
| `LogEvents.LogEvent.SetId` | src/main/java/org/ala/jpa/entity/LogEvent.java:156-158 | `id` becomes the argument; every other field is unchanged. |
| `LogEvents.LogEvent.SetComment` | src/main/java/org/ala/jpa/entity/LogEvent.java:164-166 | `comment` becomes the argument; every other field is unchanged. |
| `LogEvents.LogEvent.SetMonth` | src/main/java/org/ala/jpa/entity/LogEvent.java:180-182 | `month` becomes the argument, with no month rule applied; every other field is unchanged. |
| `LogEvents.LogEvent.SetUserEmail` | src/main/java/org/ala/jpa/entity/LogEvent.java:188-190 | `userEmail` becomes the argument; every other field is unchanged. |
| `LogEvents.LogEvent.SetUserIp` | src/main/java/org/ala/jpa/entity/LogEvent.java:196-198 | `userIp` becomes the argument; every other field is unchanged. |
| `LogEvents.LogEvent.SetLogDetails` | src/main/java/org/ala/jpa/entity/LogEvent.java:204-206 | `logDetails` becomes the argument; every other field is unchanged. |
| `LogEvents.LogEvent.SetLogEventTypeId` | src/main/java/org/ala/jpa/entity/LogEvent.java:212-214 | `logEventTypeId` becomes the argument; every other field is unchanged. |
| `LogEvents.LogEvent.SetSource` | src/main/java/org/ala/jpa/entity/LogEvent.java:220-222 | `source` becomes the argument; every other field is unchanged. |
| `LogEvents.LogEvent.SetLogReasonTypeId` | src/main/java/org/ala/jpa/entity/LogEvent.java:228-230 | `logReasonTypeId` becomes the argument; every other field is unchanged. |
| `LogEvents.LogEvent.SetLogSourceTypeId` | src/main/java/org/ala/jpa/entity/LogEvent.java:237-239 | `logSourceTypeId` becomes the argument; every other field is unchanged. |
| `LogEvents.LogEvent.SetSourceUrl` | src/main/java/org/ala/jpa/entity/LogEvent.java:245-247 | `sourceUrl` becomes the argument; every other field is unchanged. |

## Left out

- The `created` field, its initialiser `new Date()`, `getCreated` and `setCreated`: a wall-clock timestamp. The clock is not modelled beyond the year and month parameters.
- The getters: Dafny fields are readable, so each `getX()` is the field read `x`. The setters' postconditions state what a following getter returns.
- JPA mapping: the annotations, `@GeneratedValue` id assignment, the `PersistentEntity` superclass, `Serializable`, and the cascade and join-column ownership of detail rows. These are storage-framework behaviour, not code in this file.
- `LogDetail`'s own class is not part of this model. It is a plain triple (type id text, key, count) with structural equality. The rows built from one map differ in their keys, so they are distinct under either structural or identity equality.
- LogEvents.IsInteger: returns false for strings of non-ASCII decimal digits, which `Integer.parseInt` accepts through `Character.digit`. Only ASCII text is modelled. Leading '+' is accepted, as `Integer.parseInt` does from Java 7 on.
- JavaLang.Trim: works on Dafny characters (Unicode scalar values) rather than UTF-16 code units. The two agree on which characters are at or below U+0020.
- LogEvents.RecordCountsToLogDetails: map keys and values are never null. A null value throws a `NullPointerException` on unboxing, and a null key (allowed by `HashMap`) would become a row with a null key; neither is modelled.
- Aliasing of the `logDetails` set: Java stores the caller's `Set` object by reference, so later changes to that set show through the record. The model stores a set value.
- The clock parameters: `mth` is required to lie in 1..12, as `Calendar.MONTH + 1` does for the Gregorian calendar. The year is any int.
- The commented-out `recordCount` and `userId` fields and their accessors.
