# Months, zone rules and time-zone identifiers of the javax.time calendar

A Dafny model of three pieces of the javax.time calendar (threetenbp), with proofs of
their documented behaviour.

- **Months** (`month_of_year.dfy`) covers the twelve months numbered 1 (January) to 12
  (December), following section 3.2.1 of ISO 8601:2004. It models:
  - conversion from and to the number;
  - cyclic `next`, `previous` and `roll`;
  - month lengths with and without a leap year, and their minimum and maximum;
  - the quarter and the month within the quarter.
- **ZoneRules** (`zone_rules.dfy`) covers the result of resolving a local date-time
  against a zone's rules. That result is either a single offset or a discontinuity (a
  gap or an overlap) carrying its transition. The module also models the queries the
  abstract rules class derives from its abstract ones:
  - `getOffsetInfo(Instant)`;
  - `getDaylightSavings` and `isDaylightSavings`;
  - `isValidDateTime`.

  Offsets, instants and local date-times are whole seconds. A rules object is either the
  rules of one fixed offset or any implementation, whose three abstract queries are
  supplied as functions.
- **TimeZones** (`time_zone.dfy`) covers the time-zone handle. It models:
  - splitting an ID into group, region and version, with group `TZDB` and the floating
    version `""` as defaults;
  - rendering the ID back;
  - fixed-offset zones such as `UTC` and `UTC+01:00`;
  - equality over the three IDs;
  - a `TimeZone` class holding the three IDs and a mutable one-field cache of rules.
    `getRules()` fills that cache only for a specific version.

  The factory `timeZone(String)` is an imperative method that takes the ID apart step by
  step, as the Java code does. It is proved to agree with the pure `ParseZone`. The
  round-trip lemmas are stated about `ParseZone` and `RenderID`.

Java `null` is modelled as `Option.None` where the month and zone-rules code checks for it;
the null checks of the TimeZone factories are left out (see below). Exceptions are
`Result.Failure` values carrying an `Errors.Error`. Two collaborators are supplied as
functions:
- the registry of rules groups (`TimeZones.Registry`);
- the parsing and printing of offset text (`TimeZones.OffsetText`).

## Model

| member | source | states |
|---|---|---|
| Months.Of | src/main/java/javax/time/calendar/field/MonthOfYear.java:133-162 | Succeeds exactly for 1..12, and the month it gives has that number. Any other number fails with the month-of-year field error and the bounds 1 and 12. |
| Months.GetValue | src/main/java/javax/time/calendar/field/MonthOfYear.java:173-175 | The number of a month is within 1..12. |
| Months.OfGetValue | src/main/java/javax/time/calendar/field/MonthOfYear.java:133-175 | Converting a month's number back gives the same month, for every month. |
| Months.ValueInjective | src/main/java/javax/time/calendar/field/MonthOfYear.java:173-175 | Two months with the same number are the same month. |
| Months.Next | src/main/java/javax/time/calendar/field/MonthOfYear.java:331-333 | The next month's number is the number mod 12, plus 1: December wraps to January. |
| Months.Previous | src/main/java/javax/time/calendar/field/MonthOfYear.java:343-345 | The previous month's number is (number + 10) mod 12, plus 1: January wraps to December. |
| Months.NextPrevious | src/main/java/javax/time/calendar/field/MonthOfYear.java:331-345 | `next` and `previous` are inverse to each other on every month. |
| Months.WrapAround | src/main/java/javax/time/calendar/field/MonthOfYear.java:331-345 | The month after December is January, and the month before January is December. |
| Months.JavaRem12 | src/main/java/javax/time/calendar/field/MonthOfYear.java:359 | Java's `%` by 12: the result has the sign of the dividend, lies strictly between -12 and 12, and differs from the dividend by a multiple of 12. |
| Months.RollIndex | src/main/java/javax/time/calendar/field/MonthOfYear.java:359 | The array index computed by `roll` is never negative, for any ordinal in 0..11 and any (negative or positive) count, and it equals (ordinal + count) mod 12. |
| Months.Roll | src/main/java/javax/time/calendar/field/MonthOfYear.java:358-360 | Rolling by any count gives the month with number ((number - 1 + count) mod 12) + 1. |
| Months.RollSpecialCases | src/main/java/javax/time/calendar/field/MonthOfYear.java:331-360 | Rolling by 0 is the identity, by 1 is `next`, and by -1 is `previous`. |
| Months.RollCompose | src/main/java/javax/time/calendar/field/MonthOfYear.java:358-360 | Rolling by a and then by b equals rolling by a + b, and rolling by 12 is the identity. |
| Months.LengthInDays | src/main/java/javax/time/calendar/field/MonthOfYear.java:397-409 | The length of a month is between 28 and 31 days. |
| Months.LengthInDaysOfYear | src/main/java/javax/time/calendar/field/MonthOfYear.java:372-387 | A null year fails with "The year must not be null". Otherwise the result is the length for that year's leap flag. |
| Months.MinLengthInDays | src/main/java/javax/time/calendar/field/MonthOfYear.java:416-428 | The minimum length is the length in a common year, and no year gives a shorter length. |
| Months.MaxLengthInDays | src/main/java/javax/time/calendar/field/MonthOfYear.java:435-447 | The maximum length is the length in a leap year, and no year gives a longer length. |
| Months.LeapChangesOnlyFebruary | src/main/java/javax/time/calendar/field/MonthOfYear.java:397-409 | The leap flag changes the length of February only, from 28 to 29 days. |
| Months.GetLastDayOfMonth | src/main/java/javax/time/calendar/field/MonthOfYear.java:459-461 | The last day of a month is its length, within 28..31. |
| Months.QuarterValue | src/main/java/javax/time/calendar/field/MonthOfYear.java:469-479 | A quarter is numbered within 1..4. |
| Months.GetQuarterOfYear | src/main/java/javax/time/calendar/field/MonthOfYear.java:469-479 | The quarter's number is (month number - 1) / 3 + 1. |
| Months.GetMonthOfQuarter | src/main/java/javax/time/calendar/field/MonthOfYear.java:486-488 | The month within its quarter is numbered within 1..3. |
| Months.QuarterDecomposition | src/main/java/javax/time/calendar/field/MonthOfYear.java:469-488 | 3 times (quarter number - 1), plus the month of the quarter, is the month's number. |
| ZoneRules.FromInstant | src/main/java/javax/time/calendar/zone/ZoneRules.java:164-165 | The offset date-time made from an instant and an offset has that offset and stands for that instant. |
| ZoneRules.NewTransition | src/main/java/javax/time/calendar/zone/ZoneRules.java:440-447 | The transition keeps the cutover's local date-time, takes the cutover's offset as the offset before, and keeps the given offset after. |
| ZoneRules.TransitionIsValidOffset | src/main/java/javax/time/calendar/zone/ZoneRules.java:511-513 | No offset is valid in a gap. Otherwise exactly the offset before and the offset after are valid. Null never is. |
| ZoneRules.InfoDiscontinuity | src/main/java/javax/time/calendar/zone/ZoneRules.java:487-489 | The transition is present exactly for a discontinuity. |
| ZoneRules.InfoIsDiscontinuity | src/main/java/javax/time/calendar/zone/ZoneRules.java:466-468 | True exactly for a discontinuity info, the one kind that carries a transition. |
| ZoneRules.InfoOffset | src/main/java/javax/time/calendar/zone/ZoneRules.java:477-479 | The single offset is null exactly for a discontinuity. |
| ZoneRules.InfoEstimatedOffset | src/main/java/javax/time/calendar/zone/ZoneRules.java:501-503 | The estimate is the single offset when there is one, and otherwise the transition's offset after. |
| ZoneRules.InfoIsValidOffset | src/main/java/javax/time/calendar/zone/ZoneRules.java:511-513 | Null is never valid. With a single offset, exactly that offset is valid. In a gap no offset is valid; in any other transition, exactly the offsets before and after. |
| ZoneRules.EstimatedOffsetValidity | src/main/java/javax/time/calendar/zone/ZoneRules.java:501-513 | The estimated offset is valid exactly when the date-time is not in a gap. |
| ZoneRules.ValidOffsets | src/main/java/javax/time/calendar/zone/ZoneRules.java:505-513 | A normal info has one valid offset, a gap none, and an overlap exactly its two distinct offsets. |
| ZoneRules.CreateOffsetInfo | src/main/java/javax/time/calendar/zone/ZoneRules.java:304-308 | Null arguments are rejected in order with their messages. Otherwise the info has the date-time, no discontinuity, the given offset as offset and estimate, and that offset as its only valid one. |
| ZoneRules.CreateDiscontinuityInfo | src/main/java/javax/time/calendar/zone/ZoneRules.java:319-328 | Null arguments are rejected in order with their messages. Otherwise the info is a discontinuity with a null offset, the transition built from the cutover and the offset after, and that offset after as its estimate. |
| ZoneRules.GetOffset | src/main/java/javax/time/calendar/zone/ZoneRules.java:142 | The rules of a fixed offset give that offset at every instant. |
| ZoneRules.GetOffsetInfo | src/main/java/javax/time/calendar/zone/ZoneRules.java:188 | The rules of a fixed offset give a normal info with that offset at every local date-time. |
| ZoneRules.GetStandardOffset | src/main/java/javax/time/calendar/zone/ZoneRules.java:202 | The rules of a fixed offset have that offset as their standard offset. |
| ZoneRules.GetOffsetInfoAtInstant | src/main/java/javax/time/calendar/zone/ZoneRules.java:163-167 | The info at an instant is the info at the instant's local date-time under the offset in force at it. For fixed rules it is the normal info of that offset. |
| ZoneRules.IsFixedOffset | src/main/java/javax/time/calendar/zone/ZoneRules.java:127-129 | True exactly for the rules of a single offset, and then the offset is the same at every instant. |
| ZoneRules.FixedRulesCoherent | src/main/java/javax/time/calendar/zone/ZoneRules.java:155-156 | The rules of a single offset are coherent: the offset at every instant is valid at that instant's local date-time. |
| ZoneRules.InstantNeverInGap | src/main/java/javax/time/calendar/zone/ZoneRules.java:155-167 | For coherent rules, the info at an instant is never a gap, and the offset in force at the instant is valid in it. |
| ZoneRules.GetDaylightSavings | src/main/java/javax/time/calendar/zone/ZoneRules.java:216-221 | The standard offset plus the daylight savings is the actual offset. Fixed rules have none. |
| ZoneRules.IsDaylightSavings | src/main/java/javax/time/calendar/zone/ZoneRules.java:234-236 | True exactly when the daylight-savings amount is non-zero. Never for fixed rules. |
| ZoneRules.IsValidDateTime | src/main/java/javax/time/calendar/zone/ZoneRules.java:288-291 | Whether the date-time's offset is valid in the info at its local date-time: the single offset, never in a gap, either side of an overlap. For fixed rules, exactly that offset. |
| ZoneRules.FixedRulesNeverDiscontinuous | src/main/java/javax/time/calendar/zone/ZoneRules.java:88-90 | For fixed rules, no local date-time is in a discontinuity. The estimate and the offset at any instant are that offset, and there is never daylight savings. |
| TimeZones.LookupGroup | src/main/java/javax/time/calendar/TimeZone.java:204 | Succeeds exactly for a registered group, and fails for any other with an unknown-group error. |
| TimeZones.LookupRules | src/main/java/javax/time/calendar/TimeZone.java:443-444 | An unknown group fails before any rules are asked for. Otherwise the result is the group's answer for the region and version. |
| TimeZones.IndexOf | src/main/java/javax/time/calendar/TimeZone.java:201 | The result is -1 or a position in the text. |
| TimeZones.IndexOfSpec | src/main/java/javax/time/calendar/TimeZone.java:201 | -1 means the character does not occur. Otherwise the result is the position of its first occurrence. |
| TimeZones.SplitGroupSpec | src/main/java/javax/time/calendar/TimeZone.java:201-208 | With a ':', the group is the text before the first one: it holds no ':', and group, ':' and rest together are the ID. Without one, the group is `TZDB` and the rest is the whole ID. |
| TimeZones.SplitVersionSpec | src/main/java/javax/time/calendar/TimeZone.java:209-214 | The region holds no '#'. With a '#', region, '#' and version together are the text; without one, the version is the floating `""`. |
| TimeZones.FixedKey | src/main/java/javax/time/calendar/TimeZone.java:232-240 | A fixed zone has empty group and version. Offset zero gives the `UTC` region, and any other offset the region "UTC" followed by the offset's ID. |
| TimeZones.RenderID | src/main/java/javax/time/calendar/TimeZone.java:287-295 | An empty group gives the region alone. `TZDB` gives the region and version part without a prefix. Any other group is written before it with ':'. |
| TimeZones.RegionPart | src/main/java/javax/time/calendar/TimeZone.java:290-294 | The floating version adds nothing to the region; a specific version adds '#' and the version. |
| TimeZones.ParseZone | src/main/java/javax/time/calendar/TimeZone.java:188-218 | "UTC" gives the UTC zone. A "UTC" or "GMT" prefix gives the fixed zone of the parsed offset, or an invalid-offset error. Any other ID is split, and succeeds exactly when the group is registered and has rules for the region and version. |
| TimeZones.SplitRenderID | src/main/java/javax/time/calendar/TimeZone.java:201-216 | For a non-fixed zone with no ':' in any ID and no '#' in the region, splitting the rendered ID gives back the group, region and version. |
| TimeZones.RenderSplitID | src/main/java/javax/time/calendar/TimeZone.java:201-216 | Rendering a split ID gives the ID itself, without the `TZDB:` prefix. The exceptions are an empty group and an empty version after '#'. |
| TimeZones.JoinGroup | src/main/java/javax/time/calendar/TimeZone.java:201-208 | A group other than `TZDB` was written out: joining it to the rest with ':' gives the ID. |
| TimeZones.JoinVersion | src/main/java/javax/time/calendar/TimeZone.java:209-214 | Unless the text ends in an empty version, the region and the "#version" suffix join to the text. |
| TimeZones.SplitVersionSuffix | src/main/java/javax/time/calendar/TimeZone.java:209-214 | The region-and-version part of a rendered ID splits back into region and version, and holds no ':'. |
| TimeZones.SplitGroupPrefix | src/main/java/javax/time/calendar/TimeZone.java:201-208 | A rendered group prefix, absent for `TZDB`, splits back into the group and the rest. |
| TimeZones.ParseRenderID | src/main/java/javax/time/calendar/TimeZone.java:287-295 | Applies when the same conditions hold as for SplitRenderID, the ID has no "UTC"/"GMT" prefix, and the registry has rules. Then parsing the rendered ID gives the same group, region and version with the registry's rules. |
| TimeZones.ParseFixedID | src/main/java/javax/time/calendar/TimeZone.java:190-198 | The ID of the fixed zone of an offset parses back to that fixed zone, provided the offset text is non-empty and parses back. |
| TimeZones.ExplicitDefaultGroup | src/main/java/javax/time/calendar/TimeZone.java:155-158 | The full form with `TZDB:` written out names the same zone as the short form, and the zone's ID is the short form. |
| TimeZones.TimeZone.constructor | src/main/java/javax/time/calendar/TimeZone.java:250-256 | Stores the three IDs and the initial cache. |
| TimeZones.TimeZone.Of | src/main/java/javax/time/calendar/TimeZone.java:188-218 | The step-by-step split gives what `ParseZone` gives. Its error on failure, and on success a new, valid zone with the parsed IDs and its rules already in the cache. |
| TimeZones.TimeZone.OfAlias | src/main/java/javax/time/calendar/TimeZone.java:142-148 | An alias in the map gives its zone. Any other ID gives what `Of` gives: its error, or a new, valid zone with the parsed IDs and its rules in the cache. |
| TimeZones.GroupStep | src/main/java/javax/time/calendar/TimeZone.java:201-208 | The group step of the factory gives the group and rest that `SplitGroup` defines. |
| TimeZones.VersionStep | src/main/java/javax/time/calendar/TimeZone.java:209-214 | The version step of the factory gives the region and version that `SplitVersion` defines. |
| TimeZones.TimeZone.GetID | src/main/java/javax/time/calendar/TimeZone.java:287-295 | A fixed zone's ID is its region. Any other zone's ID splits back into its three IDs, provided no ID holds a ':' and the region no '#'. |
| TimeZones.TimeZone.OfOffset | src/main/java/javax/time/calendar/TimeZone.java:232-240 | A new, valid fixed zone with the key of the offset and its fixed rules in the cache. |
| TimeZones.TimeZone.IsFixedOffset | src/main/java/javax/time/calendar/TimeZone.java:351-353 | True exactly for an empty group. A fixed zone's ID is its region. |
| TimeZones.TimeZone.GetGroup | src/main/java/javax/time/calendar/TimeZone.java:377-382 | A fixed zone fails with "not provided by a group". Otherwise the group is looked up. |
| TimeZones.TimeZone.IsValid | src/main/java/javax/time/calendar/TimeZone.java:404-413 | A fixed zone is always valid. Otherwise a zone is valid exactly when the group is registered and has rules for the region and version. |
| TimeZones.TimeZone.GetRules | src/main/java/javax/time/calendar/TimeZone.java:438-449 | A cached value is returned unchanged. Otherwise the rules are looked up and cached only for a non-empty version and a successful lookup; the zone stays valid. |
| TimeZones.ValidMatchesRules | src/main/java/javax/time/calendar/TimeZone.java:384-449 | With a registry whose validity answers agree with its lookups, a zone that is not fixed is valid exactly when its rules can be looked up. A valid zone always has rules cached or to look up, so `getRules()` succeeds. |
| TimeZones.TimeZone.IsValidAt | src/main/java/javax/time/calendar/TimeZone.java:474-484 | For a fixed zone: whether its offset at the date-time's instant is the date-time's offset. Otherwise: whether the group is registered and has rules valid at the date-time. |
| TimeZones.TimeZone.GetRulesAt | src/main/java/javax/time/calendar/TimeZone.java:513-523 | A fixed zone succeeds exactly when valid at the date-time, with the fixed rules of its offset, and otherwise fails with the mismatch error. Any other zone fails for an unknown group, and otherwise gives the registry's rules for the date-time. |
| TimeZones.ValidAtMatchesRulesAt | src/main/java/javax/time/calendar/TimeZone.java:474-523 | With such a registry, a zone is valid at a date-time exactly when `getRules(OffsetDateTime)` succeeds for it. |
| TimeZones.TimeZone.Equals | src/main/java/javax/time/calendar/TimeZone.java:552-563 | True exactly when the other zone is not null and has the same group, region and version. |
| TimeZones.EqualsIsEquivalence | src/main/java/javax/time/calendar/TimeZone.java:552-573 | Equality is reflexive, symmetric and transitive, and equal zones have equal hash codes. |
| TimeZones.TimeZone.HashCode | src/main/java/javax/time/calendar/TimeZone.java:571-573 | The hash of a zone combines the hashes of its three IDs by XOR, so a fixed zone hashes as its region. |
| TimeZones.StringHash | src/main/java/javax/time/calendar/TimeZone.java:572 | The string hash is a 32-bit value, and 0 for the empty string. |
| TimeZones.StringHashAppend | src/main/java/javax/time/calendar/TimeZone.java:572 | Appending a character multiplies the hash by 31 and adds the character, modulo 2^32. |
| TimeZones.HashLoopFrom | src/main/java/javax/time/calendar/TimeZone.java:572 | Running the hash loop of `String.hashCode` from the hash of a prefix gives the hash of the whole text. |
| TimeZones.StringHashIsLoop | src/main/java/javax/time/calendar/TimeZone.java:572 | The hash is the value the loop computes from 0, one step per character from the first. |
| TimeZones.FixedZoneValidity | src/main/java/javax/time/calendar/TimeZone.java:404-407 | A fixed zone is always valid and has no group. It is valid at exactly the date-times with its offset; for those it gives its fixed rules, and for the rest the mismatch error. |

## Left out

- ZoneOffsetTransition.java, FixedZoneRules.java, ZoneOffset.java, Year.java and ZoneRulesGroup.java are not part of this model:
  - A transition is only its cutover and its two offsets. A gap is a forward change of offset and an overlap a backward one; nothing else of the class is modelled.
  - The fixed rules are the `Fixed` variant of `ZoneRules.Rules`.
  - Offset text and its parsing are the `OffsetText` functions.
  - `Year.isLeap` is a Boolean flag.
  - The rules-group registry is the `Registry` functions (`getGroup`, `isValidGroup`, `isValidRules`, `getRules`). The group a lookup returns is assumed to report the ID it was looked up by.
- The abstract queries `getOffset`, `getOffsetInfo(LocalDateTime)` and `getStandardOffset` of ZoneRules are functions supplied with the rules, so nothing about them is proved beyond what fixed rules give.
- `getTransitions`, `getTransitionRules`, `createTransition`, `createTransitionRule`, and the abstract `equals`/`hashCode` of ZoneRules: these are abstract or build objects of classes outside the model. `createTransition` is the same constructor call as `NewTransition`.
- ZoneRules.GetDaylightSavings: the result is whole seconds, not a normalised `Period`.
- ZoneOffset instances are compared by value, so the reference test `offset == ZoneOffset.UTC` in `timeZone(ZoneOffset)` is `offset == 0`.
- TimeZones.TimeZone.Of: the `UTC` constant is a new object with the same IDs and rules, not the shared singleton. Object identity is not modelled.
- The null checks of `timeZone(String)`, `timeZone(ZoneOffset)`, `timeZone(String, Map)`, `isValid(OffsetDateTime)` and `getRules(OffsetDateTime)` are not modelled: each only rejects null before doing anything else, and Dafny strings, offsets and maps cannot be null.
- `getText`, `getShortText`, `getName` and `getShortName`: locale text, or stubs that return the region ID.
- `isJanuary` … `isDecember`: each tests for one constant. That is Dafny's constructor test (`m.JANUARY?`).
- `toString`, which returns the ID; the getters of the three IDs, which are the class's constant fields; and the enum's generated `values()` method, whose twelve months in order are `Months.Values`.
- Serialization (`readResolve`, `serialVersionUID`) and the `volatile`/`transient` semantics of the rules cache. Threads are not modelled. A deserialized zone whose cache is empty is also not modelled: a fixed zone always holds its rules here (`TimeZone.Valid`).
- TimeZones.StringHash: computed over Dafny characters rather than UTF-16 code units. `String.hashCode` is outside the model; its loop is the function `HashLoop`.
- Months.Roll: `months` is an unbounded integer rather than a Java `int`. Over the `int` range the Java index cannot overflow, so the two agree there.
- TimeZones.ParseRenderID: it requires the rendered ID not to begin with "UTC" or "GMT". The Java split reads such an ID as a fixed offset, so the round trip does not hold for those IDs.
- The documentation of `getRules()` says a floating version gives the latest version available (TimeZone.java:422-424). `getRules()` itself caches only a specific version (TimeZone.java:445-447). But `timeZone(String)` passes the rules it looked up to the constructor (TimeZone.java:215-216), and `getRules()` returns whatever is cached (TimeZone.java:440-441). So a floating zone made from an ID keeps the rules it was made with. The model follows the code: `TimeZone.Of` puts the rules in the cache, for any version.
- ZoneRules.GetOffsetInfoAtInstant: "never a gap" is proved only for coherent rules (`ZoneRules.Coherent`), which fixed rules are. The three supplied queries of other rules are not required to agree with each other.
- TimeZones.TimeZone.IsValid: agreement with `getRules()` is proved only for a registry whose validity answers agree with its lookups (`TimeZones.RegistryCoherent`). The supplied registry functions are not required to agree.
- TimeZones.TimeZone.IsValidAt: agreement with `getRules(OffsetDateTime)` is likewise proved only for a coherent registry.
