/**
 * The time-zone handle: a group / region / version identifier, its textual ID, and a
 * one-field cache of the rules the identifier resolves to.
 *
 * The registry of rules groups and the parsing and printing of offset text are not part
 * of this model; they are supplied as functions (`Registry`, `OffsetText`).
 */
module TimeZones {
  import opened Wrappers
  import opened Errors
  import opened ZoneRules

  /** The group assumed when an ID names none. */
  const DefaultGroup := "TZDB"

  /** The three identifiers of a zone. A fixed-offset zone has an empty group and version. */
  datatype ZoneKey = ZoneKey(groupID: string, regionID: string, versionID: string)

  /** A zone key together with the rules it was resolved to. */
  datatype Resolved = Resolved(key: ZoneKey, rules: Rules)

  /**
   * The registry of rules groups (ZoneRulesGroup): which group IDs are registered, which
   * region and version combinations a group has rules for (at all, or valid for a given
   * date-time), and the rules it hands out, or the error it throws.
   */
  datatype Registry = Registry(
    isValidGroup: string -> bool,
    isValidRules: (string, string, string) -> bool,
    isValidRulesAt: (string, string, string, OffsetDateTime) -> bool,
    rulesFor: (string, string, string) -> Result<Rules, Error>,
    rulesForAt: (string, string, string, OffsetDateTime) -> Result<Rules, Error>)

  /** ZoneOffset.zoneOffset(String) and ZoneOffset.getID(): parsing and printing offset text. */
  datatype OffsetText = OffsetText(parse: string -> Option<Offset>, id: Offset -> string)

  /** ZoneRulesGroup.getGroup(groupID): the group, or an error when none is registered. */
  function LookupGroup(registry: Registry, groupID: string): (r: Result<string, Error>)
    ensures r.Success? <==> registry.isValidGroup(groupID)
    ensures r.Success? ==> r.value == groupID
    ensures r.Failure? ==> r.error == UnknownGroup(groupID)
  {
    if registry.isValidGroup(groupID) then Success(groupID) else Failure(UnknownGroup(groupID))
  }

  /** getGroup(groupID).getRules(regionID, versionID): the group is validated first. */
  function LookupRules(registry: Registry, key: ZoneKey): (r: Result<Rules, Error>)
    ensures !registry.isValidGroup(key.groupID) ==> r == Failure(UnknownGroup(key.groupID))
    ensures registry.isValidGroup(key.groupID) ==> r == registry.rulesFor(key.groupID, key.regionID, key.versionID)
  {
    match LookupGroup(registry, key.groupID)
    case Failure(e) => Failure(e)
    case Success(g) => registry.rulesFor(g, key.regionID, key.versionID)
  }

  /** String.indexOf(char): the first position of c in s, or -1. */
  function IndexOf(s: string, c: char): (r: int)
    ensures -1 <= r < |s|
  {
    if |s| == 0 then -1
    else if s[0] == c then 0
    else
      var k := IndexOf(s[1..], c);
      if k < 0 then -1 else k + 1
  }

  /** IndexOf is -1 exactly when c does not occur, and otherwise the position of its first occurrence. */
  lemma {:induction false} IndexOfSpec(s: string, c: char)
    ensures IndexOf(s, c) == -1 ==> c !in s
    ensures IndexOf(s, c) >= 0 ==> s[IndexOf(s, c)] == c && c !in s[..IndexOf(s, c)]
  {
    if |s| > 0 && s[0] != c {
      IndexOfSpec(s[1..], c);
      assert s == [s[0]] + s[1..];
      if IndexOf(s, c) >= 0 {
        assert s[..IndexOf(s, c)] == [s[0]] + s[1..][..IndexOf(s[1..], c)];
      }
    }
  }

  /** Whether a zone ID names a fixed offset: it starts with "UTC" or "GMT". */
  predicate HasFixedPrefix(s: string)
  {
    |s| >= 3 && (s[..3] == "UTC" || s[..3] == "GMT")
  }

  /**
   * The group part of a non-fixed ID: the text before the first ':' and the rest after it,
   * or the default group and the whole ID when there is no ':'.
   */
  function SplitGroup(zoneID: string): (string, string)
  {
    var pos := IndexOf(zoneID, ':');
    if pos >= 0 then (zoneID[..pos], zoneID[pos + 1..]) else (DefaultGroup, zoneID)
  }

  /**
   * The version part of the rest of an ID: the region before the first '#' and the version
   * after it, or the whole rest and the floating version "" when there is no '#'.
   */
  function SplitVersion(rest: string): (string, string)
  {
    var pos := IndexOf(rest, '#');
    if pos >= 0 then (rest[..pos], rest[pos + 1..]) else (rest, "")
  }

  /** With a ':', the group is the text before the first one and holds none; without, the group is the default. */
  lemma SplitGroupSpec(zoneID: string)
    ensures ':' in zoneID ==> ':' !in SplitGroup(zoneID).0 && SplitGroup(zoneID).0 + ":" + SplitGroup(zoneID).1 == zoneID
    ensures ':' !in zoneID ==> SplitGroup(zoneID) == (DefaultGroup, zoneID)
  {
    IndexOfSpec(zoneID, ':');
    var pos := IndexOf(zoneID, ':');
    if pos >= 0 {
      assert zoneID[..pos] + ":" + zoneID[pos + 1..] == zoneID;
    }
  }

  /** The region never holds a '#'; with one, region "#" version is the text, without one the version is floating. */
  lemma SplitVersionSpec(rest: string)
    ensures '#' !in SplitVersion(rest).0
    ensures '#' in rest ==> SplitVersion(rest).0 + "#" + SplitVersion(rest).1 == rest
    ensures '#' !in rest ==> SplitVersion(rest) == (rest, "")
  {
    IndexOfSpec(rest, '#');
    var pos := IndexOf(rest, '#');
    if pos >= 0 {
      assert rest[..pos] + "#" + rest[pos + 1..] == rest;
    }
  }

  /** The group, region and version named by an ID that is not a fixed-offset one. */
  function SplitID(zoneID: string): ZoneKey
  {
    var (group, rest) := SplitGroup(zoneID);
    var (region, version) := SplitVersion(rest);
    ZoneKey(group, region, version)
  }

  /** The "#version" suffix, omitted for the floating version. */
  function VersionSuffix(versionID: string): string
  {
    if |versionID| == 0 then "" else "#" + versionID
  }

  /**
   * getID(): a fixed zone is its region; otherwise group ":" region "#" version, with the
   * default group's prefix and the floating version's suffix left out.
   */
  function RenderID(key: ZoneKey): (r: string)
    ensures key.groupID == "" ==> r == key.regionID
    ensures key.groupID == DefaultGroup ==> r == RegionPart(key)
    ensures key.groupID != "" && key.groupID != DefaultGroup ==> r == key.groupID + ":" + RegionPart(key)
  {
    if |key.groupID| == 0 then key.regionID
    else if key.groupID == DefaultGroup then RegionPart(key)
    else key.groupID + ":" + RegionPart(key)
  }

  /** The region followed by the version suffix: a floating version adds no '#'. */
  function RegionPart(key: ZoneKey): (r: string)
    ensures key.versionID == "" ==> r == key.regionID
    ensures key.versionID != "" ==> r == key.regionID + "#" + key.versionID
  {
    key.regionID + VersionSuffix(key.versionID)
  }

  /** The key of the fixed zone for an offset: the UTC constant for zero, else "UTC" + offset ID. */
  function FixedKey(offset: Offset, text: OffsetText): (k: ZoneKey)
    ensures k.groupID == "" && k.versionID == ""
    ensures offset == 0 ==> k.regionID == "UTC"
    ensures offset != 0 ==> k.regionID == "UTC" + text.id(offset)
  {
    if offset == 0 then ZoneKey("", "UTC", "") else ZoneKey("", "UTC" + text.id(offset), "")
  }

  /**
   * timeZone(String): "UTC" is the UTC zone; another ID starting "UTC" or "GMT" is the fixed
   * zone of the offset its text after the prefix parses to; any other ID is split into
   * group, region and version, and the registry must know the group and have rules.
   */
  function ParseZone(zoneID: string, registry: Registry, text: OffsetText): (r: Result<Resolved, Error>)
    ensures zoneID == "UTC" ==> r == Success(Resolved(ZoneKey("", "UTC", ""), Fixed(0)))
    ensures HasFixedPrefix(zoneID) && zoneID != "UTC" ==>
              (r.Success? <==> text.parse(zoneID[3..]).Some?) &&
              (r.Failure? ==> r.error == InvalidOffsetID(zoneID[3..])) &&
              (r.Success? ==> r == Success(Resolved(FixedKey(text.parse(zoneID[3..]).value, text),
                                                     Fixed(text.parse(zoneID[3..]).value))))
    ensures !HasFixedPrefix(zoneID) ==>
              var key := SplitID(zoneID);
              (r.Success? <==> registry.isValidGroup(key.groupID) &&
                               registry.rulesFor(key.groupID, key.regionID, key.versionID).Success?) &&
              (r.Success? ==> r.value.key == key &&
                              Success(r.value.rules) == registry.rulesFor(key.groupID, key.regionID, key.versionID))
  {
    if zoneID == "UTC" then Success(Resolved(ZoneKey("", "UTC", ""), Fixed(0)))
    else if HasFixedPrefix(zoneID) then
      match text.parse(zoneID[3..])
      case None => Failure(InvalidOffsetID(zoneID[3..]))
      case Some(offset) => Success(Resolved(FixedKey(offset, text), Fixed(offset)))
    else
      var key := SplitID(zoneID);
      match LookupRules(registry, key)
      case Failure(e) => Failure(e)
      case Success(rules) => Success(Resolved(key, rules))
  }

  /** In text made of a part without the separator, the separator and the rest, the first separator follows the part. */
  lemma {:induction false} IndexOfJoin(part: string, sep: char, rest: string)
    requires sep !in part
    ensures IndexOf(part + [sep] + rest, sep) == |part|
    ensures (part + [sep] + rest)[..|part|] == part && (part + [sep] + rest)[|part| + 1..] == rest
  {
    var s := part + [sep] + rest;
    if |part| > 0 {
      assert s[0] == part[0] && part[0] != sep;
      assert s[1..] == part[1..] + [sep] + rest;
      IndexOfJoin(part[1..], sep, rest);
    }
    assert s[..|part|] == part;
    assert s[|part| + 1..] == rest;
  }

  /**
   * Splitting a rendered ID gives back its group, region and version, provided the ID is
   * not read as a fixed one and the separators stay unambiguous: no ':' in the group, the
   * region or the version, and no '#' in the region.
   */
  lemma {:induction false} SplitRenderID(key: ZoneKey)
    requires key.groupID != ""
    requires ':' !in key.groupID && ':' !in key.regionID && '#' !in key.regionID && ':' !in key.versionID
    ensures SplitID(RenderID(key)) == key
  {
    var rest := RegionPart(key);
    SplitVersionSuffix(key.regionID, key.versionID);
    SplitGroupPrefix(key.groupID, rest);
    var id := RenderID(key);
    assert id == if key.groupID == DefaultGroup then rest else key.groupID + [':'] + rest;
    assert SplitGroup(id) == (key.groupID, rest);
    assert SplitVersion(rest) == (key.regionID, key.versionID);
  }

  /** The region and version part of a rendered ID splits back into the two, and holds no ':'. */
  lemma SplitVersionSuffix(region: string, version: string)
    requires ':' !in region && '#' !in region && ':' !in version
    ensures ':' !in region + VersionSuffix(version)
    ensures SplitVersion(region + VersionSuffix(version)) == (region, version)
  {
    var rest := region + VersionSuffix(version);
    if |version| == 0 {
      assert rest == region;
      IndexOfSpec(region, '#');
    } else {
      assert rest == region + ['#'] + version;
      forall i | 0 <= i < |rest|
        ensures rest[i] != ':'
      {
        if i < |region| {
          assert rest[i] == region[i];
        } else if i > |region| {
          assert rest[i] == version[i - |region| - 1];
        }
      }
      IndexOfJoin(region, '#', version);
    }
  }

  /** A rendered ID splits back into its group and the rest, the default group having no prefix. */
  lemma SplitGroupPrefix(group: string, rest: string)
    requires group != "" && ':' !in group && ':' !in rest
    ensures SplitGroup(if group == DefaultGroup then rest else group + [':'] + rest) == (group, rest)
  {
    if group != DefaultGroup {
      IndexOfJoin(group, ':', rest);
    } else {
      IndexOfSpec(rest, ':');
    }
  }

  /**
   * Rendering the split of an ID reproduces the ID in canonical form: the default group's
   * prefix is dropped and any other ID is unchanged, unless it ends in an empty version.
   */
  lemma {:induction false} RenderSplitID(zoneID: string)
    requires SplitGroup(zoneID).0 != ""
    requires !('#' in SplitGroup(zoneID).1 && SplitVersion(SplitGroup(zoneID).1).1 == "")
    ensures RenderID(SplitID(zoneID)) == if SplitGroup(zoneID).0 == DefaultGroup then SplitGroup(zoneID).1 else zoneID
  {
    var key := SplitID(zoneID);
    JoinVersion(SplitGroup(zoneID).1);
    assert RegionPart(key) == SplitGroup(zoneID).1;
    if key.groupID != DefaultGroup {
      JoinGroup(zoneID);
    }
  }

  /** A group other than the default one was written out, and joining it to the rest with ':' gives the ID. */
  lemma JoinGroup(zoneID: string)
    requires SplitGroup(zoneID).0 != DefaultGroup
    ensures SplitGroup(zoneID).0 + ":" + SplitGroup(zoneID).1 == zoneID
  {
    SplitGroupSpec(zoneID);
  }

  /** Unless the text ends in an empty version, the region and the version suffix join to the text. */
  lemma JoinVersion(rest: string)
    requires !('#' in rest && SplitVersion(rest).1 == "")
    ensures SplitVersion(rest).0 + VersionSuffix(SplitVersion(rest).1) == rest
  {
    SplitVersionSpec(rest);
  }

  /**
   * A rendered non-fixed ID parses back to the same zone, given that the registry knows it
   * and its text does not begin with "UTC" or "GMT".
   */
  lemma ParseRenderID(key: ZoneKey, registry: Registry, text: OffsetText)
    requires key.groupID != ""
    requires ':' !in key.groupID && ':' !in key.regionID && '#' !in key.regionID && ':' !in key.versionID
    requires !HasFixedPrefix(RenderID(key))
    requires registry.isValidGroup(key.groupID)
    requires registry.rulesFor(key.groupID, key.regionID, key.versionID).Success?
    ensures ParseZone(RenderID(key), registry, text) ==
              Success(Resolved(key, registry.rulesFor(key.groupID, key.regionID, key.versionID).value))
  {
    SplitRenderID(key);
  }

  /**
   * The ID of a fixed zone parses back to the same fixed zone, given that the offset's text
   * is non-empty and parses back to the offset.
   */
  lemma ParseFixedID(offset: Offset, text: OffsetText, registry: Registry)
    requires offset != 0 ==> text.id(offset) != "" && text.parse(text.id(offset)) == Some(offset)
    ensures ParseZone(RenderID(FixedKey(offset, text)), registry, text) == Success(Resolved(FixedKey(offset, text), Fixed(offset)))
  {
    if offset != 0 {
      var id := "UTC" + text.id(offset);
      assert RenderID(FixedKey(offset, text)) == id;
      assert id[..3] == "UTC" && id[3..] == text.id(offset);
    }
  }

  /**
   * The full form with the default group written out, such as "TZDB:Asia/Tokyo#2008g", names
   * the same zone as the short form, and the zone's ID is the short form.
   */
  lemma ExplicitDefaultGroup(regionID: string, versionID: string)
    requires ':' !in regionID && '#' !in regionID && ':' !in versionID
    ensures SplitID(DefaultGroup + ":" + RegionPart(ZoneKey(DefaultGroup, regionID, versionID))) ==
              ZoneKey(DefaultGroup, regionID, versionID)
    ensures RenderID(ZoneKey(DefaultGroup, regionID, versionID)) == RegionPart(ZoneKey(DefaultGroup, regionID, versionID))
  {
    var rest := RegionPart(ZoneKey(DefaultGroup, regionID, versionID));
    SplitVersionSuffix(regionID, versionID);
    IndexOfJoin(DefaultGroup, ':', rest);
    assert DefaultGroup + ":" + rest == DefaultGroup + [':'] + rest;
  }

  /** The hash codes of Java are 32-bit values, kept here as integers modulo 2^32. */
  const HashModulus := 0x1_0000_0000

  /** One step of String.hashCode(): the hash so far times 31 plus the next character, modulo 2^32. */
  function HashStep(h: int, c: char): (r: int)
    ensures 0 <= r < HashModulus
  {
    (31 * h + c as int) % HashModulus
  }

  /** String.hashCode(): the polynomial hash with multiplier 31 over the characters, modulo 2^32. */
  function StringHash(s: string): (r: int)
    ensures 0 <= r < HashModulus
    ensures |s| == 0 ==> r == 0
    decreases |s|
  {
    if |s| == 0 then 0 else HashStep(StringHash(s[..|s| - 1]), s[|s| - 1])
  }

  /** The loop of String.hashCode(): one step for each character, from the first. */
  function HashLoop(h: int, s: string): int
    decreases |s|
  {
    if |s| == 0 then h else HashLoop(HashStep(h, s[0]), s[1..])
  }

  /** Appending a character takes one more step. */
  lemma StringHashAppend(s: string, c: char)
    ensures StringHash(s + [c]) == HashStep(StringHash(s), c)
  {
  }

  /** Running the loop from the hash of a prefix gives the hash of the whole text. */
  lemma {:induction false} HashLoopFrom(prefix: string, s: string)
    ensures HashLoop(StringHash(prefix), s) == StringHash(prefix + s)
    decreases |s|
  {
    if |s| > 0 {
      StringHashAppend(prefix, s[0]);
      HashLoopFrom(prefix + [s[0]], s[1..]);
      assert prefix + [s[0]] + s[1..] == prefix + s;
    } else {
      assert prefix + s == prefix;
    }
  }

  /** StringHash is the hash String.hashCode() computes by its loop from 0. */
  lemma StringHashIsLoop(s: string)
    ensures StringHash(s) == HashLoop(0, s)
  {
    HashLoopFrom("", s);
    assert "" + s == s;
  }

  /** The XOR of the hashes of the three IDs of a key. */
  function KeyHash(key: ZoneKey): bv32
  {
    (StringHash(key.groupID) as bv32) ^ (StringHash(key.regionID) as bv32) ^ (StringHash(key.versionID) as bv32)
  }

  /** The group step of timeZone(String): the text before the first ':' and the rest, or the default group. */
  method GroupStep(zoneID: string) returns (groupID: string, rest: string)
    ensures (groupID, rest) == SplitGroup(zoneID)
  {
    rest := zoneID;
    groupID := DefaultGroup;
    var pos := IndexOf(rest, ':');
    if pos >= 0 {
      groupID := rest[..pos];
      rest := rest[pos + 1..];
    }
  }

  /** The version step of timeZone(String): the region before the first '#' and the version after it. */
  method VersionStep(rest: string) returns (regionID: string, versionID: string)
    ensures (regionID, versionID) == SplitVersion(rest)
  {
    regionID := rest;
    var pos := IndexOf(regionID, '#');
    versionID := "";
    if pos >= 0 {
      versionID := regionID[pos + 1..];
      regionID := regionID[..pos];
    }
  }

  /**
   * A time zone. The three IDs never change; `rules` caches the rules, and is null until
   * they are first looked up for a zone not created with them.
   */
  class TimeZone {
    const groupID: string
    const regionID: string
    const versionID: string
    var rules: Option<Rules>

    /** A fixed zone always holds its rules. */
    ghost predicate Valid()
      reads this
    {
      IsFixedOffset() ==> rules.Some?
    }

    /** The constructor: the three IDs and the rules, if any, to start the cache with. */
    constructor (groupID: string, regionID: string, versionID: string, rules: Option<Rules>)
      ensures this.groupID == groupID && this.regionID == regionID && this.versionID == versionID
      ensures this.rules == rules
    {
      this.groupID := groupID;
      this.regionID := regionID;
      this.versionID := versionID;
      this.rules := rules;
    }

    /** The three IDs as a value. */
    function Key(): ZoneKey
    {
      ZoneKey(groupID, regionID, versionID)
    }

    /**
     * timeZone(String): a new zone for an ID, following the steps of the split: the group
     * before the first ':', then the version after the first '#' of what remains.
     */
    static method Of(zoneID: string, registry: Registry, text: OffsetText) returns (r: Result<TimeZone, Error>)
      ensures ParseZone(zoneID, registry, text).Failure? ==> r == Failure(ParseZone(zoneID, registry, text).error)
      ensures ParseZone(zoneID, registry, text).Success? ==>
                r.Success? && fresh(r.value) && r.value.Valid() &&
                r.value.Key() == ParseZone(zoneID, registry, text).value.key &&
                r.value.rules == Some(ParseZone(zoneID, registry, text).value.rules)
    {
      ghost var expected := ParseZone(zoneID, registry, text);
      if zoneID == "UTC" {
        var utc := new TimeZone("", "UTC", "", Some(Fixed(0)));
        return Success(utc);
      } else if HasFixedPrefix(zoneID) {
        var parsed := text.parse(zoneID[3..]);
        if parsed.None? {
          return Failure(InvalidOffsetID(zoneID[3..]));
        }
        var zone := OfOffset(parsed.value, text);
        return Success(zone);
      }
      var groupID, rest := GroupStep(zoneID);
      if !registry.isValidGroup(groupID) {
        return Failure(UnknownGroup(groupID));
      }
      var regionID, versionID := VersionStep(rest);
      assert ZoneKey(groupID, regionID, versionID) == SplitID(zoneID);
      var found := registry.rulesFor(groupID, regionID, versionID);
      if found.Failure? {
        return Failure(found.error);
      }
      var zone := new TimeZone(groupID, regionID, versionID, Some(found.value));
      return Success(zone);
    }

    /** timeZone(String, Map): the zone an alias maps to, or else the zone the ID names. */
    static method OfAlias(zoneID: string, aliases: map<string, TimeZone>, registry: Registry, text: OffsetText)
      returns (r: Result<TimeZone, Error>)
      ensures zoneID in aliases ==> r == Success(aliases[zoneID])
      ensures zoneID !in aliases && ParseZone(zoneID, registry, text).Failure? ==>
                r == Failure(ParseZone(zoneID, registry, text).error)
      ensures zoneID !in aliases && ParseZone(zoneID, registry, text).Success? ==>
                r.Success? && fresh(r.value) && r.value.Valid() &&
                r.value.Key() == ParseZone(zoneID, registry, text).value.key &&
                r.value.rules == Some(ParseZone(zoneID, registry, text).value.rules)
    {
      if zoneID in aliases {
        return Success(aliases[zoneID]);
      }
      r := Of(zoneID, registry, text);
    }

    /** timeZone(ZoneOffset): the fixed zone of an offset, holding the fixed rules. */
    static method OfOffset(offset: Offset, text: OffsetText) returns (zone: TimeZone)
      ensures fresh(zone) && zone.Valid()
      ensures zone.Key() == FixedKey(offset, text)
      ensures zone.rules == Some(Fixed(offset))
    {
      if offset == 0 {
        zone := new TimeZone("", "UTC", "", Some(Fixed(0)));
        return;
      }
      var id := "UTC" + text.id(offset);
      zone := new TimeZone("", id, "", Some(Fixed(offset)));
    }

    /**
     * getID(): the textual ID of the zone; a fixed zone's ID is its region, and any other
     * zone's ID splits back into its three IDs when the separators are unambiguous.
     */
    function GetID(): (r: string)
      ensures groupID == "" ==> r == regionID
      ensures groupID != "" && ':' !in groupID && ':' !in regionID && '#' !in regionID && ':' !in versionID ==>
                SplitID(r) == Key()
    {
      if groupID != "" && ':' !in groupID && ':' !in regionID && '#' !in regionID && ':' !in versionID then
        SplitRenderID(Key());
        RenderID(Key())
      else
        RenderID(Key())
    }

    /** isFixedOffset(): whether this is a fixed zone, which has an empty group ID. */
    function IsFixedOffset(): (r: bool)
      ensures r <==> groupID == ""
      ensures r ==> GetID() == regionID
    {
      |groupID| == 0
    }

    /** getGroup(): the rules group of the zone; a fixed zone has none. */
    function GetGroup(registry: Registry): (r: Result<string, Error>)
      ensures IsFixedOffset() ==> r == Failure(FixedZoneHasNoGroup)
      ensures !IsFixedOffset() ==> r == LookupGroup(registry, groupID)
    {
      if IsFixedOffset() then Failure(FixedZoneHasNoGroup) else LookupGroup(registry, groupID)
    }

    /** isValid(): whether rules are available; a fixed zone always has them. */
    function IsValid(registry: Registry): (r: bool)
      ensures IsFixedOffset() ==> r
      ensures !IsFixedOffset() ==>
                (r <==> registry.isValidGroup(groupID) && registry.isValidRules(groupID, regionID, versionID))
    {
      if IsFixedOffset() then true
      else if !registry.isValidGroup(groupID) then false
      else registry.isValidRules(groupID, regionID, versionID)
    }

    /**
     * getRules(): the cached rules if there are any, and otherwise the registry's, which
     * are cached only when the version is a specific one, not the floating one.
     */
    method GetRules(registry: Registry) returns (r: Result<Rules, Error>)
      modifies this`rules
      ensures old(rules).Some? ==> r == Success(old(rules).value) && rules == old(rules)
      ensures old(rules).None? ==> r == LookupRules(registry, Key())
      ensures old(rules).None? ==> rules == (if versionID != "" && r.Success? then Some(r.value) else None)
      ensures old(Valid()) ==> Valid()
    {
      if rules.Some? {
        return Success(rules.value);
      }
      r := LookupRules(registry, Key());
      if r.Success? && |versionID| > 0 {
        rules := Some(r.value);
      }
    }

    /**
     * isValid(OffsetDateTime): for a fixed zone, whether its rules give the date-time's own
     * offset; otherwise whether the registry has rules valid for the date-time.
     */
    function IsValidAt(registry: Registry, dateTime: OffsetDateTime): (r: bool)
      reads this
      requires Valid()
      ensures IsFixedOffset() ==> (r <==> GetOffset(rules.value, ToInstant(dateTime)) == dateTime.offset)
      ensures IsFixedOffset() && rules.value.Fixed? ==> (r <==> rules.value.fixedOffset == dateTime.offset)
      ensures !IsFixedOffset() ==>
                (r <==> registry.isValidGroup(groupID) && registry.isValidRulesAt(groupID, regionID, versionID, dateTime))
    {
      if IsFixedOffset() then GetOffset(rules.value, ToInstant(dateTime)) == dateTime.offset
      else if !registry.isValidGroup(groupID) then false
      else registry.isValidRulesAt(groupID, regionID, versionID, dateTime)
    }

    /**
     * getRules(OffsetDateTime): for a fixed zone, the fixed rules of its offset, or an
     * error when the date-time has another offset; otherwise the registry's rules.
     */
    function GetRulesAt(registry: Registry, dateTime: OffsetDateTime): (r: Result<Rules, Error>)
      reads this
      requires Valid()
      ensures IsFixedOffset() ==> (r.Success? <==> IsValidAt(registry, dateTime))
      ensures IsFixedOffset() && r.Success? ==> r.value == Fixed(dateTime.offset)
      ensures IsFixedOffset() && r.Failure? ==>
                r.error == OffsetMismatch(regionID, dateTime.dateTime, dateTime.offset)
      ensures !IsFixedOffset() && !registry.isValidGroup(groupID) ==> r == Failure(UnknownGroup(groupID))
      ensures !IsFixedOffset() && registry.isValidGroup(groupID) ==>
                r == registry.rulesForAt(groupID, regionID, versionID, dateTime)
    {
      if IsFixedOffset() then
        var offset := GetOffset(rules.value, ToInstant(dateTime));
        if offset != dateTime.offset then Failure(OffsetMismatch(regionID, dateTime.dateTime, dateTime.offset))
        else Success(Fixed(offset))
      else
        match LookupGroup(registry, groupID)
        case Failure(e) => Failure(e)
        case Success(g) => registry.rulesForAt(g, regionID, versionID, dateTime)
    }

    /** equals(Object): the same group, region and version; null is never equal. */
    function Equals(other: TimeZone?): (r: bool)
      ensures r <==> other != null && Key() == other.Key()
    {
      if this == other then true
      else other != null && regionID == other.regionID && versionID == other.versionID && groupID == other.groupID
    }

    /** hashCode(): the XOR of the hashes of the three IDs; a fixed zone hashes as its region. */
    function HashCode(): (r: bv32)
      ensures IsFixedOffset() && versionID == "" ==> r == StringHash(regionID) as bv32
    {
      KeyHash(Key())
    }
  }

  /** equals is reflexive, symmetric and transitive, and equal zones have equal hash codes. */
  lemma EqualsIsEquivalence(a: TimeZone, b: TimeZone, c: TimeZone)
    ensures a.Equals(a)
    ensures a.Equals(b) ==> b.Equals(a)
    ensures a.Equals(b) && b.Equals(c) ==> a.Equals(c)
    ensures a.Equals(b) ==> a.HashCode() == b.HashCode()
  {
  }

  /**
   * A registry whose answers agree with each other: a group has rules for a region and
   * version exactly when it hands them out, and so for a given date-time.
   */
  ghost predicate RegistryCoherent(registry: Registry)
  {
    (forall g: string, r: string, v: string ::
       registry.isValidRules(g, r, v) <==> registry.rulesFor(g, r, v).Success?) &&
    (forall g: string, r: string, v: string, dt: OffsetDateTime ::
       registry.isValidRulesAt(g, r, v, dt) <==> registry.rulesForAt(g, r, v, dt).Success?)
  }

  /**
   * With a coherent registry, a zone that is not fixed is valid exactly when its rules can
   * be looked up, and any valid zone has rules cached or to be looked up: getRules() then
   * delivers rules.
   */
  lemma ValidMatchesRules(zone: TimeZone, registry: Registry)
    requires RegistryCoherent(registry) && zone.Valid()
    ensures !zone.IsFixedOffset() ==> (zone.IsValid(registry) <==> LookupRules(registry, zone.Key()).Success?)
    ensures zone.IsValid(registry) ==> zone.rules.Some? || LookupRules(registry, zone.Key()).Success?
  {
  }

  /** With a coherent registry, a zone is valid at a date-time exactly when it has rules for it. */
  lemma ValidAtMatchesRulesAt(zone: TimeZone, registry: Registry, dateTime: OffsetDateTime)
    requires RegistryCoherent(registry) && zone.Valid()
    ensures zone.IsValidAt(registry, dateTime) <==> zone.GetRulesAt(registry, dateTime).Success?
  {
  }

  /** Every fixed zone made from an offset is valid, and valid at exactly the date-times with that offset. */
  lemma FixedZoneValidity(zone: TimeZone, offset: Offset, registry: Registry, dateTime: OffsetDateTime)
    requires zone.Valid() && zone.IsFixedOffset() && zone.rules == Some(Fixed(offset))
    ensures zone.IsValid(registry)
    ensures zone.IsValidAt(registry, dateTime) <==> dateTime.offset == offset
    ensures zone.GetRulesAt(registry, dateTime) == if dateTime.offset == offset then Success(Fixed(offset))
                                                  else Failure(OffsetMismatch(zone.regionID, dateTime.dateTime, dateTime.offset))
    ensures zone.GetGroup(registry) == Failure(FixedZoneHasNoGroup)
  {
  }
}
