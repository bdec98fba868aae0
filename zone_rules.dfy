/**
 * The rules that say which offset from UTC applies in a time zone, and the result of
 * resolving a local date-time against them: a single offset, or a discontinuity (a gap
 * or an overlap) described by the transition that causes it.
 *
 * Offsets, instants and local date-times are all counted in seconds.
 */
module ZoneRules {
  import opened Wrappers
  import opened Errors

  /** A zone offset: the seconds by which local time is ahead of UTC. */
  type Offset = int

  /** An instant: seconds since 1970-01-01T00:00Z on the UTC time-line. */
  type Instant = int

  /** A local date-time without offset: seconds since the local 1970-01-01T00:00. */
  type LocalDateTime = int

  /** A local date-time together with the offset it is expressed in. */
  datatype OffsetDateTime = OffsetDateTime(dateTime: LocalDateTime, offset: Offset)

  /** The instant an offset date-time stands for. */
  function ToInstant(odt: OffsetDateTime): Instant
  {
    odt.dateTime - odt.offset
  }

  /** OffsetDateTime.fromInstant: the instant seen through the given offset. */
  function FromInstant(instant: Instant, offset: Offset): (r: OffsetDateTime)
    ensures r.offset == offset && ToInstant(r) == instant
  {
    OffsetDateTime(instant + offset, offset)
  }

  /**
   * A change of offset on the local time-line: `cutover` is the local date-time at which
   * `offsetBefore` stops applying, expressed in `offsetBefore`.
   */
  datatype Transition = Transition(cutover: LocalDateTime, offsetBefore: Offset, offsetAfter: Offset)

  /** The transition built from a cutover expressed in the offset before and the offset after. */
  function NewTransition(cutoverDateTime: OffsetDateTime, offsetAfter: Offset): (t: Transition)
    ensures t.cutover == cutoverDateTime.dateTime
    ensures t.offsetBefore == cutoverDateTime.offset && t.offsetAfter == offsetAfter
  {
    Transition(cutoverDateTime.dateTime, cutoverDateTime.offset, offsetAfter)
  }

  /** A transition that moves the local clock forward skips local times: a gap. */
  predicate IsGap(t: Transition)
  {
    t.offsetAfter > t.offsetBefore
  }

  /** A transition that moves the local clock back repeats local times: an overlap. */
  predicate IsOverlap(t: Transition)
  {
    t.offsetAfter < t.offsetBefore
  }

  /**
   * Whether an offset is valid at a local date-time inside the discontinuity: none is in a
   * gap, and both the offset before and the offset after are in an overlap; null never is.
   */
  function TransitionIsValidOffset(t: Transition, offset: Option<Offset>): (r: bool)
    ensures IsGap(t) ==> !r
    ensures !IsGap(t) ==> (r <==> offset == Some(t.offsetBefore) || offset == Some(t.offsetAfter))
  {
    offset.Some? && !IsGap(t) && (offset.value == t.offsetBefore || offset.value == t.offsetAfter)
  }

  /**
   * OffsetInfo: the offsets applicable at a local date-time. `Normal` holds the single
   * offset (the discontinuity field is null); `Discontinuity` holds the transition of a
   * gap or an overlap (the offset field is null).
   */
  datatype OffsetInfo =
    | Normal(dateTime: LocalDateTime, offset: Offset)
    | Discontinuity(dateTime: LocalDateTime, transition: Transition)

  /** getDiscontinuity(): the transition, or null when there is a single offset. */
  function InfoDiscontinuity(info: OffsetInfo): (r: Option<Transition>)
    ensures r.Some? <==> info.Discontinuity?
  {
    match info
    case Normal(_, _) => None
    case Discontinuity(_, t) => Some(t)
  }

  /** isDiscontinuity(): whether the local date-time is in a gap or an overlap. */
  function InfoIsDiscontinuity(info: OffsetInfo): (r: bool)
    ensures r <==> info.Discontinuity?
  {
    InfoDiscontinuity(info) != None
  }

  /** getOffset(): the single offset, null exactly when there is a discontinuity. */
  function InfoOffset(info: OffsetInfo): (r: Option<Offset>)
    ensures r.None? <==> InfoIsDiscontinuity(info)
  {
    match info
    case Normal(_, o) => Some(o)
    case Discontinuity(_, _) => None
  }

  /**
   * getEstimatedOffset(): the single offset when there is one, and otherwise the offset
   * after the transition.
   */
  function InfoEstimatedOffset(info: OffsetInfo): (r: Offset)
    ensures !InfoIsDiscontinuity(info) ==> InfoOffset(info) == Some(r)
    ensures InfoIsDiscontinuity(info) ==> r == InfoDiscontinuity(info).value.offsetAfter
  {
    if InfoIsDiscontinuity(info) then InfoDiscontinuity(info).value.offsetAfter else InfoOffset(info).value
  }

  /**
   * isValidOffset(offset): with a single offset, whether the argument equals it; in a
   * discontinuity, whatever the transition answers. Null is never valid.
   */
  function InfoIsValidOffset(info: OffsetInfo, offset: Option<Offset>): (r: bool)
    ensures offset.None? ==> !r
    ensures !InfoIsDiscontinuity(info) ==> (r <==> offset == InfoOffset(info))
    ensures InfoIsDiscontinuity(info) && IsGap(InfoDiscontinuity(info).value) ==> !r
    ensures InfoIsDiscontinuity(info) && !IsGap(InfoDiscontinuity(info).value) ==>
              (r <==> (offset == Some(InfoDiscontinuity(info).value.offsetBefore) ||
                       offset == Some(InfoDiscontinuity(info).value.offsetAfter)))
  {
    if InfoIsDiscontinuity(info) then TransitionIsValidOffset(InfoDiscontinuity(info).value, offset)
    else offset.Some? && InfoOffset(info).value == offset.value
  }

  /**
   * The estimated offset is a valid one except inside a gap, where no offset is valid:
   * it is the single offset, or in an overlap the offset after.
   */
  lemma {:induction false} EstimatedOffsetValidity(info: OffsetInfo)
    ensures (InfoIsValidOffset(info, Some(InfoEstimatedOffset(info))) <==>
             !(InfoIsDiscontinuity(info) && IsGap(InfoDiscontinuity(info).value)))
  {
  }

  /**
   * The number of valid offsets: exactly one with a single offset, none in a gap, and the
   * two distinct offsets of the transition in an overlap.
   */
  lemma ValidOffsets(info: OffsetInfo, offset: Offset)
    ensures info.Normal? ==> (InfoIsValidOffset(info, Some(offset)) <==> offset == info.offset)
    ensures info.Discontinuity? && IsGap(info.transition) ==> !InfoIsValidOffset(info, Some(offset))
    ensures info.Discontinuity? && IsOverlap(info.transition) ==>
              info.transition.offsetBefore != info.transition.offsetAfter &&
              (InfoIsValidOffset(info, Some(offset)) <==>
                 offset == info.transition.offsetBefore || offset == info.transition.offsetAfter)
  {
  }

  /**
   * createOffsetInfo(dateTime, offset): the info with a single offset; null arguments are
   * rejected, the date-time first.
   */
  function CreateOffsetInfo(dateTime: Option<LocalDateTime>, offset: Option<Offset>): (r: Result<OffsetInfo, Error>)
    ensures r.Success? <==> dateTime.Some? && offset.Some?
    ensures dateTime.None? ==> r == Failure(NullArgument("LocalDateTime must not be null"))
    ensures dateTime.Some? && offset.None? ==> r == Failure(NullArgument("ZoneOffset must not be null"))
    ensures r.Success? ==>
              && r.value.dateTime == dateTime.value
              && !InfoIsDiscontinuity(r.value)
              && InfoDiscontinuity(r.value) == None
              && InfoOffset(r.value) == offset
              && InfoEstimatedOffset(r.value) == offset.value
              && (forall o: Offset :: InfoIsValidOffset(r.value, Some(o)) <==> o == offset.value)
  {
    if dateTime.None? then Failure(NullArgument("LocalDateTime must not be null"))
    else if offset.None? then Failure(NullArgument("ZoneOffset must not be null"))
    else Success(Normal(dateTime.value, offset.value))
  }

  /**
   * createOffsetInfo(dateTime, cutoverDateTime, offsetAfter): the info for a gap or an
   * overlap; null arguments are rejected in parameter order.
   */
  function CreateDiscontinuityInfo(dateTime: Option<LocalDateTime>, cutoverDateTime: Option<OffsetDateTime>,
                                   offsetAfter: Option<Offset>): (r: Result<OffsetInfo, Error>)
    ensures r.Success? <==> dateTime.Some? && cutoverDateTime.Some? && offsetAfter.Some?
    ensures dateTime.None? ==> r == Failure(NullArgument("LocalDateTime must not be null"))
    ensures dateTime.Some? && cutoverDateTime.None? ==> r == Failure(NullArgument("OffsetDateTime must not be null"))
    ensures dateTime.Some? && cutoverDateTime.Some? && offsetAfter.None? ==>
              r == Failure(NullArgument("ZoneOffset must not be null"))
    ensures r.Success? ==>
              && r.value.dateTime == dateTime.value
              && InfoIsDiscontinuity(r.value)
              && InfoOffset(r.value) == None
              && InfoDiscontinuity(r.value) == Some(Transition(cutoverDateTime.value.dateTime,
                                                               cutoverDateTime.value.offset, offsetAfter.value))
              && InfoEstimatedOffset(r.value) == offsetAfter.value
  {
    if dateTime.None? then Failure(NullArgument("LocalDateTime must not be null"))
    else if cutoverDateTime.None? then Failure(NullArgument("OffsetDateTime must not be null"))
    else if offsetAfter.None? then Failure(NullArgument("ZoneOffset must not be null"))
    else Success(Discontinuity(dateTime.value, NewTransition(cutoverDateTime.value, offsetAfter.value)))
  }

  /**
   * A rules object. `Provided` stands for any implementation of the abstract class: its
   * three abstract queries are the given functions. `Fixed` is the rules for a single
   * offset that applies at every point of the time-line.
   */
  datatype Rules =
    | Fixed(fixedOffset: Offset)
    | Provided(offsetOf: Instant -> Offset,
               offsetInfoOf: LocalDateTime -> OffsetInfo,
               standardOffsetOf: Instant -> Offset)


  /** getOffset(instant): the one offset in force at the instant. */
  function GetOffset(rules: Rules, instant: Instant): (r: Offset)
    ensures rules.Fixed? ==> r == rules.fixedOffset
  {
    match rules
    case Fixed(o) => o
    case Provided(offsetOf, _, _) => offsetOf(instant)
  }

  /** getOffsetInfo(LocalDateTime): the offset or offsets valid at a local date-time. */
  function GetOffsetInfo(rules: Rules, dateTime: LocalDateTime): (r: OffsetInfo)
    ensures rules.Fixed? ==> r == Normal(dateTime, rules.fixedOffset)
  {
    match rules
    case Fixed(o) => Normal(dateTime, o)
    case Provided(_, offsetInfoOf, _) => offsetInfoOf(dateTime)
  }

  /** getStandardOffset(instant): the offset in force at the instant before daylight savings. */
  function GetStandardOffset(rules: Rules, instant: Instant): (r: Offset)
    ensures rules.Fixed? ==> r == rules.fixedOffset
  {
    match rules
    case Fixed(o) => o
    case Provided(_, _, standardOffsetOf) => standardOffsetOf(instant)
  }

  /**
   * getOffsetInfo(Instant): the info at the local date-time of the instant under the
   * offset in force at it. An instant is never in a gap of its own offset's rules when
   * those are fixed: the result is then that single offset.
   */
  function GetOffsetInfoAtInstant(rules: Rules, instant: Instant): (r: OffsetInfo)
    ensures r == GetOffsetInfo(rules, FromInstant(instant, GetOffset(rules, instant)).dateTime)
    ensures rules.Fixed? ==> r == Normal(instant + rules.fixedOffset, rules.fixedOffset)
  {
    var offset := GetOffset(rules, instant);
    var odt := FromInstant(instant, offset);
    GetOffsetInfo(rules, odt.dateTime)
  }

  /**
   * isFixedOffset(): true only for the rules of a single offset (the base class answers
   * false, the fixed rules true), and then the offset is the same at every instant.
   */
  function IsFixedOffset(rules: Rules): (r: bool)
    ensures r <==> rules.Fixed?
    ensures r ==> forall i: Instant, j: Instant :: GetOffset(rules, i) == GetOffset(rules, j)
  {
    match rules
    case Fixed(_) => true
    case Provided(_, _, _) => false
  }

  /**
   * Rules whose three queries agree with each other: the offset in force at an instant is
   * valid at the local date-time that instant has under it.
   */
  ghost predicate Coherent(rules: Rules)
  {
    forall i: Instant :: InfoIsValidOffset(GetOffsetInfo(rules, i + GetOffset(rules, i)), Some(GetOffset(rules, i)))
  }

  /** The rules of a single offset are coherent. */
  lemma FixedRulesCoherent(offset: Offset)
    ensures Coherent(Fixed(offset))
  {
  }

  /**
   * For coherent rules, the info at an instant is never a gap, and the offset in force at
   * the instant is one of its valid offsets.
   */
  lemma InstantNeverInGap(rules: Rules, instant: Instant)
    requires Coherent(rules)
    ensures !(InfoIsDiscontinuity(GetOffsetInfoAtInstant(rules, instant)) &&
              IsGap(InfoDiscontinuity(GetOffsetInfoAtInstant(rules, instant)).value))
    ensures InfoIsValidOffset(GetOffsetInfoAtInstant(rules, instant), Some(GetOffset(rules, instant)))
  {
  }

  /**
   * getDaylightSavings(instant): the amount of daylight savings in seconds, the actual
   * offset less the standard offset.
   */
  function GetDaylightSavings(rules: Rules, instant: Instant): (r: int)
    ensures GetStandardOffset(rules, instant) + r == GetOffset(rules, instant)
    ensures rules.Fixed? ==> r == 0
  {
    GetOffset(rules, instant) - GetStandardOffset(rules, instant)
  }

  /** isDaylightSavings(instant): whether the standard offset differs from the actual offset. */
  function IsDaylightSavings(rules: Rules, instant: Instant): (r: bool)
    ensures r <==> GetDaylightSavings(rules, instant) != 0
    ensures rules.Fixed? ==> !r
  {
    GetStandardOffset(rules, instant) != GetOffset(rules, instant)
  }

  /**
   * isValidDateTime(dateTime): whether the offset of the date-time is valid for its local
   * date-time: never in a gap; the single offset, or either side of an overlap.
   */
  function IsValidDateTime(rules: Rules, dateTime: OffsetDateTime): (r: bool)
    ensures r <==> InfoIsValidOffset(GetOffsetInfo(rules, dateTime.dateTime), Some(dateTime.offset))
    ensures GetOffsetInfo(rules, dateTime.dateTime).Normal? ==>
              (r <==> dateTime.offset == GetOffsetInfo(rules, dateTime.dateTime).offset)
    ensures GetOffsetInfo(rules, dateTime.dateTime).Discontinuity? ==>
              var t := GetOffsetInfo(rules, dateTime.dateTime).transition;
              r <==> !IsGap(t) && (dateTime.offset == t.offsetBefore || dateTime.offset == t.offsetAfter)
    ensures rules.Fixed? ==> (r <==> dateTime.offset == rules.fixedOffset)
  {
    var info := GetOffsetInfo(rules, dateTime.dateTime);
    InfoIsValidOffset(info, Some(dateTime.offset))
  }

  /**
   * For the rules of a single offset, every point is resolved to that offset alone: no
   * local date-time is in a gap or an overlap, and there is never daylight savings.
   */
  lemma FixedRulesNeverDiscontinuous(offset: Offset, instant: Instant, dateTime: LocalDateTime)
    ensures !InfoIsDiscontinuity(GetOffsetInfo(Fixed(offset), dateTime))
    ensures InfoEstimatedOffset(GetOffsetInfo(Fixed(offset), dateTime)) == offset
    ensures GetOffsetInfoAtInstant(Fixed(offset), instant).offset == GetOffset(Fixed(offset), instant)
    ensures !IsDaylightSavings(Fixed(offset), instant)
  {
  }
}
