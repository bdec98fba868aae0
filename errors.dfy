/** The exceptions thrown by the modelled operations. */
module Errors {

  datatype Error =
    /** IllegalCalendarFieldValueException: a field value outside [min, max]. */
    | IllegalFieldValue(field: string, value: int, min: int, max: int)
    /** NullPointerException raised by an explicit null check, with its message. */
    | NullArgument(message: string)
    /** CalendricalException wrapping a failure to parse the offset text of a fixed zone ID. */
    | InvalidOffsetID(text: string)
    /** CalendricalException: no rules group is registered under this ID. */
    | UnknownGroup(groupID: string)
    /** CalendricalException raised by a rules group that has no rules for a region and version. */
    | UnknownRules(groupID: string, regionID: string, versionID: string)
    /** CalendricalException: a fixed time zone is not provided by a group. */
    | FixedZoneHasNoGroup
    /** CalendricalException: a fixed zone asked for rules at a date-time with a different offset. */
    | OffsetMismatch(regionID: string, dateTime: int, offset: int)
}
