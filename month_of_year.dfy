/**
 * The month-of-year of the ISO-8601 calendar, numbered 1 (January) to 12 (December),
 * with cyclic navigation, month lengths and the quarter a month falls in.
 */
module Months {
  import opened Wrappers
  import opened Errors

  /** The twelve months, in declaration (ordinal) order. */
  datatype MonthOfYear =
    | JANUARY | FEBRUARY | MARCH | APRIL | MAY | JUNE
    | JULY | AUGUST | SEPTEMBER | OCTOBER | NOVEMBER | DECEMBER

  /** The four quarters of the year, valued 1 to 4. */
  datatype QuarterOfYear = Q1 | Q2 | Q3 | Q4

  /** The name of the field reported when a month-of-year value is out of range. */
  const MonthOfYearField := "MonthOfYear"

  /** The position of a month in declaration order, as Java's ordinal(). */
  function Ordinal(m: MonthOfYear): (r: nat)
    ensures r < 12
  {
    match m
    case JANUARY => 0
    case FEBRUARY => 1
    case MARCH => 2
    case APRIL => 3
    case MAY => 4
    case JUNE => 5
    case JULY => 6
    case AUGUST => 7
    case SEPTEMBER => 8
    case OCTOBER => 9
    case NOVEMBER => 10
    case DECEMBER => 11
  }

  /** values(): the months in declaration order. */
  const Values: seq<MonthOfYear> :=
    [JANUARY, FEBRUARY, MARCH, APRIL, MAY, JUNE, JULY, AUGUST, SEPTEMBER, OCTOBER, NOVEMBER, DECEMBER]

  /** values()[k]: the month at position k; k is an index into the 12-element array. */
  function FromOrdinal(k: int): (m: MonthOfYear)
    requires 0 <= k < 12
    ensures Ordinal(m) == k
  {
    Values[k]
  }

  /** Two months with the same ordinal are the same month. */
  lemma OrdinalInjective(a: MonthOfYear, b: MonthOfYear)
    requires Ordinal(a) == Ordinal(b)
    ensures a == b
  {
  }

  /** Java's `a % 12` on int, which truncates toward zero (the remainder takes the sign of a). */
  function JavaRem12(a: int): (r: int)
    ensures -12 < r < 12
    ensures a >= 0 ==> r >= 0
    ensures a < 0 ==> r <= 0
    ensures (a - r) % 12 == 0
  {
    if a >= 0 then a % 12 else -((-a) % 12)
  }

  /** monthOfYear(int): the month with the given ISO value, or an error outside 1..12. */
  function Of(n: int): (r: Result<MonthOfYear, Error>)
    ensures r.Success? <==> 1 <= n <= 12
    ensures r.Success? ==> GetValue(r.value) == n
    ensures r.Failure? ==> r.error == IllegalFieldValue(MonthOfYearField, n, 1, 12)
  {
    match n
    case 1 => Success(JANUARY)
    case 2 => Success(FEBRUARY)
    case 3 => Success(MARCH)
    case 4 => Success(APRIL)
    case 5 => Success(MAY)
    case 6 => Success(JUNE)
    case 7 => Success(JULY)
    case 8 => Success(AUGUST)
    case 9 => Success(SEPTEMBER)
    case 10 => Success(OCTOBER)
    case 11 => Success(NOVEMBER)
    case 12 => Success(DECEMBER)
    case _ => Failure(IllegalFieldValue(MonthOfYearField, n, 1, 12))
  }

  /** getValue(): the ISO value of the month, 1 (January) to 12 (December). */
  function GetValue(m: MonthOfYear): (r: int)
    ensures 1 <= r <= 12
  {
    Ordinal(m) + 1
  }

  /** Every month is recovered from its value. */
  lemma {:induction false} OfGetValue(m: MonthOfYear)
    ensures Of(GetValue(m)) == Success(m)
  {
    var r := Of(GetValue(m));
    assert r.Success? && GetValue(r.value) == GetValue(m);
    OrdinalInjective(r.value, m);
  }

  /** next(): the following month, wrapping from December to January. */
  function Next(m: MonthOfYear): (r: MonthOfYear)
    ensures GetValue(r) == GetValue(m) % 12 + 1
  {
    FromOrdinal((Ordinal(m) + 1) % 12)
  }

  /** previous(): the preceding month, wrapping from January to December. */
  function Previous(m: MonthOfYear): (r: MonthOfYear)
    ensures GetValue(r) == (GetValue(m) + 10) % 12 + 1
  {
    FromOrdinal((Ordinal(m) + 12 - 1) % 12)
  }

  /** The array index that roll computes lies in 0..11 and is the Euclidean residue of ordinal + months. */
  lemma RollIndex(ordinal: int, months: int)
    requires 0 <= ordinal < 12
    ensures 0 <= ordinal + (JavaRem12(months) + 12)
    ensures (ordinal + (JavaRem12(months) + 12)) % 12 == (ordinal + months) % 12
  {
    var r := JavaRem12(months);
    var q := (months - r) / 12;
    assert months == r + 12 * q;
    ModShift(ordinal + r + 12, q - 1);
    assert ordinal + r + 12 + 12 * (q - 1) == ordinal + months;
  }

  /** Adding a multiple of 12 does not change the residue modulo 12. */
  lemma ModShift(x: int, q: int)
    ensures (x + 12 * q) % 12 == x % 12
  {
    var k := x / 12;
    var s := x % 12;
    assert x == 12 * k + s && 0 <= s < 12;
    assert x + 12 * q == 12 * (k + q) + s;
  }

  /** roll(months): the month reached by adding months, positive or negative, around the year. */
  function Roll(m: MonthOfYear, months: int): (r: MonthOfYear)
    ensures GetValue(r) == (GetValue(m) - 1 + months) % 12 + 1
  {
    RollIndex(Ordinal(m), months);
    FromOrdinal((Ordinal(m) + (JavaRem12(months) + 12)) % 12)
  }

  /** Two months with the same value are the same month. */
  lemma ValueInjective(a: MonthOfYear, b: MonthOfYear)
    requires GetValue(a) == GetValue(b)
    ensures a == b
  {
    OrdinalInjective(a, b);
  }

  /** Residues modulo 12 ignore an inner reduction: ((x % 12) + y) % 12 == (x + y) % 12. */
  lemma ModAdd(x: int, y: int)
    ensures ((x % 12) + y) % 12 == (x + y) % 12
  {
    ModShift((x % 12) + y, x / 12);
    assert (x % 12) + y + 12 * (x / 12) == x + y;
  }

  /** A value 1..12 is its own residue once shifted down to 0..11. */
  lemma ValueResidue(v: int)
    requires 1 <= v <= 12
    ensures (v - 1) % 12 + 1 == v
  {
  }

  /** next and previous undo each other. */
  lemma NextPrevious(m: MonthOfYear)
    ensures Previous(Next(m)) == m
    ensures Next(Previous(m)) == m
  {
    var v := GetValue(m);
    CyclicValues(v);
    ValueInjective(Previous(Next(m)), m);
    ValueInjective(Next(Previous(m)), m);
  }

  /** The value arithmetic behind next and previous undoing each other. */
  lemma CyclicValues(v: int)
    requires 1 <= v <= 12
    ensures ((v % 12 + 1) + 10) % 12 + 1 == v
    ensures ((v + 10) % 12 + 1) % 12 + 1 == v
  {
  }

  /** The year wraps around: December is followed by January, January preceded by December. */
  lemma WrapAround()
    ensures Next(DECEMBER) == JANUARY && Previous(JANUARY) == DECEMBER
  {
    var d := GetValue(DECEMBER);
    var j := GetValue(JANUARY);
    assert d == 12 && j == 1;
    assert GetValue(Next(DECEMBER)) == 1;
    ValueInjective(Next(DECEMBER), JANUARY);
    assert GetValue(Previous(JANUARY)) == 12;
    ValueInjective(Previous(JANUARY), DECEMBER);
  }

  /** Rolling by 0 is the identity, by 1 is next and by -1 is previous. */
  lemma RollSpecialCases(m: MonthOfYear)
    ensures Roll(m, 0) == m
    ensures Roll(m, 1) == Next(m)
    ensures Roll(m, -1) == Previous(m)
  {
    var v := GetValue(m);
    ValueResidue(v);
    ValueInjective(Roll(m, 0), m);
    ValueInjective(Roll(m, 1), Next(m));
    ModShift(v - 2, 1);
    ValueInjective(Roll(m, -1), Previous(m));
  }

  /** Rolling twice is rolling by the sum; in particular rolling by 12 is the identity. */
  lemma RollCompose(m: MonthOfYear, a: int, b: int)
    ensures Roll(Roll(m, a), b) == Roll(m, a + b)
    ensures Roll(m, 12) == m
  {
    var v := GetValue(m);
    ModAdd(v - 1 + a, b);
    ValueInjective(Roll(Roll(m, a), b), Roll(m, a + b));
    ModShift(v - 1, 1);
    ValueResidue(v);
    ValueInjective(Roll(m, 12), m);
  }

  /** lengthInDays(boolean): the number of days of the month in a leap or a common year. */
  function LengthInDays(m: MonthOfYear, leapYear: bool): (r: int)
    ensures 28 <= r <= 31
  {
    match m
    case FEBRUARY => if leapYear then 29 else 28
    case APRIL | JUNE | SEPTEMBER | NOVEMBER => 30
    case _ => 31
  }

  /**
   * lengthInDays(Year): the same length for the leap flag of a year; the Year reference
   * is represented by that flag alone, and None stands for null.
   */
  function LengthInDaysOfYear(m: MonthOfYear, yearIsLeap: Option<bool>): (r: Result<int, Error>)
    ensures yearIsLeap.None? ==> r == Failure(NullArgument("The year must not be null"))
    ensures yearIsLeap.Some? ==> r == Success(LengthInDays(m, yearIsLeap.value))
  {
    if yearIsLeap.None? then Failure(NullArgument("The year must not be null"))
    else
      match m
      case FEBRUARY => Success(if yearIsLeap.value then 29 else 28)
      case APRIL | JUNE | SEPTEMBER | NOVEMBER => Success(30)
      case _ => Success(31)
  }

  /** minLengthInDays(): the shorter of the month's two possible lengths. */
  function MinLengthInDays(m: MonthOfYear): (r: int)
    ensures r == LengthInDays(m, false)
    ensures forall leap: bool :: r <= LengthInDays(m, leap)
  {
    match m
    case FEBRUARY => 28
    case APRIL | JUNE | SEPTEMBER | NOVEMBER => 30
    case _ => 31
  }

  /** maxLengthInDays(): the longer of the month's two possible lengths. */
  function MaxLengthInDays(m: MonthOfYear): (r: int)
    ensures r == LengthInDays(m, true)
    ensures forall leap: bool :: LengthInDays(m, leap) <= r
  {
    match m
    case FEBRUARY => 29
    case APRIL | JUNE | SEPTEMBER | NOVEMBER => 30
    case _ => 31
  }

  /** The leap flag changes the length of February only, from 28 to 29 days. */
  lemma LeapChangesOnlyFebruary(m: MonthOfYear)
    ensures LengthInDays(m, true) != LengthInDays(m, false) <==> m == FEBRUARY
    ensures LengthInDays(FEBRUARY, false) == 28 && LengthInDays(FEBRUARY, true) == 29
    ensures MinLengthInDays(m) <= LengthInDays(m, false) <= LengthInDays(m, true) <= MaxLengthInDays(m)
  {
  }

  /** getLastDayOfMonth(boolean): the last day-of-month, which is the month's length. */
  function GetLastDayOfMonth(m: MonthOfYear, leapYear: bool): (r: int)
    ensures 28 <= r <= 31
    ensures r == LengthInDays(m, leapYear)
  {
    LengthInDays(m, leapYear)
  }

  /** The value of a quarter, 1 to 4. */
  function QuarterValue(q: QuarterOfYear): (r: int)
    ensures 1 <= r <= 4
  {
    match q
    case Q1 => 1
    case Q2 => 2
    case Q3 => 3
    case Q4 => 4
  }

  /** getQuarterOfYear(): the quarter holding the month, three months to a quarter. */
  function GetQuarterOfYear(m: MonthOfYear): (q: QuarterOfYear)
    ensures QuarterValue(q) == (GetValue(m) - 1) / 3 + 1
  {
    if Ordinal(m) < 3 then Q1
    else if Ordinal(m) < 6 then Q2
    else if Ordinal(m) < 9 then Q3
    else Q4
  }

  /** getMonthOfQuarter(): the position of the month within its quarter, 1 to 3. */
  function GetMonthOfQuarter(m: MonthOfYear): (r: int)
    ensures 1 <= r <= 3
  {
    (Ordinal(m) % 3) + 1
  }

  /** The quarter and the month-of-quarter together give back the month's value. */
  lemma QuarterDecomposition(m: MonthOfYear)
    ensures 3 * (QuarterValue(GetQuarterOfYear(m)) - 1) + GetMonthOfQuarter(m) == GetValue(m)
  {
  }
}
