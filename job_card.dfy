/**
  The salary line of a job card. The number formatting
  (`toLocaleString`) is a parameter: the label is built around whatever
  text it returns.
 */
module JobCard {
  import opened Wrappers
  import opened Records

  const NoSalaryLabel := "Salary not specified"

  /** `formatSalary(min, max)`; a bound of 0, null or NaN is falsy, like a missing one. */
  function FormatSalary(min: Option<int>, max: Option<int>, fmt: int -> string): (text: string)
    ensures !IsSet(min) && !IsSet(max) ==> text == NoSalaryLabel
    ensures IsSet(min) && !IsSet(max) ==> text == "$" + fmt(min.value) + "+"
    ensures !IsSet(min) && IsSet(max) ==> text == "Up to $" + fmt(max.value)
    ensures IsSet(min) && IsSet(max) ==> text == "$" + fmt(min.value) + " - $" + fmt(max.value)
  {
    if !IsSet(min) && !IsSet(max) then NoSalaryLabel
    else if !IsSet(max) then "$" + fmt(min.value) + "+"
    else if !IsSet(min) then "Up to $" + fmt(max.value)
    else "$" + fmt(min.value) + " - $" + fmt(max.value)
  }

  /** A bound of 0 gives the same label as a missing bound, on either side. */
  lemma ZeroIsMissing(min: Option<int>, max: Option<int>, fmt: int -> string)
    ensures FormatSalary(Some(0), max, fmt) == FormatSalary(None, max, fmt)
    ensures FormatSalary(min, Some(0), fmt) == FormatSalary(min, None, fmt)
  {
  }

  /**
    The "not specified" label appears exactly when neither bound is set: every
    other label starts with "$" or "Up to $", whatever the formatter returns.
   */
  lemma NotSpecifiedExactly(min: Option<int>, max: Option<int>, fmt: int -> string)
    ensures FormatSalary(min, max, fmt) == NoSalaryLabel <==> !IsSet(min) && !IsSet(max)
  {
    var text := FormatSalary(min, max, fmt);
    if IsSet(min) || IsSet(max) {
      assert text[0] == '$' || text[0] == 'U';
      assert NoSalaryLabel[0] == 'S';
    }
  }
}
