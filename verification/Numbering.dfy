/** Version numbers: the next one is one more than the greatest so far. */
module Numbering {

  /** COALESCE(MAX(version_no), 0) */
  ghost function MaxNumber(numbers: set<nat>): (max: nat)
    ensures forall n :: n in numbers ==> n <= max
    ensures if numbers == {} then max == 0 else max in numbers
    decreases |numbers|
  {
    if numbers == {} then 0
    else
      var n :| n in numbers;
      var others := numbers - {n};
      assert numbers == others + {n};
      var rest := MaxNumber(others);
      if n < rest then rest else n
  }
}
