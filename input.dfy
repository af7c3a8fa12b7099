/** The numeric form fields: the browser hands over text, which the views parse and replace by
    a default when the parse yields nothing usable. A parse is `Some(n)` or `None` (NaN);
    prices are whole amounts here. */
module FormInput {
  import opened Wrappers

  /** `parseInt(value) || 1`: a count that fails to parse, or parses to 0, becomes 1. */
  function CountOrOne(parsed: Option<int>): (q: int)
    ensures q != 0
    ensures parsed.Some? && parsed.value != 0 ==> q == parsed.value
    ensures parsed.None? || parsed.value == 0 ==> q == 1
  {
    match parsed
    case Some(n) => if n == 0 then 1 else n
    case None => 1
  }

  /** `parseInt(value) || 0` and `parseFloat(value) || 0`: a number that fails to parse
      becomes 0. */
  function NumberOrZero(parsed: Option<int>): (p: int)
    ensures parsed.Some? ==> p == parsed.value
    ensures parsed.None? ==> p == 0
    ensures p == 0 <==> parsed.None? || parsed.value == 0
    ensures p != 0 ==> parsed == Some(p)
  {
    match parsed
    case Some(n) => n
    case None => 0
  }
}
