/** The Limit picker of the two master pages: three options, read with
    `Number(limit)` into the rows per page. */
module MasterLimit {
  import Text

  /** The `<option>` values of the Limit `<select>`. */
  const LimitChoices: seq<string> := ["10", "25", "50"]

  /** The initial value of `limit`, and the one Clear restores. */
  const DefaultLimit: string := "10"

  /** `Number(limit)` for one of the options: a positive count whose
      decimal spelling is the option. */
  function RowsFor(limit: string): (n: nat)
    requires limit in LimitChoices
    ensures n > 0
    ensures Text.NatToString(n) == limit
  {
    Text.SmallNumerals();
    if limit == "10" then 10 else if limit == "25" then 25 else 50
  }

  lemma DefaultRows()
    ensures DefaultLimit in LimitChoices && RowsFor(DefaultLimit) == 10
  {
  }
}
