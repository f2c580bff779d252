/**
 * `Tally` (src/tally.rs): a count and a noun, with the noun made plural by
 * an "s" unless the count is one.
 */
module Tallies {
  import opened Common

  /** `Display for Tally`: "{count} {noun}", then "s" when count != 1. */
  function Tally(noun: string, count: nat): (s: string)
    ensures |s| == |Decimal(count)| + 1 + |noun| + (if count == 1 then 0 else 1)
    ensures s[..|Decimal(count)|] == Decimal(count) && s[|Decimal(count)|] == ' '
    ensures s[|Decimal(count)| + 1..|Decimal(count)| + 1 + |noun|] == noun
    ensures count != 1 ==> s[|s| - 1] == 's'
  {
    Decimal(count) + " " + noun + (if count != 1 then "s" else "")
  }

  /** The count can be read back from the front of the text, so different counts give different texts. */
  lemma CountReadBack(noun: string, count: nat)
    ensures AllDigits(Tally(noun, count)[..|Decimal(count)|])
    ensures ParseDecimal(Tally(noun, count)[..|Decimal(count)|]) == count
  {
    ParseDecimalOfDecimal(count);
  }

  /** The plural "s" is there exactly when the count is not one. */
  lemma PluralExactly(noun: string, count: nat)
    ensures |Tally(noun, count)| == |Decimal(count)| + 1 + |noun| + 1 <==> count != 1
  {
  }

  /** One filter is singular. */
  lemma OneFilter()
    ensures Tally("filter", 1) == "1 filter"
  {
    assert Decimal(1) == "1";
  }

  /** Zero filters are plural. */
  lemma ZeroFilters()
    ensures Tally("filter", 0) == "0 filters"
  {
    assert Decimal(0) == "0";
  }
}
