/** The two tests the list screens combine: a case-insensitive substring
    search and a select whose value 'all' matches everything. */
module Filters {
  import Text

  /** `text.toLowerCase().includes(term.toLowerCase())`. */
  predicate SearchMatches(text: string, term: string) {
    Text.Contains(Text.ToLower(text), Text.ToLower(term))
  }

  /** `filter === 'all' || value === filter`. */
  predicate Wildcard(filter: string, value: string) {
    filter == "all" || value == filter
  }

  /** The empty search matches everything, a text matches itself and its own
      upper-cased form, and a search is a substring test on lower-cased text. */
  lemma SearchMatchesSpec(text: string, term: string)
    ensures SearchMatches(text, "")
    ensures SearchMatches(text, text) && SearchMatches(text, Text.ToUpper(text))
    ensures SearchMatches(text, term) <==> exists i :: Text.OccursAt(Text.ToLower(text), Text.ToLower(term), i)
  {
    Text.ContainsSelf(Text.ToLower(text));
    Text.ToLowerAbsorbs(text);
    Text.ContainsIff(Text.ToLower(text), Text.ToLower(term));
  }
}
