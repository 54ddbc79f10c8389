/** The selected-countries list of app/routes/app._index.jsx: the codes a
    merchant shows the welcome popup in, in the order they were picked. */
module Countries {
  import opened Seqs

  /** The list before any saved one is loaded: `useState(['US'])`. */
  const DefaultCountries: seq<string> := ["US"]

  /** `handleCountryChange(value)`: a non-empty code not yet selected goes at
      the end; anything else leaves the list as it is. */
  function AddCountry(selected: seq<string>, value: string): (r: seq<string>)
    ensures value != "" && value !in selected ==> r == selected + [value]
    ensures value == "" || value in selected ==> r == selected
    ensures value != "" ==> value in r
    ensures NoDuplicates(selected) ==> NoDuplicates(r)
  {
    if value != "" && value !in selected then selected + [value] else selected
  }

  /** `removeCountry(countryCode)`: `filter(code => code !== countryCode)`. */
  function RemoveCountry(selected: seq<string>, countryCode: string): (r: seq<string>)
    ensures countryCode !in r
    ensures forall x :: x != countryCode ==> Count(r, x) == Count(selected, x)
    ensures NoDuplicates(selected) ==> NoDuplicates(r)
  {
    FilterCounts(selected, (code: string) => code != countryCode);
    FilterNoDuplicates(selected, (code: string) => code != countryCode);
    Filter(selected, (code: string) => code != countryCode)
  }

  /** Removal keeps the relative order of the remaining codes: removing from
      a concatenation removes from each part. */
  lemma RemoveKeepsOrder(a: seq<string>, b: seq<string>, countryCode: string)
    ensures RemoveCountry(a + b, countryCode) == RemoveCountry(a, countryCode) + RemoveCountry(b, countryCode)
  {
    FilterAppend(a, b, (code: string) => code != countryCode);
  }

  /** Removing a code that was just added gives back the list before it. */
  lemma {:induction false} RemoveUndoesAdd(selected: seq<string>, value: string)
    requires value != "" && value !in selected
    ensures RemoveCountry(AddCountry(selected, value), value) == selected
  {
    RemoveKeepsOrder(selected, [value], value);
    FilterAll(selected, (code: string) => code != value);
  }

  /** Picking the same code twice is the same as picking it once. */
  lemma AddIdempotent(selected: seq<string>, value: string)
    ensures AddCountry(AddCountry(selected, value), value) == AddCountry(selected, value)
  {
  }

  /** Removing twice is the same as removing once. */
  lemma {:induction false} RemoveIdempotent(selected: seq<string>, countryCode: string)
    ensures RemoveCountry(RemoveCountry(selected, countryCode), countryCode) == RemoveCountry(selected, countryCode)
  {
    FilterFilter(selected, (code: string) => code != countryCode, (code: string) => code != countryCode);
  }
}
