/** The data model the dashboard filters: the closed set of upstream sources
    and one listing or signal event observed from one of them. */
module Types {

  /** A value that may be absent (an optional field of a record). */
  datatype Option<+T> = None | Some(value: T)

  /** The three upstream providers, in declaration order. */
  datatype DataSource = CmcSignals | OurbitListings | MexcListings

  /** Every source, once each, in declaration order. */
  const AllSources: seq<DataSource> := [CmcSignals, OurbitListings, MexcListings]

  /** The string value each enum member carries. */
  function SourceName(s: DataSource): (name: string)
    ensures |name| > 0
    ensures forall i :: 0 <= i < |name| ==> 'A' <= name[i] <= 'Z' || name[i] == '_'
  {
    match s
    case CmcSignals => "CMC_SIGNALS"
    case OurbitListings => "OURBIT_LISTINGS"
    case MexcListings => "MEXC_LISTINGS"
  }

  /** The source set is closed: exactly three distinct values, each listed once. */
  lemma SourcesAreClosed(s: DataSource)
    ensures |AllSources| == 3
    ensures s in AllSources
    ensures forall i, j :: 0 <= i < j < |AllSources| ==> AllSources[i] != AllSources[j]
  {
  }

  /** Distinct sources carry distinct string values. */
  lemma SourceNameInjective(a: DataSource, b: DataSource)
    ensures SourceName(a) == SourceName(b) <==> a == b
  {
  }

  /** One observed event. `id`, `source`, `title`, `symbol`, `timestamp` and
      `url` are always present; the classifier (`type` in the record) and the
      raw text may be absent. Exactly one source per entry. */
  datatype ListingEntry = ListingEntry(
    id: string,
    source: DataSource,
    title: string,
    symbol: string,
    timestamp: string,
    url: string,
    kind: Option<string>,
    rawText: Option<string>
  )
}
