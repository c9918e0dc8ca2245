/** The dashboard's derived views: the three per-source tables narrowed by
    the search box, and the record counts of the status panel. Both are
    pure functions of the entry list and the filter text. */
module App {
  import opened Types
  import opened Text
  import opened Subsequences

  /** The search box matches an entry when its symbol or its title contains
      the filter text, ignoring case. */
  predicate MatchesFilter(e: ListingEntry, filter: string)
    ensures MatchesFilter(e, filter)
        <==> Occurs(Lower(e.symbol), Lower(filter)) || Occurs(Lower(e.title), Lower(filter))
    ensures filter == [] ==> MatchesFilter(e, filter)
  {
    Contains(Lower(e.symbol), Lower(filter)) || Contains(Lower(e.title), Lower(filter))
  }

  /** The predicate each of the three tables filters with. */
  predicate Keeps(e: ListingEntry, filter: string, src: DataSource)
    ensures Keeps(e, filter, src) ==> e.source == src
    ensures filter == [] ==> (Keeps(e, filter, src) <==> e.source == src)
  {
    e.source == src && MatchesFilter(e, filter)
  }

  /** The entries of one source that match the filter, in input order. */
  function Partition(entries: seq<ListingEntry>, filter: string, src: DataSource): (r: seq<ListingEntry>)
    ensures |r| <= |entries|
    ensures forall e :: e in r <==> e in entries && Keeps(e, filter, src)
  {
    if entries == [] then
      []
    else
      var head := if Keeps(entries[0], filter, src) then [entries[0]] else [];
      head + Partition(entries[1..], filter, src)
  }

  /** The entries of one source, with no text filter (the status panel). */
  function BySource(entries: seq<ListingEntry>, src: DataSource): (r: seq<ListingEntry>)
    ensures |r| <= |entries|
    ensures forall e :: e in r <==> e in entries && e.source == src
  {
    if entries == [] then
      []
    else
      var head := if entries[0].source == src then [entries[0]] else [];
      head + BySource(entries[1..], src)
  }

  /** The number of records of one source. */
  function SourceCount(entries: seq<ListingEntry>, src: DataSource): (n: nat)
    ensures n <= |entries|
    ensures n > 0 <==> exists e :: e in entries && e.source == src
  {
    var r := BySource(entries, src);
    assert |r| > 0 ==> r[0] in r;
    |r|
  }

  /** The filter keeps the input order and never adds or alters an entry. */
  lemma {:induction false} PartitionIsSubsequence(entries: seq<ListingEntry>, filter: string, src: DataSource)
    ensures IsSubsequence(Partition(entries, filter, src), entries)
  {
    if entries != [] {
      var r, rest := Partition(entries, filter, src), Partition(entries[1..], filter, src);
      PartitionIsSubsequence(entries[1..], filter, src);
      if Keeps(entries[0], filter, src) {
        assert r[0] == entries[0] && r[1..] == rest;
      } else {
        assert r == rest;
      }
    }
  }

  /** `r` holds every copy of each entry of `entries` that `Keeps` accepts,
      and nothing else. */
  ghost predicate KeepsAllCopies(r: seq<ListingEntry>, entries: seq<ListingEntry>, filter: string, src: DataSource) {
    forall e :: multiset(r)[e] == if Keeps(e, filter, src) then multiset(entries)[e] else 0
  }

  /** Every kept entry appears as often as in the input; every other entry
      not at all. */
  lemma {:induction false} PartitionMultiplicity(entries: seq<ListingEntry>, filter: string, src: DataSource)
    ensures KeepsAllCopies(Partition(entries, filter, src), entries, filter, src)
  {
    if entries != [] {
      var x, rest := entries[0], entries[1..];
      PartitionMultiplicity(rest, filter, src);
      var r, restR := Partition(entries, filter, src), Partition(rest, filter, src);
      assert entries == [x] + rest;
      assert multiset(entries) == multiset{x} + multiset(rest);
      if Keeps(x, filter, src) {
        assert r == [x] + restR;
        assert multiset(r) == multiset{x} + multiset(restR);
      } else {
        assert r == restR;
      }
    }
  }

  /** With an empty filter a table holds exactly the entries of its source. */
  lemma {:induction false} EmptyFilterIsBySource(entries: seq<ListingEntry>, src: DataSource)
    ensures Partition(entries, "", src) == BySource(entries, src)
  {
    if entries != [] {
      ContainsEmpty(Lower(entries[0].symbol));
      EmptyFilterIsBySource(entries[1..], src);
    }
  }

  /** The result depends on the filter only through its lower-case form. */
  lemma {:induction false} CaseInsensitive(entries: seq<ListingEntry>, f: string, g: string, src: DataSource)
    requires Lower(f) == Lower(g)
    ensures Partition(entries, f, src) == Partition(entries, g, src)
  {
    if entries != [] {
      CaseInsensitive(entries[1..], f, g, src);
    }
  }

  /** Typing a filter in upper case gives the same table as in lower case. */
  lemma LowerFilterSameResult(entries: seq<ListingEntry>, f: string, src: DataSource)
    ensures Partition(entries, Lower(f), src) == Partition(entries, f, src)
  {
    LowerIdempotent(f);
    CaseInsensitive(entries, Lower(f), f, src);
  }

  /** Extending the filter text can only narrow a table: when lower-case `f`
      occurs in lower-case `g`, the result for `g` is a subsequence of the
      result for `f`. Only transitivity of containment on the lower-cased
      strings is used, whatever the case folding is. */
  lemma {:induction false} FilterMonotone(entries: seq<ListingEntry>, f: string, g: string, src: DataSource)
    requires Contains(Lower(g), Lower(f))
    ensures IsSubsequence(Partition(entries, g, src), Partition(entries, f, src))
  {
    if entries != [] {
      var e := entries[0];
      if Keeps(e, g, src) {
        if Contains(Lower(e.symbol), Lower(g)) {
          ContainsTransitive(Lower(e.symbol), Lower(g), Lower(f));
        } else {
          ContainsTransitive(Lower(e.title), Lower(g), Lower(f));
        }
      }
      FilterMonotone(entries[1..], f, g, src);
      var rg, rf := Partition(entries, g, src), Partition(entries, f, src);
      var restG, restF := Partition(entries[1..], g, src), Partition(entries[1..], f, src);
      if Keeps(e, g, src) {
        assert rg[0] == e && rg[1..] == restG;
        assert rf[0] == e && rf[1..] == restF;
      } else if Keeps(e, f, src) {
        assert rg == restG && rf[1..] == restF;
      } else {
        assert rg == restG && rf == restF;
      }
    }
  }

  /** The case-sensitive form: when `f` itself occurs in `g`, the table for
      `g` is a subsequence of the table for `f`. */
  lemma FilterMonotoneExact(entries: seq<ListingEntry>, f: string, g: string, src: DataSource)
    requires Contains(g, f)
    ensures IsSubsequence(Partition(entries, g, src), Partition(entries, f, src))
  {
    ContainsLower(g, f);
    FilterMonotone(entries, f, g, src);
  }

  /** A filter differing from another only in case and in surrounding text
      narrows it too: the table for "xbtc" lies within the table for "BTC". */
  lemma FilterMonotoneExample(entries: seq<ListingEntry>, src: DataSource)
    ensures IsSubsequence(Partition(entries, "xbtc", src), Partition(entries, "BTC", src))
  {
    assert Lower("BTC") == "btc";
    assert Lower("xbtc") == "xbtc";
    assert OccursAt("xbtc", "btc", 1);
    FilterMonotone(entries, "BTC", "xbtc", src);
  }

  /** Any filtered table is a subsequence of its source's entries, so it
      holds no copy the source's list lacks and is never longer than the
      source's count. */
  lemma FilteredWithinSource(entries: seq<ListingEntry>, filter: string, src: DataSource)
    ensures IsSubsequence(Partition(entries, filter, src), BySource(entries, src))
    ensures multiset(Partition(entries, filter, src)) <= multiset(BySource(entries, src))
    ensures |Partition(entries, filter, src)| <= SourceCount(entries, src)
  {
    ContainsEmpty(Lower(filter));
    assert Lower("") == "";
    FilterMonotone(entries, "", filter, src);
    EmptyFilterIsBySource(entries, src);
    SubsequenceLength(Partition(entries, filter, src), BySource(entries, src));
    SubsequenceMultiset(Partition(entries, filter, src), BySource(entries, src));
  }

  /** The entries of the three sources together are the whole input, each
      occurrence in exactly one of them. */
  lemma {:induction false} SourcesPartitionEntries(entries: seq<ListingEntry>)
    ensures multiset(BySource(entries, CmcSignals)) + multiset(BySource(entries, MexcListings))
          + multiset(BySource(entries, OurbitListings)) == multiset(entries)
  {
    if entries != [] {
      var e, rest := entries[0], entries[1..];
      SourcesPartitionEntries(rest);
      var c, m, o := BySource(rest, CmcSignals), BySource(rest, MexcListings), BySource(rest, OurbitListings);
      assert entries == [e] + rest;
      assert multiset(entries) == multiset{e} + multiset(rest);
      match e.source
      case CmcSignals =>
        assert BySource(entries, CmcSignals) == [e] + c;
        assert BySource(entries, MexcListings) == m;
        assert BySource(entries, OurbitListings) == o;
      case MexcListings =>
        assert BySource(entries, CmcSignals) == c;
        assert BySource(entries, MexcListings) == [e] + m;
        assert BySource(entries, OurbitListings) == o;
      case OurbitListings =>
        assert BySource(entries, CmcSignals) == c;
        assert BySource(entries, MexcListings) == m;
        assert BySource(entries, OurbitListings) == [e] + o;
    }
  }

  /** The per-source counts add up to the global record count. */
  lemma SourceCountsSum(entries: seq<ListingEntry>)
    ensures SourceCount(entries, CmcSignals) + SourceCount(entries, MexcListings)
          + SourceCount(entries, OurbitListings) == |entries|
  {
    SourcesPartitionEntries(entries);
    assert |multiset(entries)| == |entries|;
  }

  /** With an empty filter, an entry is in the table of its own source and
      in no other. */
  lemma EmptyFilterExactlyOne(entries: seq<ListingEntry>, e: ListingEntry, src: DataSource)
    requires e in entries
    ensures e in Partition(entries, "", src) <==> src == e.source
  {
    ContainsEmpty(Lower(e.symbol));
  }

  /** With an empty filter the three tables together have as many rows as
      the input. */
  lemma {:induction false} EmptyFilterCoversEntries(entries: seq<ListingEntry>)
    ensures |Partition(entries, "", CmcSignals)| + |Partition(entries, "", MexcListings)|
          + |Partition(entries, "", OurbitListings)| == |entries|
  {
    EmptyFilterIsBySource(entries, CmcSignals);
    EmptyFilterIsBySource(entries, MexcListings);
    EmptyFilterIsBySource(entries, OurbitListings);
    SourceCountsSum(entries);
  }

  /** The three tables shown under the search box. */
  datatype Tables = Tables(cmcData: seq<ListingEntry>, mexcData: seq<ListingEntry>, ourbitData: seq<ListingEntry>)

  /** The figures of the status panel. */
  datatype StatusPanel = StatusPanel(globalRecords: nat, cmcSignals: nat, mexcListings: nat, ourbitListings: nat)

  /** The three tables, each filtered with the same search text. */
  function SourceTables(allData: seq<ListingEntry>, filter: string): (t: Tables)
    ensures IsSubsequence(t.cmcData, allData)
    ensures IsSubsequence(t.mexcData, allData)
    ensures IsSubsequence(t.ourbitData, allData)
    ensures KeepsAllCopies(t.cmcData, allData, filter, CmcSignals)
    ensures KeepsAllCopies(t.mexcData, allData, filter, MexcListings)
    ensures KeepsAllCopies(t.ourbitData, allData, filter, OurbitListings)
    ensures |t.cmcData| <= SourceCount(allData, CmcSignals)
    ensures |t.mexcData| <= SourceCount(allData, MexcListings)
    ensures |t.ourbitData| <= SourceCount(allData, OurbitListings)
    ensures filter == [] ==> |t.cmcData| + |t.mexcData| + |t.ourbitData| == |allData|
  {
    PartitionIsSubsequence(allData, filter, CmcSignals);
    PartitionIsSubsequence(allData, filter, MexcListings);
    PartitionIsSubsequence(allData, filter, OurbitListings);
    PartitionMultiplicity(allData, filter, CmcSignals);
    PartitionMultiplicity(allData, filter, MexcListings);
    PartitionMultiplicity(allData, filter, OurbitListings);
    FilteredWithinSource(allData, filter, CmcSignals);
    FilteredWithinSource(allData, filter, MexcListings);
    FilteredWithinSource(allData, filter, OurbitListings);
    EmptyFilterCoversEntries(allData);
    Tables(
      Partition(allData, filter, CmcSignals),
      Partition(allData, filter, MexcListings),
      Partition(allData, filter, OurbitListings))
  }

  /** The status panel: the global count and one count per source. */
  function DatabaseStatus(allData: seq<ListingEntry>): (p: StatusPanel)
    ensures p.globalRecords == |allData|
    ensures p.cmcSignals == SourceCount(allData, CmcSignals)
    ensures p.mexcListings == SourceCount(allData, MexcListings)
    ensures p.ourbitListings == SourceCount(allData, OurbitListings)
    ensures p.cmcSignals + p.mexcListings + p.ourbitListings == p.globalRecords
    ensures p.cmcSignals > 0 <==> exists e :: e in allData && e.source == CmcSignals
    ensures p.mexcListings > 0 <==> exists e :: e in allData && e.source == MexcListings
    ensures p.ourbitListings > 0 <==> exists e :: e in allData && e.source == OurbitListings
  {
    SourceCountsSum(allData);
    StatusPanel(
      |allData|,
      SourceCount(allData, CmcSignals),
      SourceCount(allData, MexcListings),
      SourceCount(allData, OurbitListings))
  }

  /** One CMC entry for BTC and one MEXC entry for ETH: searching the CMC
      table for "btc" finds the BTC entry and nothing else. */
  lemma SearchExample()
    ensures
      var btc := ListingEntry("1", CmcSignals, "BTC Signal", "BTC", "2024-01-01T00:00:00Z", "", None, None);
      var eth := ListingEntry("2", MexcListings, "ETH Listing", "ETH", "2024-01-01T00:00:00Z", "", None, None);
      Partition([btc, eth], "btc", CmcSignals) == [btc]
  {
    var btc := ListingEntry("1", CmcSignals, "BTC Signal", "BTC", "2024-01-01T00:00:00Z", "", None, None);
    var eth := ListingEntry("2", MexcListings, "ETH Listing", "ETH", "2024-01-01T00:00:00Z", "", None, None);
    assert Lower("btc") == "btc";
    assert Lower("BTC") == "btc";
    assert Contains(Lower(btc.symbol), Lower("btc"));
    assert [btc, eth][1..] == [eth];
  }
}
