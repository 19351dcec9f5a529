/** The run as a whole: every symbol is fetched and summarised, the results
    arrive in whatever order the workers finish, and the document (metadata,
    sector list, flat list) is built from them unless no result has a
    percentage change, which ends the run. */
module Heatmap {
  import opened Wrappers
  import opened Series
  import opened Summary
  import opened Aggregate

  const DataSource: string := "CAFEEF_HISTORY"
  const Notes: string := "Blocks are uniform size; color = % change"
  const NoDataMessage: string := "No valid items to plot (no data)"

  /** The `meta` object; the timestamp is supplied by the caller. */
  datatype Meta = Meta(dataSource: string, range: string, generatedAt: string, notes: string)

  /** The JSON document written next to the heatmap. */
  datatype Document = Document(meta: Meta, sectors: seq<SectorReport>, flat: seq<FlatEntry>)

  /** `build_tv_json_and_heatmap` up to the file writes: the document, or the
      fatal message when the flat list is empty. */
  function BuildDocument(items: seq<SymbolResult>, sectorMap: SectorMap, caps: CapMap,
                         range: string, generatedAt: string): (r: Result<Document, string>)
    ensures r.Failure? <==> forall i :: 0 <= i < |items| ==> items[i].changePct.None?
    ensures r.Failure? ==> r.error == NoDataMessage
    ensures r.Success? ==> r.value.meta == Meta(DataSource, range, generatedAt, Notes)
    ensures r.Success? ==> r.value.flat != [] && r.value.flat == Flatten(items, sectorMap, caps)
    ensures r.Success? ==> IsRollUp(r.value.flat, r.value.sectors)
  {
    var flat := Flatten(items, sectorMap, caps);
    FlattenEmpty(items, sectorMap, caps);
    RollUpSpec(flat);
    if flat == [] then Failure(NoDataMessage)
    else Success(Document(Meta(DataSource, range, generatedAt, Notes), RollUp(flat), flat))
  }

  /** The per-symbol results in symbol order, given each symbol's fetch
      outcome (the payload or the request's error message). */
  function ProcessAll(symbols: seq<string>, fetched: seq<Result<Frame, string>>): (results: seq<SymbolResult>)
    requires |fetched| == |symbols|
    ensures |results| == |symbols|
    ensures forall i :: 0 <= i < |results| ==> results[i].symbol == symbols[i] && WellFormed(results[i])
    ensures forall i :: 0 <= i < |results| ==>
      (results[i].error.Some? <==> fetched[i].Failure? || !fetched[i].value.hasDate)
    ensures forall i :: 0 <= i < |results| ==> results[i] == ProcessSymbol(symbols[i], fetched[i])
  {
    seq(|symbols|, i requires 0 <= i < |symbols| => ProcessSymbol(symbols[i], fetched[i]))
  }

  /** A run over the results in arrival order: any order of the per-symbol
      results. */
  ghost predicate IsArrivalOrder(symbols: seq<string>, fetched: seq<Result<Frame, string>>, results: seq<SymbolResult>)
    requires |fetched| == |symbols|
  {
    multiset(results) == multiset(ProcessAll(symbols, fetched))
  }

  /** Only results without an error can reach the flat list, and each entry
      comes from a result with at least one row. */
  lemma FlatEntriesHaveData(items: seq<SymbolResult>, sectorMap: SectorMap, caps: CapMap, k: nat)
    requires forall i :: 0 <= i < |items| ==> WellFormed(items[i])
    requires k < |Flatten(items, sectorMap, caps)|
    ensures Flatten(items, sectorMap, caps)[k].nPoints >= 1
    ensures Flatten(items, sectorMap, caps)[k].price.Some? && Flatten(items, sectorMap, caps)[k].change.Some?
    ensures exists i :: 0 <= i < |items| && items[i].error.None? && items[i].symbol == Flatten(items, sectorMap, caps)[k].symbol
  {
    var flat := Flatten(items, sectorMap, caps);
    assert BuiltFrom(items, sectorMap, caps, flat[k]);
    var i :| 0 <= i < |items| && items[i].changePct.Some? && MakeEntry(items[i], sectorMap, caps) == flat[k];
    assert WellFormed(items[i]);
  }

  /** When every request fails, or the symbol list is empty, the run aborts. */
  lemma AllFailuresFatal(symbols: seq<string>, fetched: seq<Result<Frame, string>>, results: seq<SymbolResult>,
                         sectorMap: SectorMap, caps: CapMap, range: string, generatedAt: string)
    requires |fetched| == |symbols|
    requires IsArrivalOrder(symbols, fetched, results)
    requires forall i :: 0 <= i < |fetched| ==> fetched[i].Failure?
    ensures BuildDocument(results, sectorMap, caps, range, generatedAt) == Failure(NoDataMessage)
  {
    var all := ProcessAll(symbols, fetched);
    forall i | 0 <= i < |results|
      ensures results[i].changePct.None?
    {
      assert results[i] in multiset(all);
      var j :| 0 <= j < |all| && all[j] == results[i];
      assert all[j].error.Some?;
    }
  }

  /** Two sector lists agree up to order: every sector of each has a sector of
      the same name, members (with multiplicity) and market cap in the other. */
  predicate SameSectors(rs: seq<SectorReport>, rs': seq<SectorReport>)
  {
    && (forall i :: 0 <= i < |rs| ==> HasSameSector(rs[i], rs'))
    && (forall j :: 0 <= j < |rs'| ==> HasSameSector(rs'[j], rs))
  }

  /** Two documents agree up to the order of the results they were built from. */
  predicate SameDocument(d: Document, d': Document)
  {
    d.meta == d'.meta && multiset(d.flat) == multiset(d'.flat) && SameSectors(d.sectors, d'.sectors)
  }

  /** The order in which results arrive does not matter over exact
      arithmetic: both orders abort or neither does, the flat lists hold the
      same entries, and every sector of one has a sector of the same name,
      members and market cap in the other. */
  lemma ArrivalOrderIrrelevant(items: seq<SymbolResult>, items': seq<SymbolResult>, sectorMap: SectorMap, caps: CapMap,
                               range: string, generatedAt: string)
    requires multiset(items) == multiset(items')
    ensures BuildDocument(items, sectorMap, caps, range, generatedAt).Failure? ==
            BuildDocument(items', sectorMap, caps, range, generatedAt).Failure?
    ensures BuildDocument(items, sectorMap, caps, range, generatedAt).Success? ==>
      SameDocument(BuildDocument(items, sectorMap, caps, range, generatedAt).value,
                   BuildDocument(items', sectorMap, caps, range, generatedAt).value)
  {
    var flat := Flatten(items, sectorMap, caps);
    var flat' := Flatten(items', sectorMap, caps);
    FlattenPermutation(items, items', sectorMap, caps);
    assert |flat| == |multiset(flat)| == |multiset(flat')| == |flat'|;
    RollUpPermutation(flat, flat');
  }
}
