/** Worked examples of the pipeline on small concrete inputs. */
module Scenarios {
  import opened Wrappers
  import opened Series
  import opened Summary
  import opened Aggregate
  import opened Heatmap

  /** A two-day series delivered newest first, closing at 10 then 12. */
  const AaaPayload: Frame := Frame(true, true, true, [Row(Some(2), Some(12.0), Some(1000.0)), Row(Some(1), Some(10.0), Some(1000.0))])

  const AaaSorted: seq<Row> := [Row(Some(1), Some(10.0), Some(1000.0)), Row(Some(2), Some(12.0), Some(1000.0))]

  /** Normalisation puts the two days in date order. */
  lemma AaaNormalised()
    ensures Normalize(AaaPayload).Success? && Normalize(AaaPayload).value.rows == AaaSorted
  {
    var rows := AaaPayload.rows;
    assert rows[1..][1..] == [];
    assert Survivors(AaaPayload) == rows;
    var s := Normalize(AaaPayload).value.rows;
    assert multiset(AaaSorted) == multiset(rows);
    assert StrictlyByDate(AaaSorted) && SortedByDate(AaaSorted) by {
      assert DateKey(AaaSorted[0]) == 1 && DateKey(AaaSorted[1]) == 2;
    }
    NormalisationUnique(AaaSorted, s);
  }

  /** A series whose closes go 10 to 12 summarises to price 12, change 2 and
      a 20 percent change, with the mean of its volumes and two points. */
  lemma AaaSummary()
    ensures var aaa := ProcessSymbol("AAA", Success(AaaPayload));
      && aaa.price == Some(12.0) && aaa.change == Some(2.0) && aaa.changePct == Some(20.0)
      && aaa.avgVolume == Some(1000.0) && aaa.nPoints == 2 && aaa.error.None?
  {
    AaaNormalised();
    var s := Normalize(AaaPayload).value;
    assert AaaSorted[1..][1..] == [];
    assert PresentVolumes(s) == [1000.0, 1000.0];
    PairSum(1000.0);
  }

  lemma PairSum(x: real)
    ensures Seqs.Sum([x, x]) == 2.0 * x
  {
    assert [x, x][1..] == [x];
    assert [x][1..] == [];
    assert Seqs.Sum([x]) == x;
  }

  /** A failed fetch gives the null record carrying the error. */
  lemma FailedFetchScenario()
    ensures ProcessSymbol("BBB", Failure("timeout")) == NullRecord("BBB", Some("timeout"))
  {
  }

  /** Of a good and a failed result only the first reaches the flat list,
      estimated at average volume times price and filed by its own name under
      the unknown sector when neither map knows it. */
  lemma TwoSymbolRun(sectorMap: SectorMap, caps: CapMap)
    requires "AAA" !in sectorMap && "AAA" !in caps
    ensures var flat := Flatten([ProcessSymbol("AAA", Success(AaaPayload)), ProcessSymbol("BBB", Failure("timeout"))], sectorMap, caps);
      && |flat| == 1 && flat[0].symbol == "AAA" && flat[0].name == "AAA" && flat[0].sector == UnknownSector
      && flat[0].marketCap == Some(12000.0)
  {
    AaaSummary();
    var aaa := ProcessSymbol("AAA", Success(AaaPayload));
    var bbb := ProcessSymbol("BBB", Failure("timeout"));
    FlattenKeepsFirst(aaa, bbb, sectorMap, caps);
  }

  /** Of two results, only the one with a percentage change is flattened. */
  lemma FlattenKeepsFirst(a: SymbolResult, b: SymbolResult, sectorMap: SectorMap, caps: CapMap)
    requires a.changePct.Some? && b.changePct.None?
    ensures Flatten([a, b], sectorMap, caps) == [MakeEntry(a, sectorMap, caps)]
  {
    assert [a, b] == [a] + [b];
    FlattenConcat([a], [b], sectorMap, caps);
    assert [a][1..] == [] && [b][1..] == [];
  }

  /** A payload without a date column fails normalisation with the missing
      key's message, so the symbol records that error. */
  lemma MissingDateScenario()
    ensures ProcessSymbol("CCC", Success(Frame(false, true, false, []))) == NullRecord("CCC", Some("'date'"))
  {
  }

  /** A sector whose members' caps sum to zero reports a null market cap. */
  lemma NonPositiveSectorScenario()
    ensures var e1 := FlatEntry("AAA", "AAA", "Banks", None, None, 1.0, Some(5.0), None, 1);
      var e2 := FlatEntry("BBB", "BBB", "Banks", None, None, 1.0, Some(-5.0), None, 1);
      RollUp([e1, e2]) == [SectorReport("Banks", None, [e1, e2])]
  {
    var e1 := FlatEntry("AAA", "AAA", "Banks", None, None, 1.0, Some(5.0), None, 1);
    var e2 := FlatEntry("BBB", "BBB", "Banks", None, None, 1.0, Some(-5.0), None, 1);
    assert [e1, e2][..1] == [e1];
    assert [e1][..0] == [];
    var t1 := SectorTable(["Banks"], map["Banks" := Bucket(5.0, [e1])]);
    assert Group([e1]) == t1;
    assert [e1] + [e2] == [e1, e2];
    assert t1.buckets["Banks" := Bucket(0.0, [e1, e2])] == map["Banks" := Bucket(0.0, [e1, e2])];
    assert Group([e1, e2]) == SectorTable(["Banks"], map["Banks" := Bucket(0.0, [e1, e2])]);
  }
}
