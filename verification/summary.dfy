/** The per-symbol summary (`process_symbol`): last price, absolute and
    percentage change, mean volume and row count of a normalised series, or
    an all-null record, carrying the error message when anything failed. */
module Summary {
  import opened Wrappers
  import Seqs
  import opened Series

  datatype SymbolResult = SymbolResult(
    symbol: string,
    price: Option<real>,
    change: Option<real>,
    changePct: Option<real>,
    avgVolume: Option<real>,
    nPoints: nat,
    error: Option<string>)

  /** The record with every numeric field null and no rows. */
  function NullRecord(symbol: string, error: Option<string>): SymbolResult
  {
    SymbolResult(symbol, None, None, None, None, 0, error)
  }

  /** The shape every result has: an error forces all numbers null and no
      rows, a price is present exactly when there was at least one row, and
      the derived figures only exist next to a price. */
  predicate WellFormed(r: SymbolResult)
  {
    && (r.error.Some? ==> r.price.None? && r.change.None? && r.changePct.None? && r.avgVolume.None? && r.nPoints == 0)
    && (r.price.Some? <==> r.nPoints >= 1)
    && (r.change.Some? <==> r.price.Some?)
    && (r.changePct.Some? ==> r.price.Some?)
    && (r.avgVolume.Some? ==> r.price.Some?)
  }

  /** The close column is filled on every row, as normalisation guarantees. */
  predicate CloseComplete(s: Frame)
  {
    s.hasClose ==> forall i :: 0 <= i < |s.rows| ==> s.rows[i].close.Some?
  }

  function VolumeOf(r: Row): Option<real>
  {
    r.volume
  }

  /** The non-missing volumes (`df["volume"].dropna()`), none when the
      payload had no volume column. */
  function PresentVolumes(s: Frame): seq<real>
  {
    if s.hasVolume then Seqs.FilterMap(VolumeOf, s.rows) else []
  }

  /** Arithmetic mean; absent for no values. */
  function Mean(xs: seq<real>): (m: Option<real>)
    ensures m.Some? <==> |xs| > 0
    ensures m.Some? ==> m.value * |xs| as real == Seqs.Sum(xs)
  {
    if |xs| == 0 then None else Some(Seqs.Sum(xs) / |xs| as real)
  }

  /** The mean lies within any bounds that hold for every value. */
  lemma MeanWithinBounds(xs: seq<real>, lo: real, hi: real)
    requires forall i :: 0 <= i < |xs| ==> lo <= xs[i] <= hi
    ensures Mean(xs).Some? ==> lo <= Mean(xs).value <= hi
  {
    if |xs| > 0 {
      Seqs.SumBounds(xs, lo, hi);
      var n := |xs| as real;
      var m := Mean(xs).value;
      assert m * n == Seqs.Sum(xs);
      assert n * lo <= m * n <= n * hi;
    }
  }

  /** Percentage change from `first` to `last`, guarded against a zero base. */
  function PctChange(first: real, last: real): (pct: Option<real>)
    ensures pct.None? <==> first == 0.0
    ensures pct.Some? ==> first + first * pct.value / 100.0 == last
  {
    if first != 0.0 then Some((last - first) / first * 100.0) else None
  }

  /** The summary of a normalised series. */
  function Summarize(symbol: string, s: Frame): (r: SymbolResult)
    requires CloseComplete(s)
    ensures WellFormed(r) && r.symbol == symbol && r.error.None?
    ensures r.nPoints == (if s.hasClose then |s.rows| else 0)
    ensures r.price.Some? ==> r.price == s.rows[|s.rows| - 1].close
    ensures r.price.Some? ==> r.change.value == r.price.value - s.rows[0].close.value
    ensures r.price.Some? ==> r.changePct == PctChange(s.rows[0].close.value, r.price.value)
    ensures r.avgVolume == (if r.price.Some? then Mean(PresentVolumes(s)) else None)
  {
    if |s.rows| == 0 || !s.hasClose then NullRecord(symbol, None)
    else
      var first := s.rows[0].close.value;
      var last := s.rows[|s.rows| - 1].close.value;
      SymbolResult(symbol, Some(last), Some(last - first), PctChange(first, last),
                   Mean(PresentVolumes(s)), |s.rows|, None)
  }

  /** `r` is the summary of some normalisation of `raw`: whichever order the
      unstable sort gives rows that share a date. */
  ghost predicate SummarisesSomeNormalisation(symbol: string, raw: Frame, r: SymbolResult)
  {
    exists rows :: IsNormalisation(raw, rows) && CloseComplete(raw.(rows := rows)) &&
      r == Summarize(symbol, raw.(rows := rows))
  }

  /** `process_symbol`: the fetch outcome, normalised and summarised, with
      every failure turned into an error record. */
  function ProcessSymbol(symbol: string, fetched: Result<Frame, string>): (r: SymbolResult)
    ensures WellFormed(r) && r.symbol == symbol
    ensures r.error.Some? <==> fetched.Failure? || !fetched.value.hasDate
    ensures fetched.Failure? ==> r == NullRecord(symbol, Some(fetched.error))
    ensures fetched.Success? && !fetched.value.hasDate ==> r == NullRecord(symbol, Some(MissingDateColumn))
    ensures fetched.Success? && fetched.value.hasDate ==> SummarisesSomeNormalisation(symbol, fetched.value, r)
  {
    match fetched
    case Failure(e) => NullRecord(symbol, Some(e))
    case Success(raw) =>
      match Normalize(raw)
      case Failure(e) => NullRecord(symbol, Some(e))
      case Success(s) =>
        NormalisationRows(raw, s.rows);
        assert s == raw.(rows := s.rows);
        Summarize(symbol, s)
  }

  /** A normalised frame has a close on every row. */
  lemma NormalisedCloseComplete(f: Frame, rows: seq<Row>)
    requires IsNormalisation(f, rows)
    ensures CloseComplete(f.(rows := rows))
  {
    NormalisationRows(f, rows);
  }

  /** The row count and the mean volume are the same whichever way an
      unstable sort orders rows that share a date; with strictly increasing
      dates the whole summary is. */
  lemma SummaryIgnoresTieOrder(symbol: string, f: Frame, a: seq<Row>, b: seq<Row>)
    requires IsNormalisation(f, a) && IsNormalisation(f, b)
    ensures CloseComplete(f.(rows := a)) && CloseComplete(f.(rows := b))
    ensures Summarize(symbol, f.(rows := a)).nPoints == Summarize(symbol, f.(rows := b)).nPoints
    ensures Summarize(symbol, f.(rows := a)).avgVolume == Summarize(symbol, f.(rows := b)).avgVolume
    ensures StrictlyByDate(a) ==> Summarize(symbol, f.(rows := a)) == Summarize(symbol, f.(rows := b))
  {
    NormalisationRows(f, a);
    NormalisationRows(f, b);
    Seqs.FilterMapPermutation(VolumeOf, a, b);
    var va := PresentVolumes(f.(rows := a));
    var vb := PresentVolumes(f.(rows := b));
    assert multiset(va) == multiset(vb);
    Seqs.SumPermutation(va, vb);
    assert |va| == |multiset(va)| == |multiset(vb)| == |vb|;
    if StrictlyByDate(a) {
      NormalisationUnique(a, b);
    }
  }

  /** The summary in terms of the raw payload, independent of the sort: the
      row count is the number of surviving rows and the mean volume is over
      the surviving rows' volumes. */
  lemma ProcessSymbolCounts(symbol: string, raw: Frame)
    requires raw.hasDate
    ensures ProcessSymbol(symbol, Success(raw)).error.None?
    ensures ProcessSymbol(symbol, Success(raw)).nPoints == (if raw.hasClose then |Survivors(raw)| else 0)
    ensures ProcessSymbol(symbol, Success(raw)).avgVolume ==
      (if raw.hasClose && |Survivors(raw)| > 0 then Mean(PresentVolumes(raw.(rows := Survivors(raw)))) else None)
  {
    var s := Normalize(raw).value;
    NormalisationRows(raw, s.rows);
    var survivors := raw.(rows := Survivors(raw));
    Seqs.FilterMapPermutation(VolumeOf, s.rows, survivors.rows);
    var vs := PresentVolumes(s);
    var vr := PresentVolumes(survivors);
    Seqs.SumPermutation(vs, vr);
    assert |vs| == |multiset(vs)| == |multiset(vr)| == |vr|;
  }
}
