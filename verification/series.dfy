/** Normalisation of one symbol's daily history (`normalize_df`): rows whose
    date or close failed to parse are dropped and the rest are ordered by date.
    Column renaming and the parsing of dates and numbers happen before this
    model starts: a row arrives with already parsed optional values, and a
    frame records which canonical columns its payload had. */
module Series {
  import opened Wrappers
  import Seqs

  /** A parsed timestamp; only its order matters here. */
  type Date = int

  /** One daily bar after coercion; `None` is a missing or unparseable cell. */
  datatype Row = Row(date: Option<Date>, close: Option<real>, volume: Option<real>)

  /** A table of rows together with which columns the payload carried. */
  datatype Frame = Frame(hasDate: bool, hasClose: bool, hasVolume: bool, rows: seq<Row>)

  /** The message of the `KeyError` raised when the payload has no date column
      (in particular when the provider returned no rows at all). */
  const MissingDateColumn: string := "'date'"

  function DateKey(r: Row): Date
  {
    r.date.GetOr(0)
  }

  predicate SortedByDate(s: seq<Row>)
  {
    forall i, j :: 0 <= i < j < |s| ==> DateKey(s[i]) <= DateKey(s[j])
  }

  predicate StrictlyByDate(s: seq<Row>)
  {
    forall i, j :: 0 <= i < j < |s| ==> DateKey(s[i]) < DateKey(s[j])
  }

  /** A row survives when it has a date and, if the close column exists, a close. */
  predicate Survives(hasClose: bool, r: Row)
  {
    r.date.Some? && (!hasClose || r.close.Some?)
  }

  function SurvivorFilter(hasClose: bool): Row -> Option<Row>
  {
    r => if Survives(hasClose, r) then Some(r) else None
  }

  /** The rows left after both `dropna` calls, in input order. */
  function Survivors(f: Frame): seq<Row>
  {
    Seqs.FilterMap(SurvivorFilter(f.hasClose), f.rows)
  }

  /** `rows` is an acceptable output of the row filtering and the sort: the
      surviving rows, each exactly as often as in the input, in non-decreasing
      date order. Ties may come out in any order, as with an unstable sort. */
  ghost predicate IsNormalisation(f: Frame, rows: seq<Row>)
  {
    SortedByDate(rows) && multiset(rows) == multiset(Survivors(f))
  }

  /** Places `x` into a date-sorted sequence. */
  function Insert(x: Row, s: seq<Row>): (r: seq<Row>)
    requires SortedByDate(s)
    ensures SortedByDate(r)
    ensures multiset(r) == multiset(s) + multiset{x}
    ensures r[0] == x || (|s| > 0 && r[0] == s[0])
  {
    if |s| == 0 then [x]
    else if DateKey(x) <= DateKey(s[0]) then
      ConsSorted(x, s);
      [x] + s
    else
      var rest := Insert(x, s[1..]);
      InsertStep(x, s, rest);
      [s[0]] + rest
  }

  lemma ConsSorted(x: Row, s: seq<Row>)
    requires SortedByDate(s) && (|s| == 0 || DateKey(x) <= DateKey(s[0]))
    ensures SortedByDate([x] + s)
  {
  }

  lemma InsertStep(x: Row, s: seq<Row>, rest: seq<Row>)
    requires |s| > 0 && SortedByDate(s) && DateKey(s[0]) < DateKey(x)
    requires SortedByDate(rest) && multiset(rest) == multiset(s[1..]) + multiset{x}
    requires rest[0] == x || (|s| > 1 && rest[0] == s[1])
    ensures SortedByDate([s[0]] + rest)
    ensures multiset([s[0]] + rest) == multiset(s) + multiset{x}
  {
    assert s == [s[0]] + s[1..];
    ConsSorted(s[0], rest);
  }

  /** One concrete sort by date (an insertion sort). */
  function SortByDate(s: seq<Row>): (r: seq<Row>)
    ensures SortedByDate(r)
    ensures multiset(r) == multiset(s)
  {
    if |s| == 0 then []
    else
      assert s == [s[0]] + s[1..];
      Insert(s[0], SortByDate(s[1..]))
  }

  /** `normalize_df` on an already parsed payload. */
  function Normalize(f: Frame): (r: Result<Frame, string>)
    ensures r.Failure? <==> !f.hasDate
    ensures r.Failure? ==> r.error == MissingDateColumn
    ensures r.Success? ==> r.value.hasDate && r.value.hasClose == f.hasClose && r.value.hasVolume == f.hasVolume
    ensures r.Success? ==> IsNormalisation(f, r.value.rows)
  {
    if !f.hasDate then Failure(MissingDateColumn)
    else Success(f.(rows := SortByDate(Survivors(f))))
  }

  /** Every row of a normalisation has a date and, when the close column
      exists, a close; and every surviving row is kept, so nothing is lost. */
  lemma NormalisationRows(f: Frame, rows: seq<Row>)
    requires IsNormalisation(f, rows)
    ensures forall i :: 0 <= i < |rows| ==> Survives(f.hasClose, rows[i])
    ensures forall i :: 0 <= i < |f.rows| && Survives(f.hasClose, f.rows[i]) ==> f.rows[i] in rows
    ensures |rows| == |Survivors(f)|
  {
    forall i | 0 <= i < |rows|
      ensures Survives(f.hasClose, rows[i])
    {
      assert rows[i] in multiset(Survivors(f));
      Seqs.FilterMapMembership(SurvivorFilter(f.hasClose), f.rows, rows[i]);
    }
    forall i | 0 <= i < |f.rows| && Survives(f.hasClose, f.rows[i])
      ensures f.rows[i] in rows
    {
      Seqs.FilterMapMembership(SurvivorFilter(f.hasClose), f.rows, f.rows[i]);
      assert f.rows[i] in multiset(rows);
    }
    assert |multiset(rows)| == |multiset(Survivors(f))|;
  }

  /** The tail of a sorted sequence is sorted, strictly if the sequence is. */
  lemma SortedTail(s: seq<Row>)
    requires |s| > 0 && SortedByDate(s)
    ensures SortedByDate(s[1..])
    ensures StrictlyByDate(s) ==> StrictlyByDate(s[1..])
  {
  }

  /** With strictly increasing dates the normalisation is unique: any sorted
      permutation of the same rows is the same sequence. */
  lemma {:induction false} NormalisationUnique(a: seq<Row>, b: seq<Row>)
    requires SortedByDate(a) && SortedByDate(b)
    requires StrictlyByDate(a)
    requires multiset(a) == multiset(b)
    ensures a == b
    decreases |a|
  {
    if |a| == 0 {
      assert |b| == |multiset(b)| == 0;
    } else {
      assert a[0] in multiset(b);
      var j :| 0 <= j < |b| && b[j] == a[0];
      assert |b| > 0;
      assert b[0] in multiset(a);
      var i :| 0 <= i < |a| && a[i] == b[0];
      assert DateKey(b[0]) <= DateKey(b[j]);
      assert i == 0;
      Seqs.TailPermutation(a, b);
      SortedTail(a);
      SortedTail(b);
      NormalisationUnique(a[1..], b[1..]);
      Seqs.SameHeadTail(a, b);
    }
  }
}
