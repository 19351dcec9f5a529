/** Aggregation of the per-symbol results (`build_tv_json_and_heatmap` up to
    the document): the results with a percentage change become flat entries
    with a display name, a sector and a market cap resolved through an ordered
    fallback, and the flat entries are folded into sector buckets whose
    market cap is the sum of their members' caps. */
module Aggregate {
  import opened Wrappers
  import Seqs
  import opened Summary

  /** One row of the sector file: the sector and the display name. */
  datatype SectorInfo = SectorInfo(sector: string, name: string)

  type SectorMap = map<string, SectorInfo>

  /** Market caps by symbol; `None` stands for a value that failed to parse
      (Python `None`) or is NaN. */
  type CapMap = map<string, Option<real>>

  const UnknownSector: string := "Unknown"

  datatype FlatEntry = FlatEntry(
    symbol: string,
    name: string,
    sector: string,
    price: Option<real>,
    change: Option<real>,
    changePct: real,
    marketCap: Option<real>,
    volume: Option<real>,
    nPoints: nat)

  /** Python truthiness of an optional number: present and non-zero. */
  predicate Truthy(x: Option<real>)
  {
    x.Some? && x.value != 0.0
  }

  /** The market cap of one symbol: the map's value when it has a usable one,
      else the estimate average volume times price when both are truthy,
      else none. */
  function ResolveCap(symbol: string, caps: CapMap, avgVolume: Option<real>, price: Option<real>): (cap: Option<real>)
    ensures symbol in caps && caps[symbol].Some? ==> cap == caps[symbol]
    ensures !(symbol in caps && caps[symbol].Some?) ==>
      (cap.Some? <==> Truthy(avgVolume) && Truthy(price))
    ensures !(symbol in caps && caps[symbol].Some?) && cap.Some? ==>
      cap.value == avgVolume.value * price.value && cap.value != 0.0
  {
    if symbol in caps && caps[symbol].Some? then caps[symbol]
    else if Truthy(avgVolume) && Truthy(price) then Some(avgVolume.value * price.value)
    else None
  }

  /** The flat entry of a result that has a percentage change. */
  function MakeEntry(it: SymbolResult, sectors: SectorMap, caps: CapMap): (e: FlatEntry)
    requires it.changePct.Some?
    ensures e.symbol == it.symbol
    ensures e.name == (if it.symbol in sectors then sectors[it.symbol].name else it.symbol)
    ensures e.sector == (if it.symbol in sectors then sectors[it.symbol].sector else UnknownSector)
    ensures e.price == it.price && e.change == it.change && Some(e.changePct) == it.changePct
    ensures e.volume == it.avgVolume && e.nPoints == it.nPoints
    ensures e.marketCap == ResolveCap(it.symbol, caps, it.avgVolume, it.price)
  {
    var info := if it.symbol in sectors then sectors[it.symbol] else SectorInfo(UnknownSector, it.symbol);
    FlatEntry(it.symbol, info.name, info.sector, it.price, it.change, it.changePct.value,
              ResolveCap(it.symbol, caps, it.avgVolume, it.price), it.avgVolume, it.nPoints)
  }

  function FlatFilter(sectors: SectorMap, caps: CapMap): SymbolResult -> Option<FlatEntry>
  {
    (it: SymbolResult) => if it.changePct.Some? then Some(MakeEntry(it, sectors, caps)) else None
  }

  /** `e` is the flat entry of some result that has a percentage change. */
  predicate BuiltFrom(items: seq<SymbolResult>, sectors: SectorMap, caps: CapMap, e: FlatEntry)
  {
    exists i :: 0 <= i < |items| && items[i].changePct.Some? && MakeEntry(items[i], sectors, caps) == e
  }

  /** The flat list: one entry per result with a percentage change, in order. */
  function Flatten(items: seq<SymbolResult>, sectors: SectorMap, caps: CapMap): (flat: seq<FlatEntry>)
    ensures |flat| <= |items|
    ensures forall k :: 0 <= k < |flat| ==> BuiltFrom(items, sectors, caps, flat[k])
  {
    var f := FlatFilter(sectors, caps);
    var flat := Seqs.FilterMap(f, items);
    FlattenOrigins(items, sectors, caps, flat);
    flat
  }

  lemma FlattenOrigins(items: seq<SymbolResult>, sectors: SectorMap, caps: CapMap, flat: seq<FlatEntry>)
    requires flat == Seqs.FilterMap(FlatFilter(sectors, caps), items)
    ensures forall k :: 0 <= k < |flat| ==> BuiltFrom(items, sectors, caps, flat[k])
  {
    var f := FlatFilter(sectors, caps);
    Seqs.FilterMapOrigins(f, items);
    forall k | 0 <= k < |flat|
      ensures BuiltFrom(items, sectors, caps, flat[k])
    {
      var i :| 0 <= i < |items| && f(items[i]) == Some(flat[k]);
      assert items[i].changePct.Some? && MakeEntry(items[i], sectors, caps) == flat[k];
    }
  }

  /** An entry is in the flat list exactly when it is built from some result
      that has a percentage change. */
  lemma FlattenMembership(items: seq<SymbolResult>, sectors: SectorMap, caps: CapMap, e: FlatEntry)
    ensures e in Flatten(items, sectors, caps) <==> BuiltFrom(items, sectors, caps, e)
  {
    var f := FlatFilter(sectors, caps);
    Seqs.FilterMapMembership(f, items, e);
    if BuiltFrom(items, sectors, caps, e) {
      var i :| 0 <= i < |items| && items[i].changePct.Some? && MakeEntry(items[i], sectors, caps) == e;
      assert f(items[i]) == Some(e);
    }
  }

  /** Flattening keeps the order of the results. */
  lemma FlattenConcat(a: seq<SymbolResult>, b: seq<SymbolResult>, sectors: SectorMap, caps: CapMap)
    ensures Flatten(a + b, sectors, caps) == Flatten(a, sectors, caps) + Flatten(b, sectors, caps)
  {
    Seqs.FilterMapConcat(FlatFilter(sectors, caps), a, b);
  }

  /** The flat list is empty exactly when no result has a percentage change. */
  lemma FlattenEmpty(items: seq<SymbolResult>, sectors: SectorMap, caps: CapMap)
    ensures Flatten(items, sectors, caps) == [] <==> forall i :: 0 <= i < |items| ==> items[i].changePct.None?
  {
    var f := FlatFilter(sectors, caps);
    Seqs.FilterMapEmpty(f, items);
    assert forall i :: 0 <= i < |items| ==> (f(items[i]).None? <==> items[i].changePct.None?);
  }

  /** The flat entries, as a multiset, do not depend on the order of the results. */
  lemma FlattenPermutation(items: seq<SymbolResult>, items': seq<SymbolResult>, sectors: SectorMap, caps: CapMap)
    requires multiset(items) == multiset(items')
    ensures multiset(Flatten(items, sectors, caps)) == multiset(Flatten(items', sectors, caps))
  {
    Seqs.FilterMapPermutation(FlatFilter(sectors, caps), items, items');
  }

  /** The bucket an entry's sector falls into; an empty sector counts as unknown. */
  function SectorKey(sector: string): (k: string)
    ensures k != ""
    ensures sector != "" ==> k == sector
    ensures sector == "" ==> k == UnknownSector
  {
    if sector == "" then UnknownSector else sector
  }

  function MemberFilter(k: string): FlatEntry -> Option<FlatEntry>
  {
    (e: FlatEntry) => if SectorKey(e.sector) == k then Some(e) else None
  }

  /** The flat entries that belong to bucket `k`, in flat order. */
  function Members(flat: seq<FlatEntry>, k: string): seq<FlatEntry>
  {
    Seqs.FilterMap(MemberFilter(k), flat)
  }

  function CapOf(e: FlatEntry): Option<real>
  {
    e.marketCap
  }

  /** The sum of the caps that are present. */
  function CapTotal(items: seq<FlatEntry>): real
  {
    Seqs.Sum(Seqs.FilterMap(CapOf, items))
  }

  /** A sector under construction: running cap total and members. */
  datatype Bucket = Bucket(total: real, items: seq<FlatEntry>)

  /** The `sectors` dictionary: its keys in insertion order and its entries. */
  datatype SectorTable = SectorTable(keys: seq<string>, buckets: map<string, Bucket>)

  /** One step of the fold: append the entry to its sector's bucket, creating
      the bucket when the sector is new, and add its cap when present. */
  function AddEntry(t: SectorTable, e: FlatEntry): SectorTable
  {
    var k := SectorKey(e.sector);
    var cap := e.marketCap.GetOr(0.0);
    if k in t.buckets then
      var b := t.buckets[k];
      t.(buckets := t.buckets[k := Bucket(b.total + cap, b.items + [e])])
    else
      SectorTable(t.keys + [k], t.buckets[k := Bucket(cap, [e])])
  }

  /** The fold over the flat list, in flat order. */
  function Group(flat: seq<FlatEntry>): SectorTable
  {
    if |flat| == 0 then SectorTable([], map[])
    else AddEntry(Group(flat[..|flat| - 1]), flat[|flat| - 1])
  }

  /** The key list has no repetition and lists exactly the table's sectors. */
  predicate WellKeyed(t: SectorTable)
  {
    && (forall i, j :: 0 <= i < j < |t.keys| ==> t.keys[i] != t.keys[j])
    && (forall k :: k in t.keys ==> k in t.buckets)
    && (forall k :: k in t.buckets ==> k in t.keys)
  }

  /** `t` groups `flat` by sector: one bucket per sector, holding exactly the
      entries of that sector in flat order, never empty, with the sum of their
      caps; and every entry's sector has a bucket. */
  ghost predicate IsGrouping(flat: seq<FlatEntry>, t: SectorTable)
  {
    && WellKeyed(t)
    && (forall k :: k in t.buckets ==> t.buckets[k].items == Members(flat, k) && t.buckets[k].items != [])
    && (forall k :: k in t.buckets ==> t.buckets[k].total == CapTotal(t.buckets[k].items))
    && (forall j :: 0 <= j < |flat| ==> SectorKey(flat[j].sector) in t.buckets)
  }

  lemma MembersAppend(p: seq<FlatEntry>, e: FlatEntry, k: string)
    ensures Members(p + [e], k) == Members(p, k) + (if SectorKey(e.sector) == k then [e] else [])
  {
    Seqs.FilterMapConcat(MemberFilter(k), p, [e]);
    assert [e][1..] == [];
  }

  lemma CapTotalAppend(items: seq<FlatEntry>, e: FlatEntry)
    ensures CapTotal(items + [e]) == CapTotal(items) + e.marketCap.GetOr(0.0)
  {
    Seqs.FilterMapConcat(CapOf, items, [e]);
    assert [e][1..] == [];
    Seqs.SumConcat(Seqs.FilterMap(CapOf, items), Seqs.FilterMap(CapOf, [e]));
  }

  /** An entry is a member of bucket `k` exactly when it is in the flat list
      and its sector key is `k`. */
  lemma MembersMembership(flat: seq<FlatEntry>, k: string, e: FlatEntry)
    ensures e in Members(flat, k) <==> e in flat && SectorKey(e.sector) == k
  {
    Seqs.FilterMapMembership(MemberFilter(k), flat, e);
    if e in flat && SectorKey(e.sector) == k {
      var j :| 0 <= j < |flat| && flat[j] == e;
      assert MemberFilter(k)(flat[j]) == Some(e);
    }
  }

  /** A sector with no entry in the flat list has no members. */
  lemma MembersOfAbsentSector(p: seq<FlatEntry>, t: SectorTable, k: string)
    requires IsGrouping(p, t)
    requires k !in t.buckets
    ensures Members(p, k) == []
  {
    Seqs.FilterMapEmpty(MemberFilter(k), p);
  }

  /** One fold step keeps every bucket equal to its sector's entries. */
  lemma AddEntryMembers(p: seq<FlatEntry>, e: FlatEntry, t: SectorTable)
    requires IsGrouping(p, t)
    ensures forall x :: x in AddEntry(t, e).buckets ==>
      AddEntry(t, e).buckets[x].items == Members(p + [e], x) && AddEntry(t, e).buckets[x].items != []
  {
    var k := SectorKey(e.sector);
    if k !in t.buckets {
      MembersOfAbsentSector(p, t, k);
    }
    forall x | x in AddEntry(t, e).buckets
      ensures AddEntry(t, e).buckets[x].items == Members(p + [e], x)
    {
      MembersAppend(p, e, x);
    }
  }

  /** One fold step keeps every bucket's total equal to its members' caps. */
  lemma AddEntryTotals(p: seq<FlatEntry>, e: FlatEntry, t: SectorTable)
    requires IsGrouping(p, t)
    ensures forall x :: x in AddEntry(t, e).buckets ==>
      AddEntry(t, e).buckets[x].total == CapTotal(AddEntry(t, e).buckets[x].items)
  {
    var k := SectorKey(e.sector);
    if k !in t.buckets {
      CapTotalAppend([], e);
      assert [] + [e] == [e];
    } else {
      CapTotalAppend(t.buckets[k].items, e);
    }
  }

  /** One fold step keeps the grouping. */
  lemma AddEntryGroups(p: seq<FlatEntry>, e: FlatEntry, t: SectorTable)
    requires IsGrouping(p, t)
    ensures IsGrouping(p + [e], AddEntry(t, e))
  {
    var flat := p + [e];
    var nt := AddEntry(t, e);
    AddEntryCount(t, e);
    AddEntryMembers(p, e, t);
    AddEntryTotals(p, e, t);
    forall j | 0 <= j < |flat|
      ensures SectorKey(flat[j].sector) in nt.buckets
    {
      if j < |p| {
        assert flat[j] == p[j];
      }
    }
  }

  /** The fold groups the flat list by sector. */
  lemma {:induction false} GroupIsGrouping(flat: seq<FlatEntry>)
    ensures IsGrouping(flat, Group(flat))
  {
    if |flat| > 0 {
      var p := flat[..|flat| - 1];
      var e := flat[|flat| - 1];
      assert flat == p + [e];
      GroupIsGrouping(p);
      AddEntryGroups(p, e, Group(p));
    }
  }

  /** The number of entries in the buckets listed by `keys`. */
  function ItemCount(keys: seq<string>, m: map<string, Bucket>): nat
    requires forall i :: 0 <= i < |keys| ==> keys[i] in m
  {
    if |keys| == 0 then 0 else |m[keys[0]].items| + ItemCount(keys[1..], m)
  }

  lemma {:induction false} ItemCountUnchanged(keys: seq<string>, m: map<string, Bucket>, k: string, b: Bucket)
    requires forall i :: 0 <= i < |keys| ==> keys[i] in m
    requires k !in keys
    ensures ItemCount(keys, m[k := b]) == ItemCount(keys, m)
  {
    if |keys| > 0 {
      ItemCountUnchanged(keys[1..], m, k, b);
    }
  }

  lemma {:induction false} ItemCountUpdate(keys: seq<string>, m: map<string, Bucket>, k: string, b: Bucket)
    requires forall i :: 0 <= i < |keys| ==> keys[i] in m
    requires forall i, j :: 0 <= i < j < |keys| ==> keys[i] != keys[j]
    requires k in keys
    ensures ItemCount(keys, m[k := b]) + |m[k].items| == ItemCount(keys, m) + |b.items|
  {
    if keys[0] == k {
      assert k !in keys[1..];
      ItemCountUnchanged(keys[1..], m, k, b);
    } else {
      ItemCountUpdate(keys[1..], m, k, b);
    }
  }

  lemma {:induction false} ItemCountAppend(keys: seq<string>, m: map<string, Bucket>, k: string, b: Bucket)
    requires forall i :: 0 <= i < |keys| ==> keys[i] in m
    requires k !in keys
    ensures ItemCount(keys + [k], m[k := b]) == ItemCount(keys, m) + |b.items|
  {
    if |keys| == 0 {
      assert [k][1..] == [];
    } else {
      assert (keys + [k])[1..] == keys[1..] + [k];
      ItemCountAppend(keys[1..], m, k, b);
    }
  }

  /** One fold step keeps the table well keyed and adds one entry. */
  lemma AddEntryCount(t: SectorTable, e: FlatEntry)
    requires WellKeyed(t)
    ensures WellKeyed(AddEntry(t, e))
    ensures ItemCount(AddEntry(t, e).keys, AddEntry(t, e).buckets) == ItemCount(t.keys, t.buckets) + 1
  {
    var k := SectorKey(e.sector);
    var cap := e.marketCap.GetOr(0.0);
    if k in t.buckets {
      var b := t.buckets[k];
      ItemCountUpdate(t.keys, t.buckets, k, Bucket(b.total + cap, b.items + [e]));
    } else {
      ItemCountAppend(t.keys, t.buckets, k, Bucket(cap, [e]));
    }
  }

  /** Every entry lands in exactly one bucket, so the buckets hold as many
      entries as the flat list. */
  lemma {:induction false} GroupCount(flat: seq<FlatEntry>)
    ensures WellKeyed(Group(flat))
    ensures ItemCount(Group(flat).keys, Group(flat).buckets) == |flat|
  {
    if |flat| > 0 {
      var p := flat[..|flat| - 1];
      GroupCount(p);
      AddEntryCount(Group(p), flat[|flat| - 1]);
    }
  }

  /** Every key of the fold's table has a bucket. */
  lemma GroupKeysHaveBuckets(flat: seq<FlatEntry>)
    ensures forall i :: 0 <= i < |Group(flat).keys| ==> Group(flat).keys[i] in Group(flat).buckets
  {
    GroupIsGrouping(flat);
  }

  /** A sector of the output: null market cap unless the total is positive. */
  datatype SectorReport = SectorReport(name: string, marketCap: Option<real>, items: seq<FlatEntry>)

  function ReportOf(name: string, b: Bucket): SectorReport
  {
    SectorReport(name, SectorCap(b.total), b.items)
  }

  /** The reports of a table, in key order. */
  function Reports(t: SectorTable): (rs: seq<SectorReport>)
    requires forall i :: 0 <= i < |t.keys| ==> t.keys[i] in t.buckets
    ensures |rs| == |t.keys|
    ensures forall i :: 0 <= i < |rs| ==> rs[i] == ReportOf(t.keys[i], t.buckets[t.keys[i]])
  {
    seq(|t.keys|, i requires 0 <= i < |t.keys| => ReportOf(t.keys[i], t.buckets[t.keys[i]]))
  }

  /** The sector list of the document, in dictionary order. */
  function RollUp(flat: seq<FlatEntry>): seq<SectorReport>
  {
    GroupKeysHaveBuckets(flat);
    Reports(Group(flat))
  }

  function ReportCount(rs: seq<SectorReport>): nat
  {
    if |rs| == 0 then 0 else |rs[0].items| + ReportCount(rs[1..])
  }

  lemma {:induction false} ReportCountOf(t: SectorTable)
    requires forall i :: 0 <= i < |t.keys| ==> t.keys[i] in t.buckets
    ensures ReportCount(Reports(t)) == ItemCount(t.keys, t.buckets)
    decreases |t.keys|
  {
    if |t.keys| > 0 {
      var rest := t.(keys := t.keys[1..]);
      assert Reports(t)[1..] == Reports(rest);
      ReportCountOf(rest);
    }
  }

  /** `rs` is the sector rollup of `flat`: distinct sectors, each listing
      exactly its entries in flat order, none empty, every entry's sector
      present, as many entries in all as in the flat list, and a market cap
      that is the sum of the members' present caps when that sum is positive
      and null otherwise. */
  ghost predicate IsRollUp(flat: seq<FlatEntry>, rs: seq<SectorReport>)
  {
    && (forall i, j :: 0 <= i < j < |rs| ==> rs[i].name != rs[j].name)
    && (forall i :: 0 <= i < |rs| ==> rs[i].items == Members(flat, rs[i].name) && rs[i].items != [])
    && (forall i :: 0 <= i < |rs| ==> rs[i].marketCap == SectorCap(CapTotal(rs[i].items)))
    && (forall j :: 0 <= j < |flat| ==> HasReport(rs, SectorKey(flat[j].sector)))
    && ReportCount(rs) == |flat|
  }

  /** Some report of `rs` is for sector `k`. */
  predicate HasReport(rs: seq<SectorReport>, k: string)
  {
    exists i :: 0 <= i < |rs| && rs[i].name == k
  }

  /** The reported sector cap: the total when positive, otherwise null. */
  function SectorCap(total: real): (cap: Option<real>)
    ensures cap.Some? <==> total > 0.0
    ensures cap.Some? ==> cap.value == total
  {
    if total > 0.0 then Some(total) else None
  }

  /** Each report of a grouping table lists its sector's entries with the
      reported total of their caps. */
  lemma ReportsOfGrouping(flat: seq<FlatEntry>, t: SectorTable)
    requires IsGrouping(flat, t)
    ensures forall i, j :: 0 <= i < j < |Reports(t)| ==> Reports(t)[i].name != Reports(t)[j].name
    ensures forall i :: 0 <= i < |Reports(t)| ==>
      Reports(t)[i].items == Members(flat, Reports(t)[i].name) && Reports(t)[i].items != []
    ensures forall i :: 0 <= i < |Reports(t)| ==> Reports(t)[i].marketCap == SectorCap(CapTotal(Reports(t)[i].items))
  {
  }

  /** Every entry's sector has a report. */
  lemma ReportsCover(flat: seq<FlatEntry>, t: SectorTable)
    requires IsGrouping(flat, t)
    ensures forall j :: 0 <= j < |flat| ==> HasReport(Reports(t), SectorKey(flat[j].sector))
  {
    var rs := Reports(t);
    forall j | 0 <= j < |flat|
      ensures HasReport(rs, SectorKey(flat[j].sector))
    {
      var k := SectorKey(flat[j].sector);
      var i :| 0 <= i < |t.keys| && t.keys[i] == k;
      assert rs[i].name == k;
    }
  }

  /** The reports of a grouping table form the rollup. */
  lemma ReportsAreRollUp(flat: seq<FlatEntry>, t: SectorTable)
    requires IsGrouping(flat, t)
    requires ItemCount(t.keys, t.buckets) == |flat|
    ensures IsRollUp(flat, Reports(t))
  {
    ReportCountOf(t);
    ReportsOfGrouping(flat, t);
    ReportsCover(flat, t);
  }

  lemma RollUpSpec(flat: seq<FlatEntry>)
    ensures IsRollUp(flat, RollUp(flat))
  {
    GroupIsGrouping(flat);
    GroupCount(flat);
    ReportsAreRollUp(flat, Group(flat));
  }

  /** Each flat entry is in exactly the bucket of its own sector. */
  lemma EntryInExactlyOneSector(flat: seq<FlatEntry>, j: nat, i: nat)
    requires j < |flat| && i < |RollUp(flat)|
    ensures flat[j] in RollUp(flat)[i].items <==> RollUp(flat)[i].name == SectorKey(flat[j].sector)
  {
    RollUpSpec(flat);
    MembersMembership(flat, RollUp(flat)[i].name, flat[j]);
  }

  /** A sector none of whose members has a cap reports a null market cap. */
  lemma NoCapsMeansNullSector(flat: seq<FlatEntry>, i: nat)
    requires i < |RollUp(flat)|
    requires forall k :: 0 <= k < |RollUp(flat)[i].items| ==> RollUp(flat)[i].items[k].marketCap.None?
    ensures RollUp(flat)[i].marketCap.None?
  {
    RollUpSpec(flat);
    var items := RollUp(flat)[i].items;
    Seqs.FilterMapEmpty(CapOf, items);
  }

  /** What the rollup says of one of its sectors. */
  lemma RollUpSector(flat: seq<FlatEntry>, i: nat)
    requires i < |RollUp(flat)|
    ensures RollUp(flat)[i].items == Members(flat, RollUp(flat)[i].name) && RollUp(flat)[i].items != []
    ensures RollUp(flat)[i].marketCap == SectorCap(CapTotal(RollUp(flat)[i].items))
  {
    RollUpSpec(flat);
  }

  /** The sector of the rollup that an entry of the flat list falls into. */
  lemma RollUpCovers(flat: seq<FlatEntry>, m: nat) returns (j: nat)
    requires m < |flat|
    ensures j < |RollUp(flat)| && RollUp(flat)[j].name == SectorKey(flat[m].sector)
  {
    RollUpSpec(flat);
    assert HasReport(RollUp(flat), SectorKey(flat[m].sector));
    j :| 0 <= j < |RollUp(flat)| && RollUp(flat)[j].name == SectorKey(flat[m].sector);
  }

  /** The cap total does not depend on member order. */
  lemma CapTotalPermutation(a: seq<FlatEntry>, b: seq<FlatEntry>)
    requires multiset(a) == multiset(b)
    ensures CapTotal(a) == CapTotal(b)
  {
    Seqs.FilterMapPermutation(CapOf, a, b);
    Seqs.SumPermutation(Seqs.FilterMap(CapOf, a), Seqs.FilterMap(CapOf, b));
  }

  /** The sector of `flat'` that matches sector `i` of `flat` when the two
      lists are permutations of each other. */
  lemma MatchingSector(flat: seq<FlatEntry>, flat': seq<FlatEntry>, i: nat) returns (j: nat)
    requires multiset(flat) == multiset(flat')
    requires i < |RollUp(flat)|
    ensures j < |RollUp(flat')| && RollUp(flat')[j].name == RollUp(flat)[i].name
    ensures multiset(RollUp(flat')[j].items) == multiset(RollUp(flat)[i].items)
    ensures RollUp(flat')[j].marketCap == RollUp(flat)[i].marketCap
  {
    var rs := RollUp(flat);
    var rs' := RollUp(flat');
    RollUpSector(flat, i);
    var k := rs[i].name;
    var x := rs[i].items[0];
    MembersMembership(flat, k, x);
    assert x in multiset(flat');
    var m :| 0 <= m < |flat'| && flat'[m] == x;
    j := RollUpCovers(flat', m);
    RollUpSector(flat', j);
    Seqs.FilterMapPermutation(MemberFilter(k), flat, flat');
    CapTotalPermutation(rs[i].items, rs'[j].items);
  }

  /** Over exact arithmetic the rollup does not depend on the order of the
      flat list: a sector of either has a sector of the same name in the
      other, with the same members counted with multiplicity and the same
      market cap. */
  lemma RollUpPermutation(flat: seq<FlatEntry>, flat': seq<FlatEntry>)
    requires multiset(flat) == multiset(flat')
    ensures forall i :: 0 <= i < |RollUp(flat)| ==> HasSameSector(RollUp(flat)[i], RollUp(flat'))
    ensures forall j :: 0 <= j < |RollUp(flat')| ==> HasSameSector(RollUp(flat')[j], RollUp(flat))
  {
    forall i | 0 <= i < |RollUp(flat)|
      ensures HasSameSector(RollUp(flat)[i], RollUp(flat'))
    {
      var j := MatchingSector(flat, flat', i);
      assert SameSector(RollUp(flat)[i], RollUp(flat')[j]);
    }
    forall j | 0 <= j < |RollUp(flat')|
      ensures HasSameSector(RollUp(flat')[j], RollUp(flat))
    {
      var i := MatchingSector(flat', flat, j);
      assert SameSector(RollUp(flat')[j], RollUp(flat)[i]);
    }
  }

  /** Two sector reports agree up to the order of their members. */
  predicate SameSector(a: SectorReport, b: SectorReport)
  {
    a.name == b.name && a.marketCap == b.marketCap && multiset(a.items) == multiset(b.items)
  }

  /** Some report of `rs` agrees with `r` up to member order. */
  predicate HasSameSector(r: SectorReport, rs: seq<SectorReport>)
  {
    exists j :: 0 <= j < |rs| && SameSector(r, rs[j])
  }
}
