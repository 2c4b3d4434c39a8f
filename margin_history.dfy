/** The margin-history table of database/models/RC_SKU_margin_history.py and
    the operations of database/methods/RC_SKU_margin_history.py, over an
    in-memory table. Dates are day numbers. */
module MarginHistory {
  import opened Wrappers

  /** One row of RC_SKU_margin_history. */
  datatype Entry = Entry(
    id: int,
    skuId: int,
    calculatedMarginPercent: real,
    baseMarginPercent: real,
    createdAt: int)

  /** The default page size of the paged by-date query. */
  const PerPageDefault: nat := 20

  /** The table: its rows in insertion order and the next value of the id sequence. */
  class MarginHistoryTable {
    var entries: seq<Entry>
    var nextId: int

    /** Every id was drawn from the sequence, so ids are distinct. */
    ghost predicate Valid()
      reads this
    {
      && 0 < nextId
      && (forall i :: 0 <= i < |entries| ==> 0 < entries[i].id < nextId)
      && (forall i, j :: 0 <= i < j < |entries| ==> entries[i].id != entries[j].id)
    }

    constructor ()
      ensures Valid() && entries == []
    {
      entries := [];
      nextId := 1;
    }

    /** Adds one entry; its date is the given target date, or `today` (the
        column's server default) when none is given. The id comes from the
        sequence when the row is refreshed after the commit. */
    method CreateMarginHistoryEntry(skuId: int, calculatedMarginPercent: real, baseMarginPercent: real,
                                    targetDate: Option<int>, today: int) returns (e: Entry)
      requires Valid()
      modifies this
      ensures Valid()
      ensures entries == old(entries) + [e]
      ensures e.skuId == skuId
      ensures e.calculatedMarginPercent == calculatedMarginPercent && e.baseMarginPercent == baseMarginPercent
      ensures e.createdAt == (if targetDate.Some? then targetDate.value else today)
      ensures forall i :: 0 <= i < |old(entries)| ==> old(entries)[i].id != e.id
    {
      var createdAt := if targetDate.Some? then targetDate.value else today;
      e := Entry(nextId, skuId, calculatedMarginPercent, baseMarginPercent, createdAt);
      entries := entries + [e];
      nextId := nextId + 1;
    }
  }

  /** get_latest_margin_history: an entry of the SKU with the greatest date,
      or None when the SKU has no entry. The query has no second sort key, so
      which of several entries sharing that date comes back is not part of
      the contract. */
  function Latest(entries: seq<Entry>, skuId: int): (r: Option<Entry>)
    ensures r.None? <==> forall e :: e in entries ==> e.skuId != skuId
    ensures r.Some? ==> r.value in entries && r.value.skuId == skuId
    ensures r.Some? ==> forall e :: e in entries && e.skuId == skuId ==> e.createdAt <= r.value.createdAt
    decreases |entries|
  {
    if entries == [] then None
    else
      var last := entries[|entries| - 1];
      var prior := Latest(entries[..|entries| - 1], skuId);
      assert entries == entries[..|entries| - 1] + [last];
      if last.skuId != skuId then prior
      else if prior.Some? && prior.value.createdAt >= last.createdAt then prior
      else Some(last)
  }

  /** get_margin_history_by_date: an entry of the SKU dated exactly `date`, or
      None when there is none. */
  function ByDate(entries: seq<Entry>, skuId: int, date: int): (r: Option<Entry>)
    ensures r.None? <==> forall e :: e in entries ==> !(e.skuId == skuId && e.createdAt == date)
    ensures r.Some? ==> r.value in entries && r.value.skuId == skuId && r.value.createdAt == date
    decreases |entries|
  {
    if entries == [] then None
    else if entries[0].skuId == skuId && entries[0].createdAt == date then Some(entries[0])
    else
      assert entries == [entries[0]] + entries[1..];
      ByDate(entries[1..], skuId, date)
  }

  /** The entries dated `date`, in table order. */
  function OnDate(entries: seq<Entry>, date: int): (r: seq<Entry>)
    ensures forall e :: e in r <==> e in entries && e.createdAt == date
    ensures multiset(r) <= multiset(entries)
    ensures forall e :: multiset(r)[e] == if e.createdAt == date then multiset(entries)[e] else 0
    decreases |entries|
  {
    if entries == [] then []
    else
      var last := entries[|entries| - 1];
      var prior := OnDate(entries[..|entries| - 1], date);
      assert entries == entries[..|entries| - 1] + [last];
      if last.createdAt == date then prior + [last] else prior
  }

  ghost predicate SortedBySku(s: seq<Entry>) {
    forall i, j :: 0 <= i < j < |s| ==> s[i].skuId <= s[j].skuId
  }

  /** Puts `e` before the first entry of `s` with a greater sku_id. */
  function InsertBySku(e: Entry, s: seq<Entry>): (r: seq<Entry>)
    ensures multiset(r) == multiset(s) + multiset{e}
    ensures |r| == |s| + 1
  {
    if s == [] then [e]
    else if e.skuId <= s[0].skuId then [e] + s
    else
      assert s == [s[0]] + s[1..];
      [s[0]] + InsertBySku(e, s[1..])
  }

  /** Inserting into a sorted sequence keeps it sorted. */
  lemma {:induction false} InsertBySkuSorted(e: Entry, s: seq<Entry>)
    requires SortedBySku(s)
    ensures SortedBySku(InsertBySku(e, s))
  {
    if s != [] && e.skuId > s[0].skuId {
      InsertBySkuSorted(e, s[1..]);
      var tail := InsertBySku(e, s[1..]);
      forall k | 0 <= k < |tail|
        ensures s[0].skuId <= tail[k].skuId
      {
        assert tail[k] in multiset(s[1..]) + multiset{e};
        if tail[k] != e {
          var j :| 0 <= j < |s[1..]| && s[1..][j] == tail[k];
          assert s[j + 1] == tail[k];
        }
      }
    }
  }

  /** ORDER BY sku_id: a sorted permutation. Among equal sku_ids the database
      promises no order; this one keeps table order. */
  function SortBySku(s: seq<Entry>): (r: seq<Entry>)
    ensures SortedBySku(r)
    ensures multiset(r) == multiset(s)
    ensures |r| == |s|
  {
    if s == [] then []
    else
      assert s == [s[0]] + s[1..];
      var sorted := SortBySku(s[1..]);
      InsertBySkuSorted(s[0], sorted);
      InsertBySku(s[0], sorted)
  }

  /** The page number after clamping: pages below 1 read as page 1. */
  function ClampPage(page: int): (p: int)
    ensures p >= 1
    ensures page >= 1 ==> p == page
  {
    if page < 1 then 1 else page
  }

  /** OFFSET/LIMIT on a sorted result. */
  function Slice(s: seq<Entry>, offset: nat, limit: nat): (r: seq<Entry>)
    ensures |r| <= limit
    ensures offset >= |s| ==> r == []
    ensures offset < |s| ==> r == s[offset..if offset + limit <= |s| then offset + limit else |s|]
  {
    if offset >= |s| then []
    else if offset + limit <= |s| then s[offset..offset + limit]
    else s[offset..]
  }

  /** Every entry of a slice is an entry of the sliced sequence. */
  lemma SliceWithin(s: seq<Entry>, offset: nat, limit: nat)
    ensures forall e :: e in Slice(s, offset, limit) ==> e in s
  {
    var r := Slice(s, offset, limit);
    forall e | e in r ensures e in s {
      var k :| 0 <= k < |r| && r[k] == e;
      assert s[offset + k] == e;
    }
  }

  /** get_all_margin_history_by_date: the entries dated `date`, sorted by
      sku_id, page `page` (clamped to at least 1) of `perPage` entries. */
  function AllByDate(entries: seq<Entry>, date: int, page: int, perPage: nat): (r: seq<Entry>)
    ensures |r| <= perPage
    ensures forall e :: e in r ==> e in entries && e.createdAt == date
    ensures r == Slice(SortBySku(OnDate(entries, date)), (ClampPage(page) - 1) * perPage, perPage)
  {
    var onDate := OnDate(entries, date);
    var sorted := SortBySku(onDate);
    var r := Slice(sorted, (ClampPage(page) - 1) * perPage, perPage);
    SliceWithin(sorted, (ClampPage(page) - 1) * perPage, perPage);
    assert forall e :: e in r ==> e in multiset(onDate);
    r
  }

  /** After an entry is appended, the latest date of its SKU is the greater
      of the previous latest date and the new entry's date. */
  lemma LatestAfterAppend(entries: seq<Entry>, e: Entry)
    ensures Latest(entries + [e], e.skuId).Some?
    ensures Latest(entries + [e], e.skuId).value.createdAt ==
      match Latest(entries, e.skuId)
      case None => e.createdAt
      case Some(prior) => if prior.createdAt >= e.createdAt then prior.createdAt else e.createdAt
  {
    assert (entries + [e])[..|entries|] == entries;
  }

  /** Appending an entry of one SKU leaves every other SKU's latest entry alone. */
  lemma LatestOfOtherSkuUnchanged(entries: seq<Entry>, e: Entry, skuId: int)
    requires skuId != e.skuId
    ensures Latest(entries + [e], skuId) == Latest(entries, skuId)
  {
    assert (entries + [e])[..|entries|] == entries;
  }

  /** Dates appended out of order: 2024-01-01, 2024-01-03, 2024-01-02 (as day
      numbers 1, 3, 2); the latest is the 2024-01-03 entry. */
  lemma LatestIgnoresCreationOrder(sku: int, m1: real, m3: real, m2: real)
    ensures Latest([Entry(1, sku, m1, 0.0, 1), Entry(2, sku, m3, 0.0, 3), Entry(3, sku, m2, 0.0, 2)], sku)
         == Some(Entry(2, sku, m3, 0.0, 3))
  {
    var entries := [Entry(1, sku, m1, 0.0, 1), Entry(2, sku, m3, 0.0, 3), Entry(3, sku, m2, 0.0, 2)];
    assert entries[..2] == [Entry(1, sku, m1, 0.0, 1), Entry(2, sku, m3, 0.0, 3)];
    assert entries[..2][..1] == [Entry(1, sku, m1, 0.0, 1)];
    assert entries[..2][..1][..0] == [];
  }

  /** A freshly created entry is found by its own SKU and date. */
  lemma ByDateFindsAppended(entries: seq<Entry>, e: Entry)
    ensures ByDate(entries + [e], e.skuId, e.createdAt).Some?
  {
    assert e in entries + [e];
  }

  /** A page number below 1 reads the first page. */
  lemma PageBelowOneIsFirst(entries: seq<Entry>, date: int, page: int, perPage: nat)
    requires page < 1
    ensures AllByDate(entries, date, page, perPage) == AllByDate(entries, date, 1, perPage)
  {
  }

  /** The first `pages` pages of `perPage` entries of `sorted`, back to back. */
  function Pages(sorted: seq<Entry>, pages: nat, perPage: nat): seq<Entry>
  {
    if pages == 0 then [] else Pages(sorted, pages - 1, perPage) + Slice(sorted, (pages - 1) * perPage, perPage)
  }

  function Prefix(s: seq<Entry>, n: nat): seq<Entry> {
    s[..if n <= |s| then n else |s|]
  }

  lemma MulSucc(a: nat, b: nat)
    ensures 0 <= a * b && (a + 1) * b == a * b + b
  {
  }

  /** Over one fixed order, OFFSET/LIMIT pages neither skip nor repeat:
      pages 1..p together are the first p * perPage entries. */
  lemma {:induction false} PagesTile(sorted: seq<Entry>, pages: nat, perPage: nat)
    ensures Pages(sorted, pages, perPage) == Prefix(sorted, pages * perPage)
  {
    if pages > 0 {
      MulSucc(pages - 1, perPage);
      PagesTile(sorted, pages - 1, perPage);
    }
  }

  /** Page p of the by-date query is the piece that Pages adds for p, when
      every page is read in the same order. */
  lemma ByDatePageIsNextPiece(entries: seq<Entry>, date: int, page: nat, perPage: nat)
    requires page >= 1
    ensures var sorted := SortBySku(OnDate(entries, date));
      Pages(sorted, page, perPage) == Pages(sorted, page - 1, perPage) + AllByDate(entries, date, page, perPage)
  {
  }

  /** With the default page size, the first page holds the first twenty
      entries of the date in sku_id order, or all of them when there are
      fewer. */
  lemma DefaultFirstPage(entries: seq<Entry>, date: int)
    ensures var onDate := OnDate(entries, date);
      AllByDate(entries, date, 1, PerPageDefault) == Prefix(SortBySku(onDate), 20)
      && |AllByDate(entries, date, 1, PerPageDefault)| == if |onDate| < 20 then |onDate| else 20
  {
    var sorted := SortBySku(OnDate(entries, date));
    assert ClampPage(1) == 1;
    assert AllByDate(entries, date, 1, PerPageDefault) == Slice(sorted, 0, 20);
    assert Slice(sorted, 0, 20) == Prefix(sorted, 20);
  }
}
