/** The RC_SKU table of database/models/RC_SKU.py and the de-duplicating batch
    insert create_sku_metrics of database/methods/RC_SKU.py. */
module SkuMetrics {
  import opened Wrappers

  /** The order and stock columns of an RC_SKU row. */
  datatype Columns = Columns(plannedOrders: int, plannedOrdersPerSku: int, actualOrders: int, stock: int)

  /** One stored RC_SKU row; `sku` is None where the row was built without one. */
  datatype SkuRow = SkuRow(id: int, sku: Option<string>, columns: Columns)

  /** What RC_SKU(**item) is built from once the item's id is gone. */
  datatype Draft = Draft(sku: Option<string>, columns: Columns)

  /** One caller dictionary of the batch; `None` stands for an absent key.
      The batch insert removes the `id` key of the dictionaries it inserts. */
  class MetricItem {
    var sku: Option<string>
    var id: Option<int>
    var columns: Columns

    constructor (sku: Option<string>, id: Option<int>, columns: Columns)
      ensures this.sku == sku && this.id == id && this.columns == columns
    {
      this.sku := sku;
      this.id := id;
      this.columns := columns;
    }
  }

  /** Python truthiness of item.get('sku'): present and non-empty. */
  predicate Truthy(sku: Option<string>) {
    sku.Some? && sku.value != ""
  }

  /** The existence query: some stored row carries exactly this sku. */
  predicate SkuExists(rows: seq<SkuRow>, sku: string) {
    exists k :: 0 <= k < |rows| && rows[k].sku == Some(sku)
  }

  /** An item is inserted unless its sku is truthy and already stored: an
      item without a sku, or with an empty one, is never skipped, and neither
      is any item when the table is empty. */
  function Qualifies(rows: seq<SkuRow>, sku: Option<string>): (q: bool)
    ensures !Truthy(sku) || rows == [] ==> q
  {
    !(Truthy(sku) && SkuExists(rows, sku.value))
  }

  /** The drafts a batch would add to a table holding `rows`, in batch order.
      Existence is checked against `rows` only, never against earlier items
      of the same batch. */
  function Pending(rows: seq<SkuRow>, batch: seq<Draft>): (r: seq<Draft>)
    ensures |r| <= |batch|
    decreases |batch|
  {
    if batch == [] then []
    else
      var last := batch[|batch| - 1];
      Pending(rows, batch[..|batch| - 1]) + if Qualifies(rows, last.sku) then [last] else []
  }

  /** The drafts added are exactly the batch items that are not skipped. */
  lemma {:induction false} PendingMembers(rows: seq<SkuRow>, batch: seq<Draft>)
    ensures forall d :: d in Pending(rows, batch) <==> d in batch && Qualifies(rows, d.sku)
    decreases |batch|
  {
    if batch != [] {
      var last := batch[|batch| - 1];
      assert batch == batch[..|batch| - 1] + [last];
      PendingMembers(rows, batch[..|batch| - 1]);
    }
  }

  /** The rows an insert of `drafts` stores, with ids drawn from `nextId` on. */
  function RowsFrom(drafts: seq<Draft>, nextId: int): (r: seq<SkuRow>)
    ensures |r| == |drafts|
    ensures forall k :: 0 <= k < |r| ==> r[k] == SkuRow(nextId + k, drafts[k].sku, drafts[k].columns)
  {
    seq(|drafts|, k requires 0 <= k < |drafts| => SkuRow(nextId + k, drafts[k].sku, drafts[k].columns))
  }

  /** Pending works item by item: the drafts of a split batch are the drafts
      of its parts, in batch order. */
  lemma {:induction false} PendingAppend(rows: seq<SkuRow>, a: seq<Draft>, b: seq<Draft>)
    ensures Pending(rows, a + b) == Pending(rows, a) + Pending(rows, b)
    decreases |b|
  {
    if b == [] {
      assert a + b == a;
    } else {
      var last := b[|b| - 1];
      assert a + b == (a + b[..|b| - 1]) + [last];
      PendingAppend(rows, a, b[..|b| - 1]);
    }
  }

  /** Pending of one more item of the batch. */
  lemma PendingSnoc(rows: seq<SkuRow>, batch: seq<Draft>, i: nat)
    requires i < |batch|
    ensures Pending(rows, batch[..i + 1]) ==
      Pending(rows, batch[..i]) + if Qualifies(rows, batch[i].sku) then [batch[i]] else []
  {
    assert batch[..i + 1][..i] == batch[..i];
  }

  /** A single item is added exactly when it qualifies. */
  lemma PendingSingle(rows: seq<SkuRow>, d: Draft)
    ensures Pending(rows, [d]) == if Qualifies(rows, d.sku) then [d] else []
  {
    assert [d][..0] == [];
  }

  /** An item whose sku is absent or empty is never skipped. */
  lemma MissingOrEmptySkuQualifies(rows: seq<SkuRow>, columns: Columns)
    ensures Pending(rows, [Draft(None, columns)]) == [Draft(None, columns)]
    ensures Pending(rows, [Draft(Some(""), columns)]) == [Draft(Some(""), columns)]
  {
    PendingSingle(rows, Draft(None, columns));
    PendingSingle(rows, Draft(Some(""), columns));
  }

  /** Two new items of one batch sharing a sku are both added: existence is
      checked against the stored rows only. */
  lemma BatchDuplicatesBothAdded(rows: seq<SkuRow>, d1: Draft, d2: Draft)
    requires d1.sku == d2.sku && Truthy(d1.sku) && !SkuExists(rows, d1.sku.value)
    ensures Pending(rows, [d1, d2]) == [d1, d2]
  {
    PendingAppend(rows, [d1], [d2]);
    PendingSingle(rows, d1);
    PendingSingle(rows, d2);
  }

  /** Once a batch is stored, running it again adds none of its items that
      carry a truthy sku. */
  lemma {:induction false} RerunSkipsStored(rows: seq<SkuRow>, batch: seq<Draft>, nextId: int, d: Draft)
    requires d in batch && Truthy(d.sku)
    ensures !Qualifies(rows + RowsFrom(Pending(rows, batch), nextId), d.sku)
  {
    var pending := Pending(rows, batch);
    var after := rows + RowsFrom(pending, nextId);
    if SkuExists(rows, d.sku.value) {
      var k :| 0 <= k < |rows| && rows[k].sku == d.sku;
      assert after[k].sku == d.sku;
    } else {
      PendingMembers(rows, batch);
      assert d in pending;
      var k :| 0 <= k < |pending| && pending[k] == d;
      assert after[|rows| + k].sku == d.sku;
    }
  }

  /** The RC_SKU table. */
  class SkuTable {
    var rows: seq<SkuRow>
    var nextId: int

    /** Every id was drawn from the sequence. */
    ghost predicate Valid()
      reads this
    {
      forall k :: 0 <= k < |rows| ==> rows[k].id < nextId
    }

    constructor ()
      ensures Valid() && rows == []
    {
      rows := [];
      nextId := 1;
    }

    /** The drafts of a batch of caller dictionaries, id aside. */
    ghost function Drafts(items: seq<MetricItem>): (ds: seq<Draft>)
      reads items
      ensures |ds| == |items|
    {
      seq(|items|, k reads items requires 0 <= k < |items| => Draft(items[k].sku, items[k].columns))
    }

    /** One step of the loop: an item whose truthy sku is already stored is
        skipped and left as it is; any other item loses its `id` key and
        yields its draft. */
    static method VisitItem(stored: seq<SkuRow>, item: MetricItem) returns (d: Option<Draft>)
      modifies item
      ensures item.sku == old(item.sku) && item.columns == old(item.columns)
      ensures item.id == if Qualifies(stored, item.sku) then None else old(item.id)
      ensures d == if Qualifies(stored, item.sku) then Some(Draft(item.sku, item.columns)) else None
    {
      if Truthy(item.sku) && SkuExists(stored, item.sku.value) {
        d := None;
      } else {
        item.id := None;
        d := Some(Draft(item.sku, item.columns));
      }
    }

    /** The loop of create_sku_metrics: walks the batch, skips every item
        whose truthy sku is already stored and removes the `id` key of every
        other item in place, collecting what is to be added. `stored` is the
        table's rows and the ghost `drafts` the batch as it stands on entry. */
    static method CollectNewMetrics(stored: seq<SkuRow>, items: seq<MetricItem>, ghost drafts: seq<Draft>) returns (toAdd: seq<Draft>)
      requires |drafts| == |items|
      requires forall k :: 0 <= k < |items| ==> drafts[k] == Draft(items[k].sku, items[k].columns)
      modifies items
      ensures toAdd == Pending(stored, drafts)
      ensures forall k :: 0 <= k < |items| ==>
        && items[k].sku == old(items[k].sku)
        && items[k].columns == old(items[k].columns)
        && items[k].id == if Qualifies(stored, items[k].sku) then None else old(items[k].id)
    {
      toAdd := [];
      for i := 0 to |items|
        invariant forall k :: 0 <= k < |items| ==> items[k].sku == drafts[k].sku && items[k].columns == drafts[k].columns
        invariant forall k :: 0 <= k < |items| && !Qualifies(stored, drafts[k].sku) ==> items[k].id == old(items[k].id)
        invariant forall k :: 0 <= k < i && Qualifies(stored, drafts[k].sku) ==> items[k].id == None
        invariant toAdd == Pending(stored, drafts[..i])
      {
        var item := items[i];
        assert Draft(item.sku, item.columns) == drafts[i];
        var d := VisitItem(stored, item);
        if d.Some? {
          toAdd := toAdd + [d.value];
        }
        PendingSnoc(stored, drafts, i);
      }
      assert drafts[..|items|] == drafts;
    }

    /** create_sku_metrics: the loop above, then one commit of everything it
        collected, or no commit when it collected nothing. The sku column is
        NOT NULL, so the commit fails, storing nothing, when an item to add
        has no sku; `committed` reports whether rows were stored. */
    method CreateSkuMetrics(items: seq<MetricItem>) returns (committed: bool)
      requires Valid()
      modifies this, items
      ensures Valid()
      ensures var pending := Pending(old(rows), old(Drafts(items)));
        && committed == (pending != [] && forall k :: 0 <= k < |pending| ==> pending[k].sku.Some?)
        && rows == old(rows) + (if committed then RowsFrom(pending, old(nextId)) else [])
        && nextId == old(nextId) + (if committed then |pending| else 0)
      ensures forall k :: 0 <= k < |items| ==>
        && items[k].sku == old(items[k].sku)
        && items[k].columns == old(items[k].columns)
        && items[k].id == if Qualifies(old(rows), items[k].sku) then None else old(items[k].id)
    {
      var toAdd := CollectNewMetrics(rows, items, Drafts(items));
      committed := toAdd != [] && forall k :: 0 <= k < |toAdd| ==> toAdd[k].sku.Some?;
      if committed {
        rows := rows + RowsFrom(toAdd, nextId);
        nextId := nextId + |toAdd|;
      }
    }
  }
}
