/**
 * The reshaping of one decoded reply into flat rows (the second half of
 * `process_invoice_file`): a base record of invoice-level columns shared by every row,
 * merged with the line-item columns of each item in turn.
 */
module RowFlattener {
  import opened Wrappers
  import opened Errors
  import opened Json
  import opened Columns

  /** A flat row: column header to value, None standing for Python's None. */
  type Row = map<string, Option<Json>>

  /** The six groups of one reply, each already known to be an object (absent ones are empty). */
  datatype InvoiceGroups = InvoiceGroups(
    header: map<string, Json>, supplier: map<string, Json>, buyer: map<string, Json>,
    logistics: map<string, Json>, eWayBill: map<string, Json>, summary: map<string, Json>)

  function Fields(gs: InvoiceGroups, g: Group): map<string, Json> {
    match g
    case HeaderGroup => gs.header
    case SupplierGroup => gs.supplier
    case BuyerGroup => gs.buyer
    case LogisticsGroup => gs.logistics
    case EWayBillGroup => gs.eWayBill
    case SummaryGroup => gs.summary
  }

  /** A group is absent or an object: calling `.get` on anything else (null included) raises. */
  predicate GroupWellFormed(top: map<string, Json>, g: Group) {
    GroupKey(g) !in top || top[GroupKey(g)].JObject?
  }

  /** All six groups are absent or objects. */
  predicate GroupsWellFormed(top: map<string, Json>) {
    GroupWellFormed(top, HeaderGroup) && GroupWellFormed(top, SupplierGroup) && GroupWellFormed(top, BuyerGroup)
    && GroupWellFormed(top, LogisticsGroup) && GroupWellFormed(top, EWayBillGroup) && GroupWellFormed(top, SummaryGroup)
  }

  /** `data.get(groupKey, {})` for a well-formed group: an absent group is empty. */
  function GroupFields(top: map<string, Json>, g: Group): map<string, Json>
    requires GroupWellFormed(top, g)
  {
    if GroupKey(g) in top then top[GroupKey(g)].fields else map[]
  }

  /** The six groups of a reply, or the exception raised by the first one that is not an object. */
  function GroupsOf(top: map<string, Json>): (r: Result<InvoiceGroups, Failure>)
    ensures r.Success? <==> GroupsWellFormed(top)
    ensures r.Success? ==> forall g: Group :: Fields(r.value, g) == GroupFields(top, g)
  {
    if GroupsWellFormed(top) then
      Success(InvoiceGroups(
        GroupFields(top, HeaderGroup), GroupFields(top, SupplierGroup), GroupFields(top, BuyerGroup),
        GroupFields(top, LogisticsGroup), GroupFields(top, EWayBillGroup), GroupFields(top, SummaryGroup)))
    else Failure(MalformedReply)
  }

  /** The value of the invoice-level column a header denotes. */
  function BaseValue(gs: InvoiceGroups, name: string): Option<Json> {
    match ColumnNamed(name)
    case Some(BaseCol(c)) => Get(Fields(gs, GroupOf(c)), Key(c))
    case _ => None
  }

  /** The invoice-level record, one entry per base column header. */
  function BaseRecord(gs: InvoiceGroups): Row {
    map name | name in BaseColumnNames :: BaseValue(gs, name)
  }

  /** The base record has exactly the base columns. */
  lemma BaseRecordKeys(gs: InvoiceGroups)
    ensures BaseRecord(gs).Keys == BaseColumnNames
  {
  }

  /** Each base column holds `group.get(key)` for its fixed group and key. */
  lemma BaseRecordValue(gs: InvoiceGroups, c: BaseColumn)
    requires c in BaseColumns
    ensures BaseColumnName(c) in BaseRecord(gs)
    ensures BaseRecord(gs)[BaseColumnName(c)] == Get(Fields(gs, GroupOf(c)), Key(c))
  {
    ColumnNameRoundTrip(BaseCol(c));
  }

  /** The value of the line-item column a header denotes. */
  function ItemValue(item: map<string, Json>, name: string): Option<Json> {
    match ColumnNamed(name)
    case Some(ItemCol(f)) => Get(item, ItemKey(f))
    case _ => None
  }

  /** The line-item part of a row, one entry per item column header. */
  function ItemRecord(item: map<string, Json>): Row {
    map name | name in ItemColumnNames :: ItemValue(item, name)
  }

  /** The item record has exactly the item columns. */
  lemma ItemRecordKeys(item: map<string, Json>)
    ensures ItemRecord(item).Keys == ItemColumnNames
  {
  }

  /** Each item column holds `item.get(key)`. */
  lemma ItemRecordValue(item: map<string, Json>, f: ItemField)
    requires f in ItemFields
    ensures ItemColumnName(f) in ItemRecord(item)
    ensures ItemRecord(item)[ItemColumnName(f)] == Get(item, ItemKey(f))
  {
    ColumnNameRoundTrip(ItemCol(f));
  }

  /** A full row has the base columns and the item columns. */
  lemma FullRowKeys(base: Row, item: map<string, Json>)
    requires base.Keys == BaseColumnNames
    ensures FullRow(base, item).Keys == BaseColumnNames + ItemColumnNames
  {
    ItemRecordKeys(item);
  }

  /** Since the two header sets are disjoint, no item column overwrites a base column. */
  lemma FullRowBaseValue(base: Row, item: map<string, Json>, name: string)
    requires name in base && name in BaseColumnNames
    ensures name in FullRow(base, item) && FullRow(base, item)[name] == base[name]
  {
    ItemRecordKeys(item);
    ColumnNamesDisjoint();
  }

  /** A full row holds the item's value in every item column. */
  lemma FullRowItemValue(base: Row, item: map<string, Json>, f: ItemField)
    requires f in ItemFields
    ensures ItemColumnName(f) in FullRow(base, item)
    ensures FullRow(base, item)[ItemColumnName(f)] == Get(item, ItemKey(f))
  {
    ItemRecordValue(item, f);
  }

  /** `{**base_data, ...item columns...}` */
  function FullRow(base: Row, item: map<string, Json>): Row {
    base + ItemRecord(item)
  }

  /**
   * The sequence iterated over: `data.get('lineItems', [{}])`, replaced by `[{}]` when falsy.
   * A truthy value that is not a list cannot yield objects (iterating a dict or a string gives
   * strings, a number or `true` is not iterable), so it raises.
   */
  function LineItemsOf(top: map<string, Json>): (r: Result<seq<Json>, Failure>)
    ensures LineItemsKey !in top ==> r == Success([JObject(map[])])
    ensures LineItemsKey in top && !Truthy(top[LineItemsKey]) ==> r == Success([JObject(map[])])
    ensures LineItemsKey in top && Truthy(top[LineItemsKey]) ==>
      (r.Success? <==> top[LineItemsKey].JArray?) && (r.Success? ==> r.value == top[LineItemsKey].items)
  {
    var v := if LineItemsKey in top then top[LineItemsKey] else JArray([JObject(map[])]);
    if !Truthy(v) then Success([JObject(map[])])
    else
      match v
      case JArray(xs) => Success(xs)
      case _ => Failure(MalformedReply)
  }

  /** The items as objects, in order; an item that is not an object raises at `item.get`. */
  function ItemObjects(items: seq<Json>): Result<seq<map<string, Json>>, Failure> {
    if items == [] then Success([])
    else
      match (ItemObjects(items[..|items| - 1]), items[|items| - 1])
      case (Success(objs), JObject(m)) => Success(objs + [m])
      case _ => Failure(MalformedReply)
  }

  /** One row per item object, in order, each the base record merged with that item. */
  function RowsOf(base: Row, objs: seq<map<string, Json>>): (rows: seq<Row>)
    ensures |rows| == |objs| && forall i :: 0 <= i < |objs| ==> rows[i] == FullRow(base, objs[i])
  {
    seq(|objs|, i requires 0 <= i < |objs| => FullRow(base, objs[i]))
  }

  /** One more item object adds its row at the end. */
  lemma RowsOfSnoc(base: Row, objs: seq<map<string, Json>>, m: map<string, Json>)
    ensures RowsOf(base, objs + [m]) == RowsOf(base, objs) + [FullRow(base, m)]
  {
    assert forall i :: 0 <= i < |objs| ==> (objs + [m])[i] == objs[i];
  }

  /** The rows built on one base record from the line items, or the exception a non-object item raises. */
  function ItemRows(base: Row, items: seq<Json>): Result<seq<Row>, Failure> {
    match ItemObjects(items)
    case Success(objs) => Success(RowsOf(base, objs))
    case Failure(e) => Failure(e)
  }

  /** The flattening of one decoded reply, as a value. */
  function Flattened(data: Json): Result<seq<Row>, Failure> {
    match data
    case JObject(top) =>
      (match (GroupsOf(top), LineItemsOf(top))
       case (Success(gs), Success(items)) => ItemRows(BaseRecord(gs), items)
       case (Failure(e), _) => Failure(e)
       case (_, Failure(e)) => Failure(e))
    case _ => Failure(MalformedReply)
  }

  /** The row-building loop of `process_invoice_file`: one row per item, stopping at a non-object. */
  method BuildRows(baseData: Row, items: seq<Json>) returns (r: Result<seq<Row>, Failure>)
    ensures r == ItemRows(baseData, items)
  {
    var allRows: seq<Row> := [];
    var i := 0;
    while i < |items|
      invariant 0 <= i <= |items|
      invariant ItemObjects(items[..i]).Success?
      invariant allRows == RowsOf(baseData, ItemObjects(items[..i]).value)
    {
      assert items[..i + 1][..i] == items[..i];
      if !items[i].JObject? {
        ItemObjectsFailureIsFinal(items, i + 1);
        return Failure(MalformedReply);
      }
      ghost var objs := ItemObjects(items[..i]).value;
      assert ItemObjects(items[..i + 1]) == Success(objs + [items[i].fields]);
      RowsOfSnoc(baseData, objs, items[i].fields);
      allRows := allRows + [FullRow(baseData, items[i].fields)];
      i := i + 1;
    }
    assert items[..i] == items;
    r := Success(allRows);
  }

  /** The body of `process_invoice_file` after the reply is decoded. */
  method Flatten(data: Json) returns (r: Result<seq<Row>, Failure>)
    ensures r == Flattened(data)
  {
    if !data.JObject? {
      return Failure(MalformedReply);
    }
    var top := data.fields;
    var groups := GroupsOf(top);
    if groups.Failure? {
      return Failure(groups.error);
    }
    var baseData := BaseRecord(groups.value);
    var lineItems := LineItemsOf(top);
    if lineItems.Failure? {
      return Failure(lineItems.error);
    }
    r := BuildRows(baseData, lineItems.value);
  }

  // ---------------------------------------------------------------------------
  // Properties

  lemma {:induction false} ItemObjectsFailureIsFinal(items: seq<Json>, n: nat)
    requires n <= |items| && ItemObjects(items[..n]).Failure?
    ensures ItemObjects(items) == Failure(MalformedReply)
  {
    if n < |items| {
      var m := |items| - 1;
      assert items[..m][..n] == items[..n];
      ItemObjectsFailureIsFinal(items[..m], n);
    } else {
      assert items[..n] == items;
    }
  }

  /** The items pass exactly when every one is an object, and then come out one per item, in order. */
  lemma {:induction false} ItemObjectsSpec(items: seq<Json>)
    ensures ItemObjects(items).Success? <==> forall i :: 0 <= i < |items| ==> items[i].JObject?
    ensures ItemObjects(items).Success? ==>
      (|ItemObjects(items).value| == |items|
       && forall i :: 0 <= i < |items| ==> ItemObjects(items).value[i] == items[i].fields)
  {
    if items != [] {
      var n := |items| - 1;
      ItemObjectsSpec(items[..n]);
      assert forall i :: 0 <= i < n ==> items[..n][i] == items[i];
    }
  }

  /** An item that is not an object: the whole flattening raises. */
  predicate LineItemsWellFormed(top: map<string, Json>) {
    LineItemsKey !in top || !Truthy(top[LineItemsKey])
    || (top[LineItemsKey].JArray? && forall i :: 0 <= i < |top[LineItemsKey].items| ==> top[LineItemsKey].items[i].JObject?)
  }

  /** The groups of a reply that flattens. */
  function GroupsIn(data: Json): InvoiceGroups
    requires Flattened(data).Success?
  {
    GroupsOf(data.fields).value
  }

  /** The line items of a reply that flattens, as objects, `[{}]` standing in for none. */
  function ItemsIn(data: Json): seq<map<string, Json>>
    requires Flattened(data).Success?
  {
    ItemObjects(LineItemsOf(data.fields).value).value
  }

  /** The rows of a reply that flattens: one per item, in order, built on one base record. */
  lemma FlattenedRows(data: Json)
    requires Flattened(data).Success?
    ensures Flattened(data).value == RowsOf(BaseRecord(GroupsIn(data)), ItemsIn(data))
  {
  }

  /**
   * The flattening succeeds exactly when the reply is an object whose present groups are
   * objects and whose `lineItems`, if truthy, is a list of objects; a missing group or key
   * is never an error.
   */
  lemma FlattenedSucceedsIff(data: Json)
    ensures Flattened(data).Success? <==>
      data.JObject? && GroupsWellFormed(data.fields) && LineItemsWellFormed(data.fields)
    ensures Flattened(data).Failure? ==> Flattened(data).error == MalformedReply
  {
    if data.JObject? {
      var top := data.fields;
      if GroupsOf(top).Success? && LineItemsOf(top).Success? {
        ItemObjectsSpec(LineItemsOf(top).value);
        if LineItemsKey !in top || !Truthy(top[LineItemsKey]) {
          assert LineItemsOf(top).value[0].JObject?;
        }
      }
    }
  }

  /**
   * With `lineItems` absent or falsy (an empty list included) there is exactly one row:
   * the base record with every item column None.
   */
  lemma FlattenedWithoutItems(data: Json)
    requires data.JObject? && GroupsWellFormed(data.fields)
    requires LineItemsKey !in data.fields || !Truthy(data.fields[LineItemsKey])
    ensures Flattened(data).Success? && |Flattened(data).value| == 1
    ensures Flattened(data).value[0] == FullRow(BaseRecord(GroupsIn(data)), map[])
    ensures Flattened(data).value[0].Keys == BaseColumnNames + ItemColumnNames
    ensures forall f :: f in ItemFields ==> Flattened(data).value[0][ItemColumnName(f)] == None
  {
    var gs := GroupsOf(data.fields).value;
    var none: map<string, Json> := map[];
    assert ItemObjects([JObject(none)]) == Success([none]) by {
      assert [JObject(none)][..0] == [];
      assert ItemObjects([]) == Success([]);
      assert [] + [none] == [none];
    }
    assert LineItemsOf(data.fields) == Success([JObject(none)]);
    var base := BaseRecord(gs);
    var rows := RowsOf(base, [none]);
    assert Flattened(data) == Success(rows);
    BaseRecordKeys(gs);
    FullRowKeys(base, none);
    forall f | f in ItemFields
      ensures rows[0][ItemColumnName(f)] == None
    {
      FullRowItemValue(base, none, f);
    }
  }

  /** With N >= 1 items there are exactly N rows, row i built from item i. */
  lemma FlattenedWithItems(data: Json)
    requires data.JObject? && GroupsWellFormed(data.fields) && LineItemsKey in data.fields
    requires data.fields[LineItemsKey].JArray? && |data.fields[LineItemsKey].items| >= 1
    requires forall i :: 0 <= i < |data.fields[LineItemsKey].items| ==> data.fields[LineItemsKey].items[i].JObject?
    ensures Flattened(data).Success?
    ensures |Flattened(data).value| == |data.fields[LineItemsKey].items|
    ensures forall i :: 0 <= i < |Flattened(data).value| ==>
      Flattened(data).value[i] == FullRow(BaseRecord(GroupsIn(data)), data.fields[LineItemsKey].items[i].fields)
  {
    ItemObjectsSpec(data.fields[LineItemsKey].items);
  }

  /** Every successful flattening gives at least one row. */
  lemma FlattenedNonEmpty(data: Json)
    requires Flattened(data).Success?
    ensures |Flattened(data).value| >= 1
  {
    FlattenedSucceedsIff(data);
    var top := data.fields;
    if LineItemsKey !in top || !Truthy(top[LineItemsKey]) {
      FlattenedWithoutItems(data);
    } else {
      FlattenedWithItems(data);
    }
  }

  /** Row i of a reply that flattens is the base record merged with item i. */
  lemma FlattenedRow(data: Json, i: nat)
    requires Flattened(data).Success? && i < |Flattened(data).value|
    ensures i < |ItemsIn(data)|
    ensures Flattened(data).value[i] == FullRow(BaseRecord(GroupsIn(data)), ItemsIn(data)[i])
  {
    FlattenedRows(data);
  }

  /** Every row of one invoice has exactly the base and item columns. */
  lemma FlattenedRowKeys(data: Json, i: nat)
    requires Flattened(data).Success? && i < |Flattened(data).value|
    ensures Flattened(data).value[i].Keys == BaseColumnNames + ItemColumnNames
  {
    FlattenedRow(data, i);
    BaseRecordKeys(GroupsIn(data));
    FullRowKeys(BaseRecord(GroupsIn(data)), ItemsIn(data)[i]);
  }

  /** A base column of any row holds `group.get(key)` for its fixed group and key. */
  lemma FlattenedBaseValue(data: Json, i: nat, c: BaseColumn)
    requires Flattened(data).Success? && i < |Flattened(data).value| && c in BaseColumns
    ensures BaseColumnName(c) in Flattened(data).value[i]
    ensures Flattened(data).value[i][BaseColumnName(c)] == Get(Fields(GroupsIn(data), GroupOf(c)), Key(c))
  {
    FlattenedRow(data, i);
    BaseRecordValue(GroupsIn(data), c);
    FullRowBaseValue(BaseRecord(GroupsIn(data)), ItemsIn(data)[i], BaseColumnName(c));
  }

  /** An item column of row i holds `item.get(key)` of item i. */
  lemma FlattenedItemValue(data: Json, i: nat, f: ItemField)
    requires Flattened(data).Success? && i < |Flattened(data).value| && f in ItemFields
    ensures i < |ItemsIn(data)|
    ensures ItemColumnName(f) in Flattened(data).value[i]
    ensures Flattened(data).value[i][ItemColumnName(f)] == Get(ItemsIn(data)[i], ItemKey(f))
  {
    FlattenedRow(data, i);
    FullRowItemValue(BaseRecord(GroupsIn(data)), ItemsIn(data)[i], f);
  }

  /**
   * Every row of one invoice has exactly the base and item columns; each base column holds
   * `group.get(key)` for its fixed group and key, the same in every row, and each item
   * column holds `item.get(key)` of the row's own item.
   */
  lemma FlattenedRowsShareBase(data: Json, i: nat)
    requires Flattened(data).Success? && i < |Flattened(data).value|
    ensures i < |ItemsIn(data)|
    ensures Flattened(data).value[i].Keys == BaseColumnNames + ItemColumnNames
    ensures forall c :: c in BaseColumns ==>
      Flattened(data).value[i][BaseColumnName(c)] == Get(Fields(GroupsIn(data), GroupOf(c)), Key(c))
    ensures forall f :: f in ItemFields ==>
      Flattened(data).value[i][ItemColumnName(f)] == Get(ItemsIn(data)[i], ItemKey(f))
  {
    FlattenedRow(data, i);
    FlattenedRowKeys(data, i);
    forall c | c in BaseColumns
      ensures Flattened(data).value[i][BaseColumnName(c)] == Get(Fields(GroupsIn(data), GroupOf(c)), Key(c))
    {
      FlattenedBaseValue(data, i, c);
    }
    forall f | f in ItemFields
      ensures Flattened(data).value[i][ItemColumnName(f)] == Get(ItemsIn(data)[i], ItemKey(f))
    {
      FlattenedItemValue(data, i, f);
    }
  }

  /** Two rows of the same invoice agree on every base column. */
  lemma FlattenedBaseIdentical(data: Json, i: nat, j: nat, c: BaseColumn)
    requires Flattened(data).Success? && i < |Flattened(data).value| && j < |Flattened(data).value|
    requires c in BaseColumns
    ensures BaseColumnName(c) in Flattened(data).value[i] && BaseColumnName(c) in Flattened(data).value[j]
    ensures Flattened(data).value[i][BaseColumnName(c)] == Flattened(data).value[j][BaseColumnName(c)]
  {
    FlattenedBaseValue(data, i, c);
    FlattenedBaseValue(data, j, c);
  }

  // ---------------------------------------------------------------------------
  // The schema round trip

  /** A leaf of the reply schema: a key of one of the six groups, or a key of a line item. */
  datatype FieldRef = GroupField(group: Group, key: string) | LineItemField(itemKey: string)

  /** The keys the prompt's schema lists for a group: those read by a column, plus summary.totalAmount. */
  function SchemaKeys(g: Group): set<string> {
    (set c | c in BaseColumns && GroupOf(c) == g :: Key(c)) + (if g == SummaryGroup then {"totalAmount"} else {})
  }

  const ItemKeys: set<string> := set f | f in ItemFields :: ItemKey(f)

  function SyntheticItem(sentinel: FieldRef -> Json): map<string, Json> {
    map k | k in ItemKeys :: sentinel(LineItemField(k))
  }

  function SyntheticGroup(g: Group, sentinel: FieldRef -> Json): Json {
    JObject(map k | k in SchemaKeys(g) :: sentinel(GroupField(g, k)))
  }

  /** A reply object holding the given value under each group's key and the given line items. */
  function ReplyObject(groups: Group -> Json, lineItems: Json): Json {
    JObject(map[
      GroupKey(HeaderGroup) := groups(HeaderGroup),
      GroupKey(SupplierGroup) := groups(SupplierGroup),
      GroupKey(BuyerGroup) := groups(BuyerGroup),
      GroupKey(LogisticsGroup) := groups(LogisticsGroup),
      GroupKey(EWayBillGroup) := groups(EWayBillGroup),
      GroupKey(SummaryGroup) := groups(SummaryGroup),
      LineItemsKey := lineItems])
  }

  /** The six group keys and `lineItems` are distinct keys of the reply object. */
  lemma ReplyObjectAt(groups: Group -> Json, lineItems: Json, g: Group)
    ensures GroupKey(g) in ReplyObject(groups, lineItems).fields
    ensures ReplyObject(groups, lineItems).fields[GroupKey(g)] == groups(g)
    ensures LineItemsKey in ReplyObject(groups, lineItems).fields
    ensures ReplyObject(groups, lineItems).fields[LineItemsKey] == lineItems
  {
    match g
    case HeaderGroup =>
    case SupplierGroup =>
    case BuyerGroup =>
    case LogisticsGroup =>
    case EWayBillGroup =>
    case SummaryGroup =>
  }

  /** A reply filling every schema leaf with its own sentinel value, with a single line item. */
  function SyntheticInvoice(sentinel: FieldRef -> Json): Json {
    ReplyObject(g => SyntheticGroup(g, sentinel), JArray([JObject(SyntheticItem(sentinel))]))
  }

  /** The synthetic reply's groups are objects and its line items are one object. */
  lemma SyntheticInvoiceShape(sentinel: FieldRef -> Json)
    ensures SyntheticInvoice(sentinel).JObject?
    ensures forall g ::
      GroupWellFormed(SyntheticInvoice(sentinel).fields, g)
      && GroupFields(SyntheticInvoice(sentinel).fields, g) == SyntheticGroup(g, sentinel).fields
    ensures GroupsWellFormed(SyntheticInvoice(sentinel).fields)
    ensures LineItemsKey in SyntheticInvoice(sentinel).fields
    ensures SyntheticInvoice(sentinel).fields[LineItemsKey] == JArray([JObject(SyntheticItem(sentinel))])
  {
    var groups := g => SyntheticGroup(g, sentinel);
    var lineItems := JArray([JObject(SyntheticItem(sentinel))]);
    forall g
      ensures GroupKey(g) in SyntheticInvoice(sentinel).fields
      ensures SyntheticInvoice(sentinel).fields[GroupKey(g)] == SyntheticGroup(g, sentinel)
    {
      ReplyObjectAt(groups, lineItems, g);
    }
    ReplyObjectAt(groups, lineItems, HeaderGroup);
  }

  /** A column's key is among its group's schema keys, so the synthetic group holds its sentinel. */
  lemma SyntheticGroupHolds(c: BaseColumn, sentinel: FieldRef -> Json)
    requires c in BaseColumns
    ensures Key(c) in SyntheticGroup(GroupOf(c), sentinel).fields
    ensures SyntheticGroup(GroupOf(c), sentinel).fields[Key(c)] == sentinel(GroupField(GroupOf(c), Key(c)))
  {
    assert Key(c) in SchemaKeys(GroupOf(c));
  }

  /** An item key is in the schema, so the synthetic item holds its sentinel. */
  lemma SyntheticItemHolds(f: ItemField, sentinel: FieldRef -> Json)
    requires f in ItemFields
    ensures ItemKey(f) in SyntheticItem(sentinel)
    ensures SyntheticItem(sentinel)[ItemKey(f)] == sentinel(LineItemField(ItemKey(f)))
  {
    assert ItemKey(f) in ItemKeys;
  }

  /** The synthetic reply flattens to one row: its base record merged with its one item. */
  lemma SentinelFlattens(sentinel: FieldRef -> Json)
    ensures Flattened(SyntheticInvoice(sentinel)).Success?
    ensures |Flattened(SyntheticInvoice(sentinel)).value| == 1
    ensures Flattened(SyntheticInvoice(sentinel)).value[0]
      == FullRow(BaseRecord(GroupsIn(SyntheticInvoice(sentinel))), SyntheticItem(sentinel))
  {
    SyntheticInvoiceShape(sentinel);
    FlattenedWithItems(SyntheticInvoice(sentinel));
  }

  /** The groups the flattener reads from the synthetic reply are the synthetic groups. */
  lemma SyntheticGroupsIn(sentinel: FieldRef -> Json, g: Group)
    ensures Flattened(SyntheticInvoice(sentinel)).Success?
    ensures Fields(GroupsIn(SyntheticInvoice(sentinel)), g) == SyntheticGroup(g, sentinel).fields
  {
    SentinelFlattens(sentinel);
    SyntheticInvoiceShape(sentinel);
  }

  /** A base column of the synthetic row holds the sentinel of the leaf it reads. */
  lemma SentinelBaseValue(sentinel: FieldRef -> Json, c: BaseColumn)
    requires c in BaseColumns && sentinel(GroupField(GroupOf(c), Key(c))) != JNull
    ensures Flattened(SyntheticInvoice(sentinel)).Success?
    ensures |Flattened(SyntheticInvoice(sentinel)).value| == 1
    ensures BaseColumnName(c) in Flattened(SyntheticInvoice(sentinel)).value[0]
    ensures Flattened(SyntheticInvoice(sentinel)).value[0][BaseColumnName(c)] == Some(sentinel(GroupField(GroupOf(c), Key(c))))
  {
    SentinelFlattens(sentinel);
    SyntheticGroupsIn(sentinel, GroupOf(c));
    var gs := GroupsIn(SyntheticInvoice(sentinel));
    BaseRecordValue(gs, c);
    FullRowBaseValue(BaseRecord(gs), SyntheticItem(sentinel), BaseColumnName(c));
    SyntheticGroupHolds(c, sentinel);
  }

  /** An item column of the synthetic row holds the sentinel of the item leaf it reads. */
  lemma SentinelItemValue(sentinel: FieldRef -> Json, f: ItemField)
    requires f in ItemFields && sentinel(LineItemField(ItemKey(f))) != JNull
    ensures Flattened(SyntheticInvoice(sentinel)).Success?
    ensures |Flattened(SyntheticInvoice(sentinel)).value| == 1
    ensures ItemColumnName(f) in Flattened(SyntheticInvoice(sentinel)).value[0]
    ensures Flattened(SyntheticInvoice(sentinel)).value[0][ItemColumnName(f)] == Some(sentinel(LineItemField(ItemKey(f))))
  {
    SentinelFlattens(sentinel);
    FullRowItemValue(BaseRecord(GroupsIn(SyntheticInvoice(sentinel))), SyntheticItem(sentinel), f);
    SyntheticItemHolds(f, sentinel);
  }

  /**
   * Flattening a reply whose every leaf holds a sentinel gives one row in which every column
   * holds, unchanged, the sentinel of the schema leaf it is mapped from.
   */
  lemma SentinelRoundTrip(sentinel: FieldRef -> Json)
    requires forall r :: sentinel(r) != JNull
    ensures Flattened(SyntheticInvoice(sentinel)).Success?
    ensures |Flattened(SyntheticInvoice(sentinel)).value| == 1
    ensures Flattened(SyntheticInvoice(sentinel)).value[0].Keys == BaseColumnNames + ItemColumnNames
    ensures forall c :: c in BaseColumns ==>
      Flattened(SyntheticInvoice(sentinel)).value[0][BaseColumnName(c)] == Some(sentinel(GroupField(GroupOf(c), Key(c))))
    ensures forall f :: f in ItemFields ==>
      Flattened(SyntheticInvoice(sentinel)).value[0][ItemColumnName(f)] == Some(sentinel(LineItemField(ItemKey(f))))
  {
    SentinelFlattens(sentinel);
    FlattenedRowKeys(SyntheticInvoice(sentinel), 0);
    forall c | c in BaseColumns
      ensures Flattened(SyntheticInvoice(sentinel)).value[0][BaseColumnName(c)] == Some(sentinel(GroupField(GroupOf(c), Key(c))))
    {
      SentinelBaseValue(sentinel, c);
    }
    forall f | f in ItemFields
      ensures Flattened(SyntheticInvoice(sentinel)).value[0][ItemColumnName(f)] == Some(sentinel(LineItemField(ItemKey(f))))
    {
      SentinelItemValue(sentinel, f);
    }
  }

  /** A row holding each column's sentinel holds the totalAmount sentinel nowhere. */
  lemma {:induction false} SentinelRowOmitsTotal(row: Row, sentinel: FieldRef -> Json)
    requires forall r :: r != GroupField(SummaryGroup, "totalAmount") ==>
      sentinel(r) != sentinel(GroupField(SummaryGroup, "totalAmount"))
    requires row.Keys == BaseColumnNames + ItemColumnNames
    requires forall c :: c in BaseColumns ==> row[BaseColumnName(c)] == Some(sentinel(GroupField(GroupOf(c), Key(c))))
    requires forall f :: f in ItemFields ==> row[ItemColumnName(f)] == Some(sentinel(LineItemField(ItemKey(f))))
    ensures forall name :: name in row ==> row[name] != Some(sentinel(GroupField(SummaryGroup, "totalAmount")))
  {
    var total := GroupField(SummaryGroup, "totalAmount");
    forall name | name in row
      ensures row[name] != Some(sentinel(total))
    {
      if name in BaseColumnNames {
        var c :| c in BaseColumns && BaseColumnName(c) == name;
        TotalAmountUnread(c);
        var r := GroupField(GroupOf(c), Key(c));
        assert r != total;
        assert sentinel(r) != sentinel(total);
        assert row[name] == Some(sentinel(r));
      } else {
        assert name in ItemColumnNames;
        var f :| f in ItemFields && ItemColumnName(f) == name;
        assert LineItemField(ItemKey(f)) != total;
      }
    }
  }

  /**
   * summary.totalAmount is listed in the prompt's schema but mapped to no column: with
   * a sentinel no other leaf shares, it appears in no column of the row.
   */
  lemma TotalAmountDropped(sentinel: FieldRef -> Json)
    requires forall r :: sentinel(r) != JNull
    requires forall r :: r != GroupField(SummaryGroup, "totalAmount") ==>
      sentinel(r) != sentinel(GroupField(SummaryGroup, "totalAmount"))
    ensures Flattened(SyntheticInvoice(sentinel)).Success?
    ensures |Flattened(SyntheticInvoice(sentinel)).value| == 1
    ensures forall name :: name in Flattened(SyntheticInvoice(sentinel)).value[0] ==>
      Flattened(SyntheticInvoice(sentinel)).value[0][name] != Some(sentinel(GroupField(SummaryGroup, "totalAmount")))
  {
    SentinelRoundTrip(sentinel);
    var data := SyntheticInvoice(sentinel);
    SentinelRowOmitsTotal(Flattened(data).value[0], sentinel);
  }
}
