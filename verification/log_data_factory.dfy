/** The log grid decorator: it asks an inner grid data factory for the log
    rows and rewrites two display fields of every row, `shop_name` and
    `language`, before handing the grid data back. */
module LogDataFactory {
  import opened PhpValues

  /** One database row of the log grid: column name to value. The order of
      columns inside a row is not modelled. */
  type Row = map<string, Value>

  /** A PHP array key. */
  datatype Key = IntKey(n: int) | StrKey(name: string)

  /** One entry of the ordered records array. */
  datatype Record = Record(key: Key, row: Row)

  /** What a grid data factory returns: the records of the requested page,
      the total number of matching records and the query that produced
      them. */
  datatype GridData<Q> = GridData(records: seq<Record>, recordsTotal: int, query: Q)

  /** Message key to translated text, in the `Admin.Global` domain. */
  type Translator = string -> string

  const ShopNameColumn := "shop_name"
  const LanguageColumn := "language"

  /** The placeholder the decorator computes once, at construction. */
  function DefaultEmptyData(trans: Translator): string
  {
    trans("---")
  }

  /** Reading a column the row lacks gives `null` in PHP. */
  function Column(row: Row, name: string): Value
  {
    if name in row then row[name] else Null
  }

  /** The per-shop label: name, then the id after " (id : ". */
  function ShopLabel(trans: Translator, row: Row): string
  {
    trans("Shop") + " " + ToStr(Column(row, "shop_name")) + " (id : " + ToStr(Column(row, "id_shop")) + ")"
  }

  /** The shop group label: name, then the id after "(id : ", with no
      space before the parenthesis. */
  function ShopGroupLabel(trans: Translator, row: Row): string
  {
    trans("Shop group") + " " + ToStr(Column(row, "shop_group_name")) + "(id : " + ToStr(Column(row, "id_shop_group")) + ")"
  }

  /** True when exactly the shop id is set: the per-shop label applies. */
  predicate ShopOnly(row: Row)
  {
    Truthy(Column(row, "id_shop")) && !Truthy(Column(row, "id_shop_group"))
  }

  /** True when exactly the shop group id is set: the group label applies. */
  predicate ShopGroupOnly(row: Row)
  {
    !Truthy(Column(row, "id_shop")) && Truthy(Column(row, "id_shop_group"))
  }

  /** The shop context label, computed as the source does: start from the
      placeholder and let each later matching `if` overwrite the label.
      The contract resolves that precedence into four disjoint cases; in
      particular a per-shop or per-group log is labelled with its shop or
      group even when `in_all_shop` is set. */
  function ShopContextFormatted(trans: Translator, row: Row): (text: string)
    ensures ShopOnly(row) ==> text == ShopLabel(trans, row)
    ensures ShopGroupOnly(row) ==> text == ShopGroupLabel(trans, row)
    ensures !ShopOnly(row) && !ShopGroupOnly(row) && Truthy(Column(row, "in_all_shop"))
      ==> text == trans("All shops")
    ensures !ShopOnly(row) && !ShopGroupOnly(row) && !Truthy(Column(row, "in_all_shop"))
      ==> text == DefaultEmptyData(trans)
  {
    var idShop := Column(row, "id_shop");
    var idShopGroup := Column(row, "id_shop_group");
    var initial := DefaultEmptyData(trans);
    var afterAllShops := if Truthy(Column(row, "in_all_shop")) then trans("All shops") else initial;
    var afterShop := if Truthy(idShop) && !Truthy(idShopGroup) then ShopLabel(trans, row) else afterAllShops;
    if !Truthy(idShop) && Truthy(idShopGroup) then ShopGroupLabel(trans, row) else afterShop
  }

  /** The two columns the label reads beyond the three flags; agreeing on
      these five columns means agreeing on the label. */
  lemma ShopContextDependsOnFiveColumns(trans: Translator, row: Row, other: Row)
    requires Column(row, "in_all_shop") == Column(other, "in_all_shop")
    requires Column(row, "id_shop") == Column(other, "id_shop")
    requires Column(row, "id_shop_group") == Column(other, "id_shop_group")
    requires Column(row, "shop_name") == Column(other, "shop_name")
    requires Column(row, "shop_group_name") == Column(other, "shop_group_name")
    ensures ShopContextFormatted(trans, row) == ShopContextFormatted(trans, other)
  {
  }

  /** The rewrite applied to one row: `shop_name` becomes the label built
      from the incoming row, `language` keeps a non-null value and is
      otherwise defaulted to the placeholder, every other column is kept. */
  function TransformRow(trans: Translator, row: Row): (r: Row)
    ensures r.Keys == row.Keys + {ShopNameColumn, LanguageColumn}
    ensures forall name :: name in row && name != ShopNameColumn && name != LanguageColumn ==> r[name] == row[name]
    ensures r[ShopNameColumn] == Str(ShopContextFormatted(trans, row))
    ensures Column(row, LanguageColumn) != Null ==> r[LanguageColumn] == row[LanguageColumn]
    ensures Column(row, LanguageColumn) == Null ==> r[LanguageColumn] == Str(DefaultEmptyData(trans))
  {
    var labelled := row[ShopNameColumn := Str(ShopContextFormatted(trans, row))];
    var language := if LanguageColumn in labelled && labelled[LanguageColumn] != Null
      then labelled[LanguageColumn] else Str(DefaultEmptyData(trans));
    labelled[LanguageColumn := language]
  }

  /** Applying the rewrite a second time leaves `language` as the first
      application set it: the default is never `null`. */
  lemma LanguageDefaultIsStable(trans: Translator, row: Row)
    ensures TransformRow(trans, TransformRow(trans, row))[LanguageColumn] == TransformRow(trans, row)[LanguageColumn]
  {
  }

  function KeysOf(records: seq<Record>): (keys: seq<Key>)
    ensures |keys| == |records|
    ensures forall k :: 0 <= k < |records| ==> keys[k] == records[k].key
  {
    seq(|records|, k requires 0 <= k < |records| => records[k].key)
  }

  /** The `foreach` over the records array: every entry keeps its key and
      position and has its row replaced by the rewritten row. */
  method ModifyRecords(trans: Translator, records: seq<Record>) returns (out: seq<Record>)
    ensures |out| == |records|
    ensures KeysOf(out) == KeysOf(records)
    ensures forall k :: 0 <= k < |records| ==> out[k].row == TransformRow(trans, records[k].row)
  {
    out := records;
    var i := 0;
    while i < |records|
      invariant 0 <= i <= |records|
      invariant |out| == |records|
      invariant forall k :: 0 <= k < i ==> out[k] == Record(records[k].key, TransformRow(trans, records[k].row))
      invariant forall k :: i <= k < |records| ==> out[k] == records[k]
    {
      var record := records[i];
      out := out[i := Record(record.key, TransformRow(trans, record.row))];
      i := i + 1;
    }
  }

  /** `getData`: fetch from the inner factory, rewrite the rows, and pass
      the total and the query through untouched. */
  method GetData<C, Q>(inner: C -> GridData<Q>, trans: Translator, criteria: C) returns (data: GridData<Q>)
    ensures data.recordsTotal == inner(criteria).recordsTotal
    ensures data.query == inner(criteria).query
    ensures |data.records| == |inner(criteria).records|
    ensures KeysOf(data.records) == KeysOf(inner(criteria).records)
    ensures forall k :: 0 <= k < |data.records| ==>
      data.records[k].row == TransformRow(trans, inner(criteria).records[k].row)
  {
    var fetched := inner(criteria);
    var records := ModifyRecords(trans, fetched.records);
    data := GridData(records, fetched.recordsTotal, fetched.query);
  }

  /** Setting `in_all_shop` does not make the label "All shops": with the
      identity translator, a log of shop 1 that is also flagged for all
      shops is labelled with its shop. */
  lemma ShopLabelOverridesAllShops()
    ensures var row := map["in_all_shop" := Bool(true), "id_shop" := Int(1), "id_shop_group" := Null, "shop_name" := Str("Main")];
      ShopContextFormatted(s => s, row) == "Shop Main (id : 1)"
      && ShopContextFormatted(s => s, row) != "All shops"
  {
    var row := map["in_all_shop" := Bool(true), "id_shop" := Int(1), "id_shop_group" := Null, "shop_name" := Str("Main")];
    assert ShopOnly(row);
    assert IntToString(1) == "1";
  }
}
