/**
 * The two pure rules of the data-access layer (db_helper.py): how
 * `get_list_products_by_price` chooses the bounds of its query, and how
 * `update_shipping_address` turns a receiver name that arrived as a dict or a
 * list into a single value.
 */
module DbRules {
  import opened Wrappers
  import opened PyValues

  /** The query `get_list_products_by_price` runs: `price BETWEEN low AND
      high`, restricted to one brand unless the brand name is "". */
  datatype PriceQuery = PriceQuery(brand: Option<Value>, low: Value, high: Value)

  /** None stands for the early `return []` that runs no query
      (db_helper.py:47-55). */
  function PriceBounds(brandName: Value, priceRange: Value, price: Value): (r: Option<PriceQuery>)
    ensures r.Some? <==>
      || priceRange == Str("Under")
      || (priceRange == Str("Between") && price.List? && |price.items| == 2)
    ensures priceRange == Str("Under") ==> r.Some? && r.value.low == Int(0) && r.value.high == price
    ensures priceRange == Str("Between") && r.Some? ==>
      r.value.low == price.items[0] && r.value.high == price.items[1]
    ensures r.Some? ==>
      && (r.value.brand.None? <==> brandName == Str(""))
      && (r.value.brand.Some? ==> r.value.brand.value == brandName)
  {
    var brand := if brandName == Str("") then None else Some(brandName);
    if priceRange == Str("Under") then Some(PriceQuery(brand, Int(0), price))
    else if priceRange == Str("Between") then
      if price.List? && |price.items| == 2 then Some(PriceQuery(brand, price.items[0], price.items[1]))
      else None
    else None
  }

  /** The receiver-name repair of db_helper.py:497-508. */
  function NormaliseReceiverName(name: Value): (r: Value)
    ensures name.Dict? && Lookup(name.entries, "name").Some? ==> r == Lookup(name.entries, "name").value
    ensures name.Dict? && Lookup(name.entries, "name").None? ==> r == Str(PyStr(name))
    ensures name.List? && name.items != [] ==>
      var first := name.items[0];
      r == if first.Dict? && Lookup(first.entries, "name").Some? then Lookup(first.entries, "name").value
           else Str(PyStr(first))
    ensures !name.Dict? && !(name.List? && name.items != []) ==> r == name
  {
    match name
    case Dict(entries) =>
      (match Lookup(entries, "name")
       case Some(v) => v
       case None => Str(PyStr(name)))
    case List(items) =>
      if items == [] then name
      else
        var first := items[0];
        if first.Dict? && Lookup(first.entries, "name").Some? then Lookup(first.entries, "name").value
        else Str(PyStr(first))
    case _ => name
  }

  /** A non-empty list whose first item is a dict or a string is repaired as
      that item alone would be. */
  lemma ListLikeFirstItem(first: Value, rest: seq<Value>)
    requires first.Dict? || first.Str?
    ensures NormaliseReceiverName(List([first] + rest)) == NormaliseReceiverName(first)
  {
  }

  /** The point of the repair: a name sent as a string, as a dict, or as a
      list headed by a dict or a scalar, reaches the insert as a string,
      unless a 'name' entry itself holds something other than a string. */
  lemma RepairGivesString(name: Value)
    requires
      || name.Str?
      || (name.Dict? && (Lookup(name.entries, "name").None? || Lookup(name.entries, "name").value.Str?))
      || (name.List? && name.items != [] &&
          (|| !name.items[0].Dict?
           || Lookup(name.items[0].entries, "name").None?
           || Lookup(name.items[0].entries, "name").value.Str?))
    ensures NormaliseReceiverName(name).Str?
  {
  }
}
