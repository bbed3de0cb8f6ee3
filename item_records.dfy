/** What the two nodes share: their three catalog operations and the sub-records both normalizers produce. */
module ItemRecords {
  import opened Wrappers
  import opened JsValue

  /** The operations both nodes offer. */
  predicate KnownOperation(operation: string) {
    operation in {"getItems", "searchItems", "getBrowseNodes"}
  }

  datatype ProductInfo = ProductInfo(color: Value, size: Value, unitCount: Value)
  datatype Category = Category(id: Value, name: Value, salesRank: Value)
  datatype CustomerReviews = CustomerReviews(count: Value, starRating: Value)

  /** `obj?.k0?.k1...` read from a value known not to be nullish. */
  function At(x: Json, keys: seq<string>): (r: Value)
    ensures keys == [] ==> r == Some(x)
    ensures |keys| == 1 ==> r == Get(x, keys[0])
  {
    Path(Some(x), keys)
  }

  /** The value under a truthiness guard: present exactly when truthy. */
  function IfTruthy(v: Value): (r: Option<Json>)
    ensures r.Some? <==> Truthy(v)
    ensures r.Some? ==> r == v
  {
    if Truthy(v) then v else None
  }
}
