/**
 * The Creators API response normalizer (`processApiResponse`, `processItem`
 * and `processBrowseNode`): it flattens the provider's nested camelCase
 * records into a stable item shape and wraps them in an envelope with the
 * operation, the item count and the raw response.
 *
 * Output keys the source sets to `undefined` are `None`; optional keys the
 * source only sets behind a truthiness guard are `Option`s of their own.
 */
module CreatorsNormalizer {
  import opened Wrappers
  import opened JsValue
  import opened Utils
  import opened ItemRecords

  datatype ImageSet = ImageSet(small: Value, medium: Value, large: Value, hiRes: Value)

  datatype Offer = Offer(
    price: Value, currency: Value, savings: Value, savingBasis: Value, availability: Value,
    condition: Value, merchant: Value, isBuyBoxWinner: Value, offerType: Value, violatesMAP: Value)

  datatype ByLineInfo = ByLineInfo(brand: Value, manufacturer: Value)
  datatype ManufactureInfo = ManufactureInfo(model: Value, itemPartNumber: Value)

  /** A normalized Creators item. */
  datatype CreatorsItem = CreatorsItem(
    asin: Value,
    detailPageURL: Value,
    title: Option<Json>,
    features: Option<Json>,
    primaryImage: Option<ImageSet>,
    additionalImages: Option<seq<ImageSet>>,
    offers: Option<seq<Offer>>,
    priceSummary: Option<PriceSummary>,
    productInfo: Option<ProductInfo>,
    byLineInfo: Option<ByLineInfo>,
    manufactureInfo: Option<ManufactureInfo>,
    categories: Option<seq<Category>>,
    customerReviews: Option<CustomerReviews>,
    parentASIN: Option<Json>)

  /** A normalized browse node: its seven fields copied as they are. */
  datatype BrowseNode = BrowseNode(
    id: Value, displayName: Value, contextFreeName: Value, isRoot: Value,
    salesRank: Value, ancestor: Value, children: Value)

  datatype Entry = ItemEntry(item: CreatorsItem) | NodeEntry(node: BrowseNode)

  /** Search metadata, attached to `searchItems` results only. */
  datatype SearchMeta = SearchMeta(totalResultCount: Value, searchURL: Value, searchRefinements: Value)

  datatype Envelope = Envelope(operation: string, itemCount: nat, items: seq<Entry>, meta: Option<SearchMeta>, rawResponse: Value)

  function Image(image: Json): ImageSet {
    ImageSet(At(image, ["small", "url"]), At(image, ["medium", "url"]), At(image, ["large", "url"]), At(image, ["hiRes", "url"]))
  }

  function OfferOf(listing: Json): Offer {
    Offer(
      At(listing, ["price", "money", "displayAmount"]),
      At(listing, ["price", "money", "currency"]),
      At(listing, ["price", "savings", "money", "displayAmount"]),
      At(listing, ["price", "savingBasis", "money", "displayAmount"]),
      At(listing, ["availability", "message"]),
      At(listing, ["condition", "value"]),
      At(listing, ["merchantInfo", "name"]),
      Get(listing, "isBuyBoxWinner"),
      Get(listing, "type"),
      Get(listing, "violatesMAP"))
  }

  function CategoryOf(node: Json): Category {
    Category(Get(node, "id"), Get(node, "displayName"), Get(node, "salesRank"))
  }

  /** The three arrays `processItem` maps over. */
  function Variants(item: Json): Value { At(item, ["images", "variants"]) }
  function Listings(item: Json): Value { At(item, ["offersV2", "listings"]) }
  function NodesOf(item: Json): Value { At(item, ["browseNodeInfo", "browseNodes"]) }

  /** `processItem` reads `item.asin` first, so a null item throws; so does a `.map` that cannot run. */
  predicate ItemProcessable(item: Json) {
    && item != JNull
    && MappableIfPresent(Variants(item))
    && MappableIfPresent(Listings(item))
    && MappableIfPresent(NodesOf(item))
  }

  /** One image set per variant, when `images.variants` is truthy. */
  function AdditionalImages(item: Json): Option<seq<ImageSet>> {
    var variants := ElementsOf(Variants(item));
    if Truthy(Variants(item)) then Some(seq(|variants|, i requires 0 <= i < |variants| => Image(variants[i]))) else None
  }

  /** One offer per listing, when `offersV2.listings` is truthy. */
  function OffersOf(item: Json): Option<seq<Offer>> {
    var listings := ElementsOf(Listings(item));
    if Truthy(Listings(item)) then Some(seq(|listings|, i requires 0 <= i < |listings| => OfferOf(listings[i]))) else None
  }

  /** One category per browse node, when `browseNodeInfo.browseNodes` is truthy. */
  function CategoriesOf(item: Json): Option<seq<Category>> {
    var nodes := ElementsOf(NodesOf(item));
    if Truthy(NodesOf(item)) then Some(seq(|nodes|, i requires 0 <= i < |nodes| => CategoryOf(nodes[i]))) else None
  }

  function PrimaryImageOf(item: Json): Option<ImageSet> {
    var primary := At(item, ["images", "primary"]);
    if Truthy(primary) then Some(Image(primary.value)) else None
  }

  function ProductInfoOf(item: Json): Option<ProductInfo> {
    var info := At(item, ["itemInfo", "productInfo"]);
    if Truthy(info) then
      Some(ProductInfo(At(info.value, ["color", "displayValue"]), At(info.value, ["size", "displayValue"]),
                       At(info.value, ["unitCount", "displayValue"])))
    else None
  }

  function ByLineInfoOf(item: Json): Option<ByLineInfo> {
    var info := At(item, ["itemInfo", "byLineInfo"]);
    if Truthy(info) then
      Some(ByLineInfo(At(info.value, ["brand", "displayValue"]), At(info.value, ["manufacturer", "displayValue"])))
    else None
  }

  function ManufactureInfoOf(item: Json): Option<ManufactureInfo> {
    var info := At(item, ["itemInfo", "manufactureInfo"]);
    if Truthy(info) then
      Some(ManufactureInfo(At(info.value, ["model", "displayValue"]), At(info.value, ["itemPartNumber", "displayValue"])))
    else None
  }

  function ReviewsOf(item: Json): Option<CustomerReviews> {
    var reviews := Get(item, "customerReviews");
    if Truthy(reviews) then Some(CustomerReviews(Get(reviews.value, "count"), At(reviews.value, ["starRating", "value"])))
    else None
  }

  /**
   * One item: identifiers always, every other group only when its source is
   * truthy, one offer per listing and one category per browse node, and the
   * price summary of the listings.
   */
  function ProcessItem(item: Json): (r: Result<CreatorsItem, JsError>)
    ensures r.Success? <==> ItemProcessable(item)
    ensures r.Success? ==> r.value.asin == Get(item, "asin") && r.value.detailPageURL == Get(item, "detailPageURL")
  {
    if !ItemProcessable(item) then Failure(TypeError)
    else
      Success(CreatorsItem(
        asin := Get(item, "asin"),
        detailPageURL := Get(item, "detailPageURL"),
        title := IfTruthy(At(item, ["itemInfo", "title", "displayValue"])),
        features := IfTruthy(At(item, ["itemInfo", "features", "displayValues"])),
        primaryImage := PrimaryImageOf(item),
        additionalImages := AdditionalImages(item),
        offers := OffersOf(item),
        priceSummary := if Truthy(Listings(item)) then BuildPriceSummary(ElementsOf(Listings(item))) else None,
        productInfo := ProductInfoOf(item),
        byLineInfo := ByLineInfoOf(item),
        manufactureInfo := ManufactureInfoOf(item),
        categories := CategoriesOf(item),
        customerReviews := ReviewsOf(item),
        parentASIN := IfTruthy(Get(item, "parentASIN"))))
  }

  /**
   * One browse node, field for field; reading a field of null throws. The
   * node is a plain projection, so the field-by-field copy in the contract is
   * the whole promise.
   */
  function ProcessBrowseNode(node: Json): (r: Result<BrowseNode, JsError>)
    ensures r.Failure? <==> node == JNull
    ensures r.Success? ==>
      && r.value.id == Get(node, "id")
      && r.value.displayName == Get(node, "displayName")
      && r.value.contextFreeName == Get(node, "contextFreeName")
      && r.value.isRoot == Get(node, "isRoot")
      && r.value.salesRank == Get(node, "salesRank")
      && r.value.ancestor == Get(node, "ancestor")
      && r.value.children == Get(node, "children")
  {
    if node == JNull then Failure(TypeError)
    else
      Success(BrowseNode(Get(node, "id"), Get(node, "displayName"), Get(node, "contextFreeName"), Get(node, "isRoot"),
                         Get(node, "salesRank"), Get(node, "ancestor"), Get(node, "children")))
  }

  /** Where each operation's results live in a truthy response; nothing for any other operation. */
  function Container(resp: Value, operation: string): (r: Value)
    ensures operation == "getItems" ==> r == Path(resp, ["itemsResult", "items"])
    ensures operation == "searchItems" ==> r == Path(resp, ["searchResult", "items"])
    ensures operation == "getBrowseNodes" ==> r == Path(resp, ["browseNodesResult", "browseNodes"])
    ensures !KnownOperation(operation) ==> r.None?
  {
    match operation
    case "getItems" => Path(resp, ["itemsResult", "items"])
    case "searchItems" => Path(resp, ["searchResult", "items"])
    case "getBrowseNodes" => Path(resp, ["browseNodesResult", "browseNodes"])
    case _ => None
  }

  /** Browse nodes for `getBrowseNodes`, items for everything else. */
  function ProcessEntry(operation: string, x: Json): (r: Result<Entry, JsError>)
    ensures r.Success? <==> (if operation == "getBrowseNodes" then x != JNull else ItemProcessable(x))
    ensures r.Success? ==> (r.value.NodeEntry? <==> operation == "getBrowseNodes")
    ensures r.Success? && operation == "getBrowseNodes" ==> r.value == NodeEntry(ProcessBrowseNode(x).value)
    ensures r.Success? && operation != "getBrowseNodes" ==> r.value == ItemEntry(ProcessItem(x).value)
  {
    if operation == "getBrowseNodes" then
      match ProcessBrowseNode(x)
      case Success(n) => Success(NodeEntry(n))
      case Failure(e) => Failure(e)
    else
      match ProcessItem(x)
      case Success(it) => Success(ItemEntry(it))
      case Failure(e) => Failure(e)
  }

  /** Search metadata for `searchItems` only, read from the `searchResult` container. */
  function MetaOf(resp: Value, operation: string): (r: Option<SearchMeta>)
    ensures r.Some? <==> operation == "searchItems"
    ensures r.Some? ==> r.value.totalResultCount == Path(resp, ["searchResult", "totalResultCount"])
    ensures r.Some? ==> r.value.searchURL == Path(resp, ["searchResult", "searchURL"])
    ensures r.Some? ==> r.value.searchRefinements == Path(resp, ["searchResult", "searchRefinements"])
  {
    if operation == "searchItems" then
      Some(SearchMeta(Path(resp, ["searchResult", "totalResultCount"]), Path(resp, ["searchResult", "searchURL"]),
                      Path(resp, ["searchResult", "searchRefinements"])))
    else None
  }

  /**
   * The envelope: a falsy response gives zero items and no metadata;
   * otherwise every element of the operation's container (absent means none)
   * is processed in order, the count is the number of entries, search
   * metadata comes with `searchItems` only, and the raw response is kept.
   */
  function ProcessApiResponse(resp: Value, operation: string): (r: Result<Envelope, JsError>)
    ensures !Truthy(resp) ==> r == Success(Envelope(operation, 0, [], None, resp))
    ensures Truthy(resp) ==>
      (r.Success? <==> ArrayOrNullish(Container(resp, operation))
                       && forall x :: x in ElementsOf(Container(resp, operation)) ==> ProcessEntry(operation, x).Success?)
    ensures r.Success? ==>
      && r.value.operation == operation
      && r.value.rawResponse == resp
      && r.value.itemCount == |r.value.items|
      && (r.value.meta.Some? <==> Truthy(resp) && operation == "searchItems")
    ensures r.Success? && Truthy(resp) ==> r.value.meta == MetaOf(resp, operation)
    ensures r.Success? && Truthy(resp) ==>
      && |r.value.items| == |ElementsOf(Container(resp, operation))|
      && forall i :: 0 <= i < |r.value.items| ==>
           r.value.items[i] == ProcessEntry(operation, ElementsOf(Container(resp, operation))[i]).value
  {
    if !Truthy(resp) then Success(Envelope(operation, 0, [], None, resp))
    else
      var container := Container(resp, operation);
      if !ArrayOrNullish(container) then Failure(TypeError)
      else
        var xs := ElementsOf(container);
        match MapAll(xs, x => ProcessEntry(operation, x))
        case Failure(e) => Failure(e)
        case Success(entries) => Success(Envelope(operation, |entries|, entries, MetaOf(resp, operation), resp))
  }

  // ------------------------------------------------------------ properties

  /**
   * Each optional group is present exactly when its source is truthy, and the
   * price summary is `buildPriceSummary` of the listings whenever the offers
   * are built.
   */
  lemma ItemFieldsFollowSources(item: Json)
    requires ProcessItem(item).Success?
    ensures var r := ProcessItem(item);
      && (r.value.title.Some? <==> Truthy(At(item, ["itemInfo", "title", "displayValue"])))
      && (r.value.features.Some? <==> Truthy(At(item, ["itemInfo", "features", "displayValues"])))
      && (r.value.primaryImage.Some? <==> Truthy(At(item, ["images", "primary"])))
      && (r.value.additionalImages.Some? <==> Truthy(Variants(item)))
      && (r.value.offers.Some? <==> Truthy(Listings(item)))
      && (r.value.priceSummary == if Truthy(Listings(item)) then BuildPriceSummary(ElementsOf(Listings(item))) else None)
      && (r.value.productInfo.Some? <==> Truthy(At(item, ["itemInfo", "productInfo"])))
      && (r.value.byLineInfo.Some? <==> Truthy(At(item, ["itemInfo", "byLineInfo"])))
      && (r.value.manufactureInfo.Some? <==> Truthy(At(item, ["itemInfo", "manufactureInfo"])))
      && (r.value.categories.Some? <==> Truthy(NodesOf(item)))
      && (r.value.customerReviews.Some? <==> Truthy(Get(item, "customerReviews")))
      && (r.value.parentASIN.Some? <==> Truthy(Get(item, "parentASIN")))
  {
  }

  /**
   * Each single-value group, when present, is its source copied or projected
   * field for field: the projection is what `processItem` promises.
   */
  lemma ItemValuesFollowSources(item: Json)
    requires ProcessItem(item).Success?
    ensures var r := ProcessItem(item).value;
      && (r.title.Some? ==> r.title == At(item, ["itemInfo", "title", "displayValue"]))
      && (r.features.Some? ==> r.features == At(item, ["itemInfo", "features", "displayValues"]))
      && (r.primaryImage.Some? ==> r.primaryImage.value == Image(At(item, ["images", "primary"]).value))
      && (r.productInfo.Some? ==>
            var info := At(item, ["itemInfo", "productInfo"]).value;
            r.productInfo.value == ProductInfo(At(info, ["color", "displayValue"]), At(info, ["size", "displayValue"]),
                                               At(info, ["unitCount", "displayValue"])))
      && (r.byLineInfo.Some? ==>
            var info := At(item, ["itemInfo", "byLineInfo"]).value;
            r.byLineInfo.value == ByLineInfo(At(info, ["brand", "displayValue"]), At(info, ["manufacturer", "displayValue"])))
      && (r.manufactureInfo.Some? ==>
            var info := At(item, ["itemInfo", "manufactureInfo"]).value;
            r.manufactureInfo.value == ManufactureInfo(At(info, ["model", "displayValue"]),
                                                       At(info, ["itemPartNumber", "displayValue"])))
      && (r.customerReviews.Some? ==>
            var reviews := Get(item, "customerReviews").value;
            r.customerReviews.value == CustomerReviews(Get(reviews, "count"), At(reviews, ["starRating", "value"])))
      && (r.parentASIN.Some? ==> r.parentASIN == Get(item, "parentASIN"))
  {
  }

  /** Each mapped list has one entry per source element, projected from that element, in order. */
  lemma ItemListsFollowSources(item: Json)
    requires ProcessItem(item).Success?
    ensures var r := ProcessItem(item);
      var variants := ElementsOf(Variants(item));
      var listings := ElementsOf(Listings(item));
      var nodes := ElementsOf(NodesOf(item));
      && (r.value.additionalImages.Some? ==>
            |r.value.additionalImages.value| == |variants|
            && forall i :: 0 <= i < |variants| ==> r.value.additionalImages.value[i] == Image(variants[i]))
      && (r.value.offers.Some? ==>
            |r.value.offers.value| == |listings|
            && forall i :: 0 <= i < |listings| ==> r.value.offers.value[i] == OfferOf(listings[i]))
      && (r.value.categories.Some? ==>
            |r.value.categories.value| == |nodes|
            && forall i :: 0 <= i < |nodes| ==> r.value.categories.value[i] == CategoryOf(nodes[i]))
  {
  }

  /** An item carrying nothing but its ASIN normalizes to the ASIN alone. */
  lemma AsinOnlyItem(asin: Json)
    ensures var r := ProcessItem(JObj(map["asin" := asin]));
            && r.Success?
            && r.value == CreatorsItem(Some(asin), None, None, None, None, None, None, None, None, None, None, None, None, None)
  {
  }

  /**
   * A summary fits a list of listings when it exists exactly if some listing
   * has a numeric amount, and its bounds are amounts of listings that enclose
   * every listing's amount.
   */
  predicate SummaryFits(summary: Option<PriceSummary>, listings: seq<Json>) {
    && (summary.Some? <==> exists i :: 0 <= i < |listings| && AmountOf(listings[i]).Some?)
    && (summary.Some? ==>
          && (exists i :: 0 <= i < |listings| && AmountOf(listings[i]) == Some(summary.value.lowestPrice))
          && (exists i :: 0 <= i < |listings| && AmountOf(listings[i]) == Some(summary.value.highestPrice))
          && forall i :: 0 <= i < |listings| && AmountOf(listings[i]).Some? ==>
               summary.value.lowestPrice <= AmountOf(listings[i]).value <= summary.value.highestPrice)
  }

  /**
   * The price summary agrees with the offers: there is one exactly when some
   * listing has a numeric amount; it counts every listing, priced or not; and
   * its bounds are amounts of listings that enclose every listing's amount.
   */
  lemma {:induction false} SummaryMatchesOffers(item: Json)
    requires ProcessItem(item).Success? && Truthy(Listings(item))
    ensures var it := ProcessItem(item).value;
            && it.offers.Some?
            && SummaryFits(it.priceSummary, ElementsOf(Listings(item)))
            && (it.priceSummary.Some? ==> it.priceSummary.value.offerCount == |it.offers.value|)
  {
    OffersAndSummaryOf(item);
    SummaryByIndex(ElementsOf(Listings(item)));
  }

  /** Truthy listings give one offer per listing and the summary built from them. */
  lemma OffersAndSummaryOf(item: Json)
    requires ProcessItem(item).Success? && Truthy(Listings(item))
    ensures var it := ProcessItem(item).value;
            && it.offers.Some? && |it.offers.value| == |ElementsOf(Listings(item))|
            && it.priceSummary == BuildPriceSummary(ElementsOf(Listings(item)))
  {
  }

  /** `buildPriceSummary`'s contract, stated over listing positions. */
  lemma SummaryByIndex(listings: seq<Json>)
    ensures SummaryFits(BuildPriceSummary(listings), listings)
  {
    var summary := BuildPriceSummary(listings);
    if summary.Some? {
      var l :| l in listings && AmountOf(l) == Some(summary.value.lowestPrice);
      var h :| h in listings && AmountOf(h) == Some(summary.value.highestPrice);
      assert AmountOf(listings[IndexOf(listings, l)]) == Some(summary.value.lowestPrice);
      assert AmountOf(listings[IndexOf(listings, h)]) == Some(summary.value.highestPrice);
    } else {
      forall i | 0 <= i < |listings| ensures AmountOf(listings[i]).None? {
        assert listings[i] in listings;
      }
    }
  }

  /** The position of an element of a sequence. */
  function IndexOf(xs: seq<Json>, x: Json): (i: nat)
    requires x in xs
    ensures i < |xs| && xs[i] == x
  {
    if xs[0] == x then 0 else 1 + IndexOf(xs[1..], x)
  }

  /**
   * A `getBrowseNodes` envelope holds one browse node per element of
   * `browseNodesResult.browseNodes`, in order, each with that element's
   * identifier and names.
   */
  lemma BrowseNodeEntries(resp: Value)
    requires Truthy(resp) && ProcessApiResponse(resp, "getBrowseNodes").Success?
    ensures var xs := ElementsOf(Path(resp, ["browseNodesResult", "browseNodes"]));
            var items := ProcessApiResponse(resp, "getBrowseNodes").value.items;
            && |items| == |xs|
            && forall i :: 0 <= i < |items| ==>
                 && items[i].NodeEntry?
                 && items[i].node.id == Get(xs[i], "id")
                 && items[i].node.displayName == Get(xs[i], "displayName")
                 && items[i].node.contextFreeName == Get(xs[i], "contextFreeName")
  {
    assert Container(resp, "getBrowseNodes") == Path(resp, ["browseNodesResult", "browseNodes"]);
  }

  /** An operation the normalizer does not know yields an envelope with no items. */
  lemma UnknownOperationHasNoItems(resp: Value, operation: string)
    requires !KnownOperation(operation)
    ensures ProcessApiResponse(resp, operation).Success?
    ensures ProcessApiResponse(resp, operation).value.items == []
  {
  }

  /**
   * A truthy response without the operation's container, or with a container
   * lacking its list, gives zero items (`?? []`); search metadata is still read.
   */
  lemma MissingContainerHasNoItems(resp: Value, operation: string)
    requires Truthy(resp) && KnownOperation(operation)
    requires Nullish(Container(resp, operation))
    ensures ProcessApiResponse(resp, operation) == Success(Envelope(operation, 0, [], MetaOf(resp, operation), resp))
  {
    assert ElementsOf(Container(resp, operation)) == [];
  }

  /** A null element in the container makes the whole response fail: `.map` stops at the throw. */
  lemma NullEntryFails(resp: Value, operation: string, i: nat)
    requires Truthy(resp)
    requires Container(resp, operation).Some? && Container(resp, operation).value.JArr?
    requires i < |Container(resp, operation).value.elems| && Container(resp, operation).value.elems[i] == JNull
    ensures ProcessApiResponse(resp, operation).Failure?
  {
    assert JNull in ElementsOf(Container(resp, operation));
  }
}
