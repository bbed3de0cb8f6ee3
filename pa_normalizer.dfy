/**
 * The PA-API response normalizer (`processApiResponse` and `processItem` of
 * the PA node): the PascalCase legacy schema flattened into items. Unlike the
 * Creators normalizer it never throws: any failure while processing becomes
 * an error envelope carrying the response as received.
 */
module PaNormalizer {
  import opened Wrappers
  import opened JsValue
  import opened ItemRecords

  datatype PaImageSet = PaImageSet(small: Value, medium: Value, large: Value)

  datatype PaOffer = PaOffer(
    price: Value, currency: Value, savings: Value, availability: Value,
    condition: Value, merchant: Value, isPrime: Value)

  datatype PaSummary = PaSummary(condition: Value, lowestPrice: Value, highestPrice: Value, offerCount: Value)

  datatype TechnicalInfo = TechnicalInfo(brand: Value, manufacturer: Value, model: Value)

  /** A normalized PA item. */
  datatype PaItem = PaItem(
    asin: Value,
    title: Option<Json>,
    features: Option<Json>,
    primaryImage: Option<PaImageSet>,
    additionalImages: Option<seq<PaImageSet>>,
    offers: Option<seq<PaOffer>>,
    priceSummary: Option<seq<PaSummary>>,
    productInfo: Option<ProductInfo>,
    technicalInfo: Option<TechnicalInfo>,
    categories: Option<seq<Category>>,
    customerReviews: Option<CustomerReviews>)

  const ProcessingFailed := "Failed to process API response"

  /** The result of `processApiResponse`: the items, or the error envelope. */
  datatype PaEnvelope =
    | Processed(operation: string, itemCount: nat, items: seq<PaItem>, rawResponse: Value)
    | Unprocessable(operation: string, error: string, rawResponse: Value)

  function ImageOf(image: Json): PaImageSet {
    PaImageSet(At(image, ["Small", "URL"]), At(image, ["Medium", "URL"]), At(image, ["Large", "URL"]))
  }

  function OfferOf(listing: Json): PaOffer {
    PaOffer(
      At(listing, ["Price", "DisplayAmount"]),
      At(listing, ["Price", "Currency"]),
      At(listing, ["SavingBasis", "DisplayAmount"]),
      At(listing, ["Availability", "Message"]),
      At(listing, ["Condition", "Value"]),
      At(listing, ["MerchantInfo", "Name"]),
      At(listing, ["DeliveryInfo", "IsPrimePantryEligible"]))
  }

  function SummaryOf(summary: Json): PaSummary {
    PaSummary(At(summary, ["Condition", "Value"]), At(summary, ["LowestPrice", "DisplayAmount"]),
              At(summary, ["HighestPrice", "DisplayAmount"]), Get(summary, "OfferCount"))
  }

  function CategoryOf(node: Json): Category {
    Category(Get(node, "Id"), Get(node, "DisplayName"), Get(node, "SalesRank"))
  }

  /** The four arrays `processItem` maps over. */
  function Variants(item: Json): Value { At(item, ["Images", "Variants"]) }
  function Listings(item: Json): Value { At(item, ["Offers", "Listings"]) }
  function Summaries(item: Json): Value { At(item, ["Offers", "Summaries"]) }
  function NodesOf(item: Json): Value { At(item, ["BrowseNodeInfo", "BrowseNodes"]) }

  /** `item.ASIN` throws on a null item; so does a `.map` that cannot run. */
  predicate ItemProcessable(item: Json) {
    && item != JNull
    && MappableIfPresent(Variants(item))
    && MappableIfPresent(Listings(item))
    && MappableIfPresent(Summaries(item))
    && MappableIfPresent(NodesOf(item))
  }

  function ImagesOf(xs: seq<Json>): (r: seq<PaImageSet>)
    ensures |r| == |xs|
  {
    seq(|xs|, i requires 0 <= i < |xs| => ImageOf(xs[i]))
  }

  /**
   * One item: the ASIN always, every other group only when its source is
   * truthy, one offer per listing, one summary per summary entry and one
   * category per browse node.
   */
  function ProcessItem(item: Json): (r: Result<PaItem, JsError>)
    ensures r.Success? <==> ItemProcessable(item)
    ensures r.Success? ==> r.value.asin == Get(item, "ASIN")
  {
    if !ItemProcessable(item) then Failure(TypeError)
    else
      var primary := At(item, ["Images", "Primary"]);
      var listings := ElementsOf(Listings(item));
      var summaries := ElementsOf(Summaries(item));
      var nodes := ElementsOf(NodesOf(item));
      var productInfo := At(item, ["ItemInfo", "ProductInfo"]);
      var technical := At(item, ["ItemInfo", "TechnicalInfo"]);
      var reviews := Get(item, "CustomerReviews");
      Success(PaItem(
        asin := Get(item, "ASIN"),
        title := IfTruthy(At(item, ["ItemInfo", "Title", "DisplayValue"])),
        features := IfTruthy(At(item, ["ItemInfo", "Features", "DisplayValues"])),
        primaryImage := if Truthy(primary) then Some(ImageOf(primary.value)) else None,
        additionalImages := if Truthy(Variants(item)) then Some(ImagesOf(ElementsOf(Variants(item)))) else None,
        offers :=
          if Truthy(Listings(item)) then Some(seq(|listings|, i requires 0 <= i < |listings| => OfferOf(listings[i])))
          else None,
        priceSummary :=
          if Truthy(Summaries(item)) then Some(seq(|summaries|, i requires 0 <= i < |summaries| => SummaryOf(summaries[i])))
          else None,
        productInfo :=
          if Truthy(productInfo) then
            Some(ProductInfo(At(productInfo.value, ["Color", "DisplayValue"]), At(productInfo.value, ["Size", "DisplayValue"]),
                             At(productInfo.value, ["UnitCount", "DisplayValue"])))
          else None,
        technicalInfo :=
          if Truthy(technical) then
            Some(TechnicalInfo(At(technical.value, ["Brand", "DisplayValue"]),
                               At(technical.value, ["Manufacturer", "DisplayValue"]),
                               At(technical.value, ["Model", "DisplayValue"])))
          else None,
        categories :=
          if Truthy(NodesOf(item)) then Some(seq(|nodes|, i requires 0 <= i < |nodes| => CategoryOf(nodes[i])))
          else None,
        customerReviews :=
          if Truthy(reviews) then Some(CustomerReviews(Get(reviews.value, "Count"), At(reviews.value, ["StarRating", "Value"])))
          else None))
  }

  /** The result container's key and the key of its list, per operation. */
  function ContainerKeys(operation: string): (r: seq<string>)
    ensures operation == "getItems" ==> r == ["ItemsResult", "Items"]
    ensures operation == "searchItems" ==> r == ["SearchResult", "Items"]
    ensures operation == "getBrowseNodes" ==> r == ["BrowseNodesResult", "BrowseNodes"]
    ensures KnownOperation(operation) ==> |r| == 2
    ensures !KnownOperation(operation) ==> r == []
  {
    if operation == "getItems" then ["ItemsResult", "Items"]
    else if operation == "searchItems" then ["SearchResult", "Items"]
    else if operation == "getBrowseNodes" then ["BrowseNodesResult", "BrowseNodes"]
    else []
  }

  /**
   * The items of a parsed response: the list when both the container and the
   * list are truthy, an empty array otherwise; a known operation reads a
   * property of the response itself, which throws when it is nullish.
   */
  function ItemsOf(parsed: Value, operation: string): (r: Result<Value, JsError>)
    ensures r.Failure? <==> KnownOperation(operation) && Nullish(parsed)
    ensures r.Success? && !KnownOperation(operation) ==> r.value == Some(JArr([]))
    ensures KnownOperation(operation) && !Nullish(parsed) ==>
              r == Success(if Truthy(Path(parsed, ContainerKeys(operation))) then Path(parsed, ContainerKeys(operation))
                           else Some(JArr([])))
  {
    if !KnownOperation(operation) then Success(Some(JArr([])))
    else if Nullish(parsed) then Failure(TypeError)
    else
      var keys := ContainerKeys(operation);
      PathOfTwo(parsed.value, keys[0], keys[1]);
      assert keys == [keys[0], keys[1]];
      var container := Get(parsed.value, keys[0]);
      if Truthy(container) && Truthy(Get(container.value, keys[1])) then Success(Get(container.value, keys[1]))
      else Success(Some(JArr([])))
  }

  /** A string response is parsed first (a parse failure throws); any other value is used as it is. */
  function Parsed(resp: Value, jsonParse: string -> Option<Json>): (r: Option<Value>)
    ensures !(resp.Some? && resp.value.JStr?) ==> r == Some(resp)
    ensures resp.Some? && resp.value.JStr? ==>
              (r.None? <==> jsonParse(resp.value.s).None?) && (r.Some? ==> r.value == jsonParse(resp.value.s))
  {
    if resp.Some? && resp.value.JStr? then
      match jsonParse(resp.value.s)
      case None => None
      case Some(j) => Some(Some(j))
    else Some(resp)
  }

  /** Everything `processApiResponse` does inside its `try`. */
  function ProcessParsed(parsed: Value, operation: string): (r: Result<seq<PaItem>, JsError>)
    ensures r.Success? <==> && ItemsOf(parsed, operation).Success?
                            && ItemsOf(parsed, operation).value.Some?
                            && ItemsOf(parsed, operation).value.value.JArr?
                            && forall x :: x in ItemsOf(parsed, operation).value.value.elems ==> ItemProcessable(x)
    ensures r.Success? ==> var xs := ElementsOf(ItemsOf(parsed, operation).value);
                           && |r.value| == |xs|
                           && forall i :: 0 <= i < |xs| ==> ProcessItem(xs[i]) == Success(r.value[i])
  {
    match ItemsOf(parsed, operation)
    case Failure(e) => Failure(e)
    case Success(items) =>
      if !items.value.JArr? then Failure(TypeError)
      else MapAll(items.value.elems, ProcessItem)
  }

  /**
   * `processApiResponse`: the processed items with their count and the parsed
   * response, or, when parsing or processing throws, the error envelope with
   * the response as received. It never throws itself.
   */
  function ProcessApiResponse(resp: Value, operation: string, jsonParse: string -> Option<Json>): (r: PaEnvelope)
    ensures r.operation == operation
    ensures r.Processed? ==> r.itemCount == |r.items| && Parsed(resp, jsonParse).Some?
                             && r.rawResponse == Parsed(resp, jsonParse).value
    ensures r.Unprocessable? ==> r.error == ProcessingFailed && r.rawResponse == resp
    ensures r.Unprocessable? <==>
              Parsed(resp, jsonParse).None? || ProcessParsed(Parsed(resp, jsonParse).value, operation).Failure?
  {
    match Parsed(resp, jsonParse)
    case None => Unprocessable(operation, ProcessingFailed, resp)
    case Some(parsed) =>
      match ProcessParsed(parsed, operation)
      case Failure(_) => Unprocessable(operation, ProcessingFailed, resp)
      case Success(items) => Processed(operation, |items|, items, parsed)
  }

  // ------------------------------------------------------------ properties

  /**
   * Items are processed one to one and in order from the operation's list;
   * browse nodes go through the same item processing as items.
   */
  lemma ItemsInOrder(resp: Value, operation: string, jsonParse: string -> Option<Json>)
    requires ProcessApiResponse(resp, operation, jsonParse).Processed?
    ensures var r := ProcessApiResponse(resp, operation, jsonParse);
            var xs := ElementsOf(ItemsOf(Parsed(resp, jsonParse).value, operation).value);
            && |r.items| == |xs|
            && forall i :: 0 <= i < |xs| ==> ProcessItem(xs[i]) == Success(r.items[i])
  {
  }

  /** A list whose every element can be processed gives a processed envelope with one item per element. */
  lemma ProcessableListIsProcessed(resp: Value, operation: string, jsonParse: string -> Option<Json>)
    requires Parsed(resp, jsonParse).Some?
    requires var items := ItemsOf(Parsed(resp, jsonParse).value, operation);
             && items.Success? && items.value.Some? && items.value.value.JArr?
             && forall x :: x in items.value.value.elems ==> ItemProcessable(x)
    ensures var r := ProcessApiResponse(resp, operation, jsonParse);
            && r.Processed?
            && r.itemCount == |ItemsOf(Parsed(resp, jsonParse).value, operation).value.value.elems|
  {
  }

  /** A response without the operation's container, or without its list, has no items. */
  lemma MissingContainerHasNoItems(resp: Json, operation: string, jsonParse: string -> Option<Json>)
    requires KnownOperation(operation) && !resp.JStr? && resp != JNull
    requires !Truthy(Path(Some(resp), ContainerKeys(operation)))
    ensures ProcessApiResponse(Some(resp), operation, jsonParse) == Processed(operation, 0, [], Some(resp))
  {
    var keys := ContainerKeys(operation);
    var container := Get(resp, keys[0]);
    PathOfTwo(resp, keys[0], keys[1]);
    var items := ItemsOf(Some(resp), operation);
    assert items == Success(Some(JArr([])));
    assert ProcessParsed(Some(resp), operation) == Success([]);
  }

  lemma PathOfTwo(x: Json, k0: string, k1: string)
    ensures Path(Some(x), [k0, k1]) == (if Nullish(Get(x, k0)) then None else Get(Get(x, k0).value, k1))
  {
    assert [k0, k1][1..] == [k1];
  }

  /**
   * A response that arrives as JSON text is processed as the parsed value
   * would be, as long as that value is not itself a string.
   */
  lemma TextResponseIsParsed(text: string, operation: string, jsonParse: string -> Option<Json>)
    requires jsonParse(text).Some? && !jsonParse(text).value.JStr?
    requires ProcessApiResponse(Some(JStr(text)), operation, jsonParse).Processed?
    ensures ProcessApiResponse(Some(JStr(text)), operation, jsonParse)
         == ProcessApiResponse(Some(jsonParse(text).value), operation, jsonParse)
  {
  }

  /**
   * The text "null" parses to null: for a known operation reading its
   * container throws, and the envelope keeps the text as received.
   */
  lemma NullTextIsUnprocessable(text: string, operation: string, jsonParse: string -> Option<Json>)
    requires jsonParse(text) == Some(JNull) && KnownOperation(operation)
    ensures ProcessApiResponse(Some(JStr(text)), operation, jsonParse)
         == Unprocessable(operation, ProcessingFailed, Some(JStr(text)))
  {
  }

  /** A null entry in the list makes the whole response unprocessable. */
  lemma NullItemIsUnprocessable(resp: Json, operation: string, jsonParse: string -> Option<Json>, i: nat)
    requires !resp.JStr?
    requires ItemsOf(Some(resp), operation).Success?
    requires var items := ItemsOf(Some(resp), operation).value;
             items.Some? && items.value.JArr? && i < |items.value.elems| && items.value.elems[i] == JNull
    ensures ProcessApiResponse(Some(resp), operation, jsonParse).Unprocessable?
  {
    var xs := ItemsOf(Some(resp), operation).value.value.elems;
    assert !ProcessItem(xs[i]).Success?;
  }

  /**
   * Each optional group is present exactly when its source is truthy, and
   * each mapped list has one entry per source element.
   */
  lemma ItemFieldsFollowSources(item: Json)
    requires ProcessItem(item).Success?
    ensures var r := ProcessItem(item);
      && (r.value.title.Some? <==> Truthy(At(item, ["ItemInfo", "Title", "DisplayValue"])))
      && (r.value.features.Some? <==> Truthy(At(item, ["ItemInfo", "Features", "DisplayValues"])))
      && (r.value.primaryImage.Some? <==> Truthy(At(item, ["Images", "Primary"])))
      && (r.value.additionalImages.Some? <==> Truthy(Variants(item)))
      && (r.value.additionalImages.Some? ==> |r.value.additionalImages.value| == |ElementsOf(Variants(item))|)
      && (r.value.offers.Some? <==> Truthy(Listings(item)))
      && (r.value.offers.Some? ==> |r.value.offers.value| == |ElementsOf(Listings(item))|)
      && (r.value.priceSummary.Some? <==> Truthy(Summaries(item)))
      && (r.value.priceSummary.Some? ==> |r.value.priceSummary.value| == |ElementsOf(Summaries(item))|)
      && (r.value.productInfo.Some? <==> Truthy(At(item, ["ItemInfo", "ProductInfo"])))
      && (r.value.technicalInfo.Some? <==> Truthy(At(item, ["ItemInfo", "TechnicalInfo"])))
      && (r.value.categories.Some? <==> Truthy(NodesOf(item)))
      && (r.value.categories.Some? ==> |r.value.categories.value| == |ElementsOf(NodesOf(item))|)
      && (r.value.customerReviews.Some? <==> Truthy(Get(item, "CustomerReviews")))
  {
  }

  /**
   * Each mapped list is the source array projected element by element, in
   * order: image sets from the variants, offers from the listings, summaries
   * from the summary entries and categories from the browse nodes.
   */
  lemma ItemListsFollowSources(item: Json)
    requires ProcessItem(item).Success?
    ensures var r := ProcessItem(item);
      var variants := ElementsOf(Variants(item));
      var listings := ElementsOf(Listings(item));
      var summaries := ElementsOf(Summaries(item));
      var nodes := ElementsOf(NodesOf(item));
      && (r.value.additionalImages.Some? ==>
            |r.value.additionalImages.value| == |variants|
            && forall i :: 0 <= i < |variants| ==> r.value.additionalImages.value[i] == ImageOf(variants[i]))
      && (r.value.offers.Some? ==>
            |r.value.offers.value| == |listings|
            && forall i :: 0 <= i < |listings| ==> r.value.offers.value[i] == OfferOf(listings[i]))
      && (r.value.priceSummary.Some? ==>
            |r.value.priceSummary.value| == |summaries|
            && forall i :: 0 <= i < |summaries| ==> r.value.priceSummary.value[i] == SummaryOf(summaries[i]))
      && (r.value.categories.Some? ==>
            |r.value.categories.value| == |nodes|
            && forall i :: 0 <= i < |nodes| ==> r.value.categories.value[i] == CategoryOf(nodes[i]))
  {
  }

  /**
   * Each single-value group, when present, is its source copied or projected
   * field for field: the projection is what `processItem` promises.
   */
  lemma ItemValuesFollowSources(item: Json)
    requires ProcessItem(item).Success?
    ensures var r := ProcessItem(item).value;
      && (r.title.Some? ==> r.title == At(item, ["ItemInfo", "Title", "DisplayValue"]))
      && (r.features.Some? ==> r.features == At(item, ["ItemInfo", "Features", "DisplayValues"]))
      && (r.primaryImage.Some? ==> r.primaryImage.value == ImageOf(At(item, ["Images", "Primary"]).value))
      && (r.productInfo.Some? ==>
            var info := At(item, ["ItemInfo", "ProductInfo"]).value;
            r.productInfo.value == ProductInfo(At(info, ["Color", "DisplayValue"]), At(info, ["Size", "DisplayValue"]),
                                               At(info, ["UnitCount", "DisplayValue"])))
      && (r.technicalInfo.Some? ==>
            var info := At(item, ["ItemInfo", "TechnicalInfo"]).value;
            r.technicalInfo.value == TechnicalInfo(At(info, ["Brand", "DisplayValue"]),
                                                   At(info, ["Manufacturer", "DisplayValue"]),
                                                   At(info, ["Model", "DisplayValue"])))
      && (r.customerReviews.Some? ==>
            var reviews := Get(item, "CustomerReviews").value;
            r.customerReviews.value == CustomerReviews(Get(reviews, "Count"), At(reviews, ["StarRating", "Value"])))
  {
  }

  /** An item carrying nothing but its ASIN normalizes to the ASIN alone. */
  lemma AsinOnlyItem(asin: Json)
    ensures ProcessItem(JObj(map["ASIN" := asin]))
         == Success(PaItem(Some(asin), None, None, None, None, None, None, None, None, None, None))
  {
  }
}
