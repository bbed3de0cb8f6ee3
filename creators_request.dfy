/**
 * Request assembly of the Creators API node: the body of one catalog call,
 * built field by field from the node's parameters, and the validation errors
 * that stop a call before it is sent.
 */
module CreatorsRequest {
  import opened Wrappers
  import opened JsValue
  import opened JsString
  import opened Utils
  import opened ItemRecords

  const ApiBaseUrl := "https://creatorsapi.amazon"
  const DefaultResource := "itemInfo.title"

  /** The node's "Additional Fields" collection; every entry is optional. */
  datatype AdditionalFields = AdditionalFields(
    condition: Option<string>,
    currencyOfPreference: Option<string>,
    languagesOfPreference: Option<string>,
    itemPage: Option<int>,
    maxRetries: Option<int>,
    retryDelayMs: Option<int>)

  /** The node parameters of one input record. */
  datatype NodeInput = NodeInput(
    operation: string,
    partnerTag: string,
    itemIds: string,
    keywords: string,
    searchIndex: string,
    itemCount: int,
    resources: seq<string>,
    browseNodeIds: string,
    browseNodeResources: seq<string>,
    additional: AdditionalFields)

  /** The JSON body of a catalog call; `None` fields are not sent. */
  datatype RequestBody = RequestBody(
    partnerTag: string,
    condition: Option<string>,
    currencyOfPreference: Option<string>,
    languagesOfPreference: Option<seq<string>>,
    itemIds: Option<seq<string>>,
    keywords: Option<string>,
    searchIndex: Option<string>,
    itemCount: Option<int>,
    itemPage: Option<int>,
    browseNodeIds: Option<seq<string>>,
    resources: Option<seq<string>>)

  /** A call ready for the retry executor: URL, body and retry policy. */
  datatype ApiRequest = ApiRequest(url: string, body: RequestBody, maxRetries: int, retryDelayMs: int)

  datatype BuildError = NoItemIds | NoKeywords | NoBrowseNodeIds | UnknownOperation(operation: string)
  {
    /** The text the node throws for this error: never empty, and naming an unknown operation. */
    function Message(): (r: string)
      ensures r != ""
      ensures UnknownOperation? ==> |r| > |operation| && r[|r| - |operation|..] == operation
    {
      match this
      case NoItemIds => "At least one valid Item ID is required"
      case NoKeywords => "Keywords are required"
      case NoBrowseNodeIds => "At least one valid Browse Node ID is required"
      case UnknownOperation(op) => "Unknown operation: " + op
    }
  }


  /** A numeric field under `if (x)`: kept when non-zero. */
  function TruthyCount(o: Option<int>): (r: Option<int>)
    ensures r.Some? <==> o.Some? && o.value != 0
    ensures r.Some? ==> r == o
  {
    if o.Some? && o.value != 0 then o else None
  }

  /** `x ?? d`. */
  function OrElse(o: Option<int>, d: int): int {
    if o.Some? then o.value else d
  }

  /** The selected resources, or the title alone when none were selected. */
  function ResourcesOrDefault(resources: seq<string>): (r: seq<string>)
    ensures r != []
    ensures resources != [] ==> r == resources
    ensures resources == [] ==> r == [DefaultResource]
  {
    if resources != [] then resources else [DefaultResource]
  }

  /**
   * The fields every operation shares: the partner tag, and each preference
   * only when it is truthy (the languages as a normalized list); no field of
   * any operation yet.
   */
  function CommonBody(input: NodeInput): (r: RequestBody)
    ensures r.partnerTag == input.partnerTag
    ensures KeptWhenTruthy(r.condition, input.additional.condition)
    ensures KeptWhenTruthy(r.currencyOfPreference, input.additional.currencyOfPreference)
    ensures r.languagesOfPreference.Some? <==> TruthyText(input.additional.languagesOfPreference).Some?
    ensures r.languagesOfPreference.Some? ==>
              r.languagesOfPreference.value == NormalizeList(Str(input.additional.languagesOfPreference.value))
    ensures r.itemIds.None? && r.keywords.None? && r.searchIndex.None? && r.itemCount.None? && r.itemPage.None?
    ensures r.browseNodeIds.None? && r.resources.None?
  {
    var add := input.additional;
    RequestBody(
      partnerTag := input.partnerTag,
      condition := TruthyText(add.condition),
      currencyOfPreference := TruthyText(add.currencyOfPreference),
      languagesOfPreference :=
        if TruthyText(add.languagesOfPreference).Some? then Some(NormalizeList(Str(add.languagesOfPreference.value)))
        else None,
      itemIds := None, keywords := None, searchIndex := None, itemCount := None, itemPage := None,
      browseNodeIds := None, resources := None)
  }

  /** Why an input cannot be sent, checked in the order the source checks. */
  function InputError(input: NodeInput): (r: Option<BuildError>)
    ensures r == Some(NoItemIds) <==> input.operation == "getItems" && NormalizeList(Str(input.itemIds)) == []
    ensures r == Some(NoKeywords) <==> input.operation == "searchItems" && Trim(input.keywords) == ""
    ensures r == Some(NoBrowseNodeIds) <==>
              input.operation == "getBrowseNodes" && NormalizeList(Str(input.browseNodeIds)) == []
    ensures r == Some(UnknownOperation(input.operation)) <==> !KnownOperation(input.operation)
    ensures r.None? <==>
              || (input.operation == "getItems" && NormalizeList(Str(input.itemIds)) != [])
              || (input.operation == "searchItems" && Trim(input.keywords) != "")
              || (input.operation == "getBrowseNodes" && NormalizeList(Str(input.browseNodeIds)) != [])
  {
    match input.operation
    case "getItems" => if NormalizeList(Str(input.itemIds)) == [] then Some(NoItemIds) else None
    case "searchItems" => if Trim(input.keywords) == "" then Some(NoKeywords) else None
    case "getBrowseNodes" => if NormalizeList(Str(input.browseNodeIds)) == [] then Some(NoBrowseNodeIds) else None
    case _ => Some(UnknownOperation(input.operation))
  }

  /**
   * The call the node makes for one record, as a specification: the error of
   * an invalid input, otherwise the endpoint of the operation, a body with
   * exactly that operation's fields and the retry policy (2 retries of 500 ms
   * unless configured).
   */
  function RequestFor(input: NodeInput): (r: Result<ApiRequest, BuildError>)
    ensures r.Failure? <==> InputError(input).Some?
    ensures r.Failure? ==> r.error == InputError(input).value
  {
    var add := input.additional;
    var maxRetries := OrElse(add.maxRetries, 2);
    var retryDelayMs := OrElse(add.retryDelayMs, 500);
    var body := CommonBody(input);
    if InputError(input).Some? then Failure(InputError(input).value)
    else if input.operation == "getItems" then
      Success(ApiRequest(ApiBaseUrl + "/catalog/v1/getItems",
                         body.(itemIds := Some(NormalizeList(Str(input.itemIds))),
                               resources := Some(ResourcesOrDefault(input.resources))),
                         maxRetries, retryDelayMs))
    else if input.operation == "searchItems" then
      Success(ApiRequest(ApiBaseUrl + "/catalog/v1/searchItems",
                         body.(keywords := Some(Trim(input.keywords)), searchIndex := Some(input.searchIndex),
                               itemCount := Some(input.itemCount), itemPage := TruthyCount(add.itemPage),
                               resources := Some(ResourcesOrDefault(input.resources))),
                         maxRetries, retryDelayMs))
    else
      Success(ApiRequest(ApiBaseUrl + "/catalog/v1/getBrowseNodes",
                         body.(browseNodeIds := Some(NormalizeList(Str(input.browseNodeIds))),
                               resources := if input.browseNodeResources != [] then Some(input.browseNodeResources) else None),
                         maxRetries, retryDelayMs))
  }

  /** The first part of the assembly: the partner tag, then each preference that is truthy. */
  method AddPreferences(input: NodeInput) returns (body: RequestBody)
    ensures body == CommonBody(input)
  {
    var add := input.additional;
    body := RequestBody(input.partnerTag, None, None, None, None, None, None, None, None, None, None);
    if add.condition.Some? && add.condition.value != "" {
      body := body.(condition := add.condition);
    }
    if add.currencyOfPreference.Some? && add.currencyOfPreference.value != "" {
      body := body.(currencyOfPreference := add.currencyOfPreference);
    }
    if add.languagesOfPreference.Some? && add.languagesOfPreference.value != "" {
      body := body.(languagesOfPreference := Some(NormalizeList(Str(add.languagesOfPreference.value))));
    }
  }

  /**
   * The node's assembly of one call: the common fields first, then the
   * operation validates its input and adds its own fields.
   */
  method AssembleRequest(input: NodeInput) returns (r: Result<ApiRequest, BuildError>)
    ensures r == RequestFor(input)
  {
    var add := input.additional;
    var body := AddPreferences(input);
    var maxRetries := if add.maxRetries.Some? then add.maxRetries.value else 2;
    var retryDelayMs := if add.retryDelayMs.Some? then add.retryDelayMs.value else 500;
    if input.operation == "getItems" {
      var itemIds := NormalizeList(Str(input.itemIds));
      if itemIds == [] {
        return Failure(NoItemIds);
      }
      body := body.(itemIds := Some(itemIds));
      body := body.(resources := Some(if input.resources != [] then input.resources else [DefaultResource]));
      r := Success(ApiRequest(ApiBaseUrl + "/catalog/v1/getItems", body, maxRetries, retryDelayMs));
    } else if input.operation == "searchItems" {
      var keywords := Trim(input.keywords);
      if keywords == "" {
        return Failure(NoKeywords);
      }
      body := body.(keywords := Some(keywords), searchIndex := Some(input.searchIndex), itemCount := Some(input.itemCount));
      if add.itemPage.Some? && add.itemPage.value != 0 {
        body := body.(itemPage := add.itemPage);
      }
      body := body.(resources := Some(if input.resources != [] then input.resources else [DefaultResource]));
      r := Success(ApiRequest(ApiBaseUrl + "/catalog/v1/searchItems", body, maxRetries, retryDelayMs));
    } else if input.operation == "getBrowseNodes" {
      var browseNodeIds := NormalizeList(Str(input.browseNodeIds));
      if browseNodeIds == [] {
        return Failure(NoBrowseNodeIds);
      }
      body := body.(browseNodeIds := Some(browseNodeIds));
      if input.browseNodeResources != [] {
        body := body.(resources := Some(input.browseNodeResources));
      }
      r := Success(ApiRequest(ApiBaseUrl + "/catalog/v1/getBrowseNodes", body, maxRetries, retryDelayMs));
    } else {
      r := Failure(UnknownOperation(input.operation));
    }
  }

  // ------------------------------------------------------------ properties

  /** Every call carries the partner tag, the truthy preferences and the retry policy, and never an empty id or resource list. */
  lemma RequestCommonFields(input: NodeInput)
    requires RequestFor(input).Success?
    ensures var req := RequestFor(input).value;
      var b := req.body;
      var add := input.additional;
      && b.partnerTag == input.partnerTag
      && b.condition == TruthyText(add.condition)
      && b.currencyOfPreference == TruthyText(add.currencyOfPreference)
      && b.languagesOfPreference ==
           (if TruthyText(add.languagesOfPreference).Some? then Some(NormalizeList(Str(add.languagesOfPreference.value))) else None)
      && req.maxRetries == OrElse(add.maxRetries, 2)
      && req.retryDelayMs == OrElse(add.retryDelayMs, 500)
      && b.itemIds != Some([]) && b.browseNodeIds != Some([]) && b.resources != Some([])
  {
  }

  /** `getItems` posts the normalized ids and the resources (the title by default), and nothing of the other operations. */
  lemma GetItemsRequest(input: NodeInput)
    requires RequestFor(input).Success? && input.operation == "getItems"
    ensures var req := RequestFor(input).value;
      var b := req.body;
      && req.url == ApiBaseUrl + "/catalog/v1/getItems"
      && b.itemIds == Some(NormalizeList(Str(input.itemIds)))
      && b.resources == Some(ResourcesOrDefault(input.resources))
      && b.keywords.None? && b.searchIndex.None? && b.itemCount.None? && b.itemPage.None? && b.browseNodeIds.None?
  {
  }

  /** `searchItems` posts the trimmed, non-empty keywords, the index, the count, a non-zero page and the resources. */
  lemma SearchItemsRequest(input: NodeInput)
    requires RequestFor(input).Success? && input.operation == "searchItems"
    ensures var req := RequestFor(input).value;
      var b := req.body;
      && req.url == ApiBaseUrl + "/catalog/v1/searchItems"
      && b.keywords == Some(Trim(input.keywords)) && Trim(input.keywords) != ""
      && b.searchIndex == Some(input.searchIndex) && b.itemCount == Some(input.itemCount)
      && b.itemPage == TruthyCount(input.additional.itemPage)
      && b.resources == Some(ResourcesOrDefault(input.resources))
      && b.itemIds.None? && b.browseNodeIds.None?
  {
  }

  /** `getBrowseNodes` posts the normalized node ids, and resources only when some were selected. */
  lemma BrowseNodesRequest(input: NodeInput)
    requires RequestFor(input).Success? && input.operation == "getBrowseNodes"
    ensures var req := RequestFor(input).value;
      var b := req.body;
      && req.url == ApiBaseUrl + "/catalog/v1/getBrowseNodes"
      && b.browseNodeIds == Some(NormalizeList(Str(input.browseNodeIds)))
      && (b.resources.Some? <==> input.browseNodeResources != [])
      && (b.resources.Some? ==> b.resources.value == input.browseNodeResources)
      && b.itemIds.None? && b.keywords.None? && b.searchIndex.None? && b.itemCount.None? && b.itemPage.None?
  {
  }

  /** Every id sent is non-empty and already trimmed, and ids keep their input order. */
  lemma SentIdsAreClean(input: NodeInput)
    requires RequestFor(input).Success? && input.operation == "getItems"
    ensures var ids := RequestFor(input).value.body.itemIds.value;
            && (forall x :: x in ids ==> x != "" && Trim(x) == x)
            && IsSubsequence(ids, TrimAll(Split(input.itemIds, ',')))
  {
  }

  /**
   * Preferences that are present but hold no usable entry are still sent,
   * as an empty list: the body is not free of empty lists.
   */
  lemma BlankLanguagesSentAsEmptyList(input: NodeInput)
    requires input.additional.languagesOfPreference == Some(",")
    requires RequestFor(input).Success?
    ensures RequestFor(input).value.body.languagesOfPreference == Some([])
  {
    RequestCommonFields(input);
    CommaOnlyNormalizesEmpty();
  }

  /** "," splits into two empty pieces, and both are filtered out. */
  lemma CommaOnlyNormalizesEmpty()
    ensures NormalizeList(Str(",")) == []
  {
    assert Split(",", ',') == ["", ""] by {
      SplitJoin(["", ""], ',');
      assert Join(["", ""], ',') == ",";
    }
    assert TrimAll(["", ""]) == ["", ""];
  }
}
