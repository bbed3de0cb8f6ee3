/**
 * Request-parameter assembly of the PA-API node: the `requestParameters`
 * object handed to the signing library for one input record, and the
 * validation errors that stop a record before any call.
 */
module PaRequest {
  import opened Wrappers
  import opened JsValue
  import opened JsString
  import opened Utils
  import opened ItemRecords

  const DefaultResource := "ItemInfo.Title"

  /** The node's "Additional Fields"; every entry is optional. */
  datatype PaAdditional = PaAdditional(
    condition: Option<string>, merchant: Option<string>,
    currencyOfPreference: Option<string>, languageOfPreference: Option<string>)

  /** The node parameters of one input record. */
  datatype PaInput = PaInput(
    operation: string,
    resources: seq<string>,
    itemIds: string,
    keywords: string,
    searchIndex: string,
    itemCount: int,
    browseNodeIds: string,
    additional: PaAdditional)

  /**
   * The PascalCase request parameters (`Resources`, `Condition`, `Merchant`,
   * `CurrencyOfPreference`, `LanguageOfPreference`, `ItemIds`, `ItemIdType`,
   * `Keywords`, `SearchIndex`, `ItemCount`, `BrowseNodeIds`); `None` fields
   * are not set.
   */
  datatype PaParameters = PaParameters(
    resources: seq<string>,
    condition: Option<string>,
    merchant: Option<string>,
    currencyOfPreference: Option<string>,
    languageOfPreference: Option<string>,
    itemIds: Option<seq<string>>,
    itemIdType: Option<string>,
    keywords: Option<string>,
    searchIndex: Option<string>,
    itemCount: Option<int>,
    browseNodeIds: Option<seq<string>>)

  datatype PaError =
    | ItemIdsMissing
    | NoValidItemId
    | KeywordsMissing
    | BrowseNodeIdsMissing
    | NoValidBrowseNodeId
    | UnknownOperation(operation: string)
  {
    /** The text the node throws for this error: never empty, and naming an unknown operation. */
    function Message(): (r: string)
      ensures r != ""
      ensures UnknownOperation? ==> |r| > |operation| && r[|r| - |operation|..] == operation
    {
      match this
      case ItemIdsMissing => "Item IDs are required"
      case NoValidItemId => "At least one valid Item ID is required"
      case KeywordsMissing => "Keywords are required"
      case BrowseNodeIdsMissing => "Browse Node IDs are required"
      case NoValidBrowseNodeId => "At least one valid Browse Node ID is required"
      case UnknownOperation(op) => "Unknown operation: " + op
    }
  }


  /**
   * The parameters every operation shares: the selected resources, or the
   * title alone when none is selected, and each preference only when it is
   * truthy; no field of any operation yet.
   */
  function CommonParameters(input: PaInput): (r: PaParameters)
    ensures r.resources != []
    ensures input.resources != [] ==> r.resources == input.resources
    ensures input.resources == [] ==> r.resources == [DefaultResource]
    ensures KeptWhenTruthy(r.condition, input.additional.condition)
    ensures KeptWhenTruthy(r.merchant, input.additional.merchant)
    ensures KeptWhenTruthy(r.currencyOfPreference, input.additional.currencyOfPreference)
    ensures KeptWhenTruthy(r.languageOfPreference, input.additional.languageOfPreference)
    ensures r.itemIds.None? && r.itemIdType.None? && r.keywords.None? && r.searchIndex.None? && r.itemCount.None?
    ensures r.browseNodeIds.None?
  {
    var add := input.additional;
    PaParameters(
      resources := if |input.resources| > 0 then input.resources else [DefaultResource],
      condition := TruthyText(add.condition),
      merchant := TruthyText(add.merchant),
      currencyOfPreference := TruthyText(add.currencyOfPreference),
      languageOfPreference := TruthyText(add.languageOfPreference),
      itemIds := None, itemIdType := None, keywords := None, searchIndex := None, itemCount := None,
      browseNodeIds := None)
  }

  /**
   * Why a record cannot be sent: a blank input first, then an input with no
   * usable id. The id chain `split(',')`, `trim`, `filter(id => id.length > 0)`
   * is `normalizeList` on a string.
   */
  function InputError(input: PaInput): (r: Option<PaError>)
    ensures r == Some(ItemIdsMissing) <==> input.operation == "getItems" && Trim(input.itemIds) == ""
    ensures r == Some(NoValidItemId) <==>
              input.operation == "getItems" && Trim(input.itemIds) != "" && NormalizeList(Str(input.itemIds)) == []
    ensures r == Some(KeywordsMissing) <==> input.operation == "searchItems" && Trim(input.keywords) == ""
    ensures r == Some(BrowseNodeIdsMissing) <==> input.operation == "getBrowseNodes" && Trim(input.browseNodeIds) == ""
    ensures r == Some(NoValidBrowseNodeId) <==>
              input.operation == "getBrowseNodes" && Trim(input.browseNodeIds) != "" && NormalizeList(Str(input.browseNodeIds)) == []
    ensures r == Some(UnknownOperation(input.operation)) <==>
              !KnownOperation(input.operation)
    ensures r.None? <==>
              || (input.operation == "getItems" && Trim(input.itemIds) != "" && NormalizeList(Str(input.itemIds)) != [])
              || (input.operation == "searchItems" && Trim(input.keywords) != "")
              || (input.operation == "getBrowseNodes" && Trim(input.browseNodeIds) != ""
                  && NormalizeList(Str(input.browseNodeIds)) != [])
  {
    if input.operation == "getItems" then
      if Trim(input.itemIds) == "" then Some(ItemIdsMissing)
      else if NormalizeList(Str(input.itemIds)) == [] then Some(NoValidItemId)
      else None
    else if input.operation == "searchItems" then
      if Trim(input.keywords) == "" then Some(KeywordsMissing) else None
    else if input.operation == "getBrowseNodes" then
      if Trim(input.browseNodeIds) == "" then Some(BrowseNodeIdsMissing)
      else if NormalizeList(Str(input.browseNodeIds)) == [] then Some(NoValidBrowseNodeId)
      else None
    else Some(UnknownOperation(input.operation))
  }

  /** The parameters of one record, as a specification. */
  function ParametersFor(input: PaInput): (r: Result<PaParameters, PaError>)
    ensures r.Failure? <==> InputError(input).Some?
    ensures r.Failure? ==> r.error == InputError(input).value
  {
    var common := CommonParameters(input);
    if InputError(input).Some? then Failure(InputError(input).value)
    else if input.operation == "getItems" then
      Success(common.(itemIds := Some(NormalizeList(Str(input.itemIds))), itemIdType := Some("ASIN")))
    else if input.operation == "searchItems" then
      Success(common.(keywords := Some(Trim(input.keywords)), searchIndex := Some(input.searchIndex),
                      itemCount := Some(input.itemCount)))
    else
      Success(common.(browseNodeIds := Some(NormalizeList(Str(input.browseNodeIds)))))
  }

  /** The shared part of the assembly: resources, then each truthy preference. */
  method AddCommonParameters(input: PaInput) returns (p: PaParameters)
    ensures p == CommonParameters(input)
  {
    var add := input.additional;
    p := PaParameters([], None, None, None, None, None, None, None, None, None, None);
    if |input.resources| > 0 {
      p := p.(resources := input.resources);
    } else {
      p := p.(resources := [DefaultResource]);
    }
    if add.condition.Some? && add.condition.value != "" {
      p := p.(condition := add.condition);
    }
    if add.merchant.Some? && add.merchant.value != "" {
      p := p.(merchant := add.merchant);
    }
    if add.currencyOfPreference.Some? && add.currencyOfPreference.value != "" {
      p := p.(currencyOfPreference := add.currencyOfPreference);
    }
    if add.languageOfPreference.Some? && add.languageOfPreference.value != "" {
      p := p.(languageOfPreference := add.languageOfPreference);
    }
  }

  /** The node's assembly of one record's parameters, in the source's order of checks. */
  method AssembleParameters(input: PaInput) returns (r: Result<PaParameters, PaError>)
    ensures r == ParametersFor(input)
  {
    var p := AddCommonParameters(input);
    if input.operation == "getItems" {
      if Trim(input.itemIds) == "" {
        return Failure(ItemIdsMissing);
      }
      p := p.(itemIds := Some(NormalizeList(Str(input.itemIds))));
      p := p.(itemIdType := Some("ASIN"));
      if p.itemIds.value == [] {
        return Failure(NoValidItemId);
      }
      r := Success(p);
    } else if input.operation == "searchItems" {
      if Trim(input.keywords) == "" {
        return Failure(KeywordsMissing);
      }
      p := p.(keywords := Some(Trim(input.keywords)), searchIndex := Some(input.searchIndex),
              itemCount := Some(input.itemCount));
      r := Success(p);
    } else if input.operation == "getBrowseNodes" {
      if Trim(input.browseNodeIds) == "" {
        return Failure(BrowseNodeIdsMissing);
      }
      p := p.(browseNodeIds := Some(NormalizeList(Str(input.browseNodeIds))));
      if p.browseNodeIds.value == [] {
        return Failure(NoValidBrowseNodeId);
      }
      r := Success(p);
    } else {
      r := Failure(UnknownOperation(input.operation));
    }
  }

  // ------------------------------------------------------------ properties

  /** Resources and preferences are the same for every operation; resources are never empty. */
  lemma ParametersCommonFields(input: PaInput)
    requires ParametersFor(input).Success?
    ensures var p := ParametersFor(input).value;
            && p.resources != []
            && (input.resources != [] ==> p.resources == input.resources)
            && (input.resources == [] ==> p.resources == [DefaultResource])
            && p.condition == TruthyText(input.additional.condition)
            && p.merchant == TruthyText(input.additional.merchant)
            && p.currencyOfPreference == TruthyText(input.additional.currencyOfPreference)
            && p.languageOfPreference == TruthyText(input.additional.languageOfPreference)
  {
  }

  /** `getItems` sends the clean, non-empty id list, typed as ASINs, and nothing of the other operations. */
  lemma GetItemsParameters(input: PaInput)
    requires ParametersFor(input).Success? && input.operation == "getItems"
    ensures var p := ParametersFor(input).value;
            && p.itemIds == Some(NormalizeList(Str(input.itemIds))) && p.itemIds.value != []
            && (forall x :: x in p.itemIds.value ==> x != "" && Trim(x) == x)
            && p.itemIdType == Some("ASIN")
            && p.keywords.None? && p.searchIndex.None? && p.itemCount.None? && p.browseNodeIds.None?
  {
  }

  /** `searchItems` sends the trimmed, non-empty keywords with the index and count as given. */
  lemma SearchItemsParameters(input: PaInput)
    requires ParametersFor(input).Success? && input.operation == "searchItems"
    ensures var p := ParametersFor(input).value;
            && p.keywords == Some(Trim(input.keywords)) && p.keywords.value != "" && Trimmed(p.keywords.value)
            && p.searchIndex == Some(input.searchIndex) && p.itemCount == Some(input.itemCount)
            && p.itemIds.None? && p.itemIdType.None? && p.browseNodeIds.None?
  {
  }

  /** `getBrowseNodes` sends the clean, non-empty node id list and nothing else of its own. */
  lemma BrowseNodeParameters(input: PaInput)
    requires ParametersFor(input).Success? && input.operation == "getBrowseNodes"
    ensures var p := ParametersFor(input).value;
            && p.browseNodeIds == Some(NormalizeList(Str(input.browseNodeIds))) && p.browseNodeIds.value != []
            && (forall x :: x in p.browseNodeIds.value ==> x != "" && Trim(x) == x)
            && p.itemIds.None? && p.itemIdType.None? && p.keywords.None?
  {
  }

  /**
   * The two id errors are distinct: a blank input is "required", while an
   * input of separators only, such as ",", passes the blank check and has no
   * valid id.
   */
  lemma SeparatorsOnlyHaveNoValidId(input: PaInput)
    requires input.operation == "getItems" && input.itemIds == ","
    ensures ParametersFor(input) == Failure(NoValidItemId)
  {
    assert Split(",", ',') == ["", ""] by {
      SplitJoin(["", ""], ',');
      assert Join(["", ""], ',') == ",";
    }
    assert TrimAll(["", ""]) == ["", ""];
    assert Trim(",") == "," by {
      assert !IsSpace(',');
    }
  }
}
