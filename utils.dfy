/**
 * The three pure helpers of the Creators API node: list normalisation, the
 * price summary over offer listings, and the `Retry-After` header parser
 * (section 10.2.3 of RFC 9110; its date form is the HTTP-date of section
 * 5.6.7).
 */
module Utils {
  import opened Wrappers
  import opened JsValue
  import opened JsString

  /** A parameter typed `string | string[]`. */
  datatype StringOrList = Str(s: string) | Strs(items: seq<string>)

  /** `a` keeps some of the elements of `b`, in their order. */
  predicate IsSubsequence<T(==)>(a: seq<T>, b: seq<T>)
    decreases |b|
  {
    if a == [] then true
    else if b == [] then false
    else if a[0] == b[0] then IsSubsequence(a[1..], b[1..])
    else IsSubsequence(a, b[1..])
  }

  /** `xs.map(e => e.trim())` */
  function TrimAll(xs: seq<string>): (r: seq<string>)
    ensures |r| == |xs|
    ensures forall k :: 0 <= k < |xs| ==> r[k] == Trim(xs[k])
  {
    seq(|xs|, k requires 0 <= k < |xs| => Trim(xs[k]))
  }

  /** `xs.filter(Boolean)` on strings: the empty ones go, the rest keep their order. */
  function DropEmpty(xs: seq<string>): (r: seq<string>)
    ensures |r| <= |xs|
    ensures "" !in r
    ensures IsSubsequence(r, xs)
    ensures forall x :: x in r <==> x in xs && x != ""
  {
    if xs == [] then []
    else if xs[0] == "" then DropEmpty(xs[1..])
    else [xs[0]] + DropEmpty(xs[1..])
  }

  /**
   * `filter(Boolean)` drops nothing but empty strings: every other entry
   * survives as often as it occurs, so the length falls by exactly the
   * number of empty entries.
   */
  lemma {:induction false} DropEmptyKeepsRepeats(xs: seq<string>)
    ensures multiset(DropEmpty(xs)) == multiset(xs)["" := 0]
    ensures |DropEmpty(xs)| == |xs| - multiset(xs)[""]
  {
    if xs != [] {
      DropEmptyKeepsRepeats(xs[1..]);
      assert xs == [xs[0]] + xs[1..];
    }
  }

  /** The pieces `normalizeList` trims: the comma-separated parts of a string, or the array itself. */
  function Pieces(value: StringOrList): seq<string> {
    match value
    case Str(s) => Split(s, ',')
    case Strs(xs) => xs
  }

  /**
   * `normalizeList`: every entry is non-empty and already trimmed, the
   * entries are the non-empty trimmed pieces in their input order, and there
   * are no more of them than pieces.
   */
  function NormalizeList(value: StringOrList): (r: seq<string>)
    ensures forall k :: 0 <= k < |r| ==> r[k] != "" && Trim(r[k]) == r[k]
    ensures |r| <= |Pieces(value)|
    ensures IsSubsequence(r, TrimAll(Pieces(value)))
    ensures forall x :: x in r <==> x != "" && x in TrimAll(Pieces(value))
  {
    TrimmedSurvivors(Pieces(value));
    DropEmpty(TrimAll(Pieces(value)))
  }

  /** What survives trimming and filtering is its own trim. */
  lemma TrimmedSurvivors(xs: seq<string>)
    ensures forall k :: 0 <= k < |DropEmpty(TrimAll(xs))| ==> Trim(DropEmpty(TrimAll(xs))[k]) == DropEmpty(TrimAll(xs))[k]
  {
    var t := TrimAll(xs);
    var r := DropEmpty(t);
    forall k | 0 <= k < |r| ensures Trim(r[k]) == r[k] {
      assert r[k] in t;
      var j :| 0 <= j < |t| && t[j] == r[k];
      TrimOfTrimmed(r[k]);
    }
  }

  /**
   * `normalizeList` keeps repeated entries: each non-empty trimmed piece
   * appears as often as it occurs, and only the pieces that trim to "" are
   * lost.
   */
  lemma NormalizeListKeepsRepeats(value: StringOrList)
    ensures multiset(NormalizeList(value)) == multiset(TrimAll(Pieces(value)))["" := 0]
    ensures |NormalizeList(value)| == |Pieces(value)| - multiset(TrimAll(Pieces(value)))[""]
  {
    DropEmptyKeepsRepeats(TrimAll(Pieces(value)));
  }

  /** Entries that are non-empty and trimmed pass through a second normalisation unchanged. */
  lemma {:induction false} NormalizeClean(xs: seq<string>)
    requires forall k :: 0 <= k < |xs| ==> xs[k] != "" && Trim(xs[k]) == xs[k]
    ensures DropEmpty(TrimAll(xs)) == xs
  {
    if xs != [] {
      NormalizeClean(xs[1..]);
      assert TrimAll(xs)[1..] == TrimAll(xs[1..]);
      assert [xs[0]] + xs[1..] == xs;
    }
  }

  /** `normalizeList(normalizeList(x)) == normalizeList(x)`, through the array branch. */
  lemma NormalizeListIdempotent(value: StringOrList)
    ensures NormalizeList(Strs(NormalizeList(value))) == NormalizeList(value)
  {
    NormalizeClean(NormalizeList(value));
  }

  // ---------------------------------------------------------------- prices

  /** The offer aggregate of the Offers V2 schema. */
  datatype PriceSummary = PriceSummary(offerCount: nat, lowestPrice: real, highestPrice: real)

  /** `listing?.price?.money?.amount` when it is a number. */
  function AmountOf(listing: Json): Option<real> {
    var a := Path(Some(listing), ["price", "money", "amount"]);
    if a.Some? && a.value.JNum? then Some(a.value.n) else None
  }

  /** The numeric amounts of the listings, in listing order, unpriced listings skipped. */
  function Prices(listings: seq<Json>): (r: seq<real>)
    ensures |r| <= |listings|
    ensures forall p :: p in r ==> exists l :: l in listings && AmountOf(l) == Some(p)
    ensures forall l :: l in listings && AmountOf(l).Some? ==> AmountOf(l).value in r
  {
    if listings == [] then []
    else
      var rest := Prices(listings[1..]);
      assert forall l :: l in listings[1..] ==> l in listings;
      match AmountOf(listings[0])
      case Some(p) => [p] + rest
      case None => rest
  }

  /** `Math.min(...ps)` on a non-empty list. */
  function Lowest(ps: seq<real>): (m: real)
    requires ps != []
    ensures m in ps
    ensures forall p :: p in ps ==> m <= p
  {
    if |ps| == 1 then ps[0]
    else
      var m := Lowest(ps[1..]);
      assert forall p :: p in ps ==> p == ps[0] || p in ps[1..];
      if ps[0] <= m then ps[0] else m
  }

  /** `Math.max(...ps)` on a non-empty list. */
  function Highest(ps: seq<real>): (m: real)
    requires ps != []
    ensures m in ps
    ensures forall p :: p in ps ==> p <= m
  {
    if |ps| == 1 then ps[0]
    else
      var m := Highest(ps[1..]);
      assert forall p :: p in ps ==> p == ps[0] || p in ps[1..];
      if ps[0] >= m then ps[0] else m
  }

  /**
   * `buildPriceSummary`: absent exactly when no listing has a numeric amount;
   * otherwise `offerCount` counts every listing, priced or not, and the two
   * bounds are amounts of some listing that enclose every amount.
   */
  function BuildPriceSummary(listings: seq<Json>): (r: Option<PriceSummary>)
    ensures r.None? <==> forall l :: l in listings ==> AmountOf(l).None?
    ensures r.Some? ==> r.value.offerCount == |listings|
    ensures r.Some? ==> exists l :: l in listings && AmountOf(l) == Some(r.value.lowestPrice)
    ensures r.Some? ==> exists l :: l in listings && AmountOf(l) == Some(r.value.highestPrice)
    ensures r.Some? ==> forall l :: l in listings && AmountOf(l).Some? ==>
              r.value.lowestPrice <= AmountOf(l).value <= r.value.highestPrice
  {
    var prices := Prices(listings);
    if prices == [] then
      None
    else
      Some(PriceSummary(|listings|, Lowest(prices), Highest(prices)))
  }

  /** An empty listing array has no summary. */
  lemma NoListingsNoSummary()
    ensures BuildPriceSummary([]) == None
  {
  }

  /** The package's test: one listing priced 49.99 gives count 1 and both bounds 49.99. */
  lemma SinglePricedListing(amount: real)
    ensures BuildPriceSummary([JObj(map["price" := JObj(map["money" := JObj(map["amount" := JNum(amount)])])])])
         == Some(PriceSummary(1, amount, amount))
  {
    var l := JObj(map["price" := JObj(map["money" := JObj(map["amount" := JNum(amount)])])]);
    assert AmountOf(l) == Some(amount);
    assert Prices([l]) == [amount];
  }

  // ------------------------------------------------------------ retry-after

  /**
   * The delay a response's `retry-after` header asks for, in milliseconds.
   * `toNumber` is JavaScript's `Number()` (None for NaN), `parseDate` is
   * `Date.parse` (None for NaN) and `now` is `Date.now()`.
   * The only way to throw is an empty array: its element 0 is `undefined`,
   * whose `trim` is a TypeError.
   */
  function ParseRetryAfter(header: Option<StringOrList>, toNumber: string -> Option<real>,
                           parseDate: string -> Option<int>, now: int): (r: Result<Option<real>, JsError>)
    ensures r.Failure? <==> header == Some(Strs([]))
    ensures r.Success? && r.value.Some? ==> r.value.value >= 0.0
    ensures header.None? || header == Some(Str("")) ==> r == Success(None)
    ensures forall v :: header == Some(Str(v)) || (header.Some? && header.value.Strs? && header.value.items != [] && header.value.items[0] == v) ==>
              r == Success(RetryHint(v, toNumber, parseDate, now))
  {
    match header
    case None => Success(None)
    case Some(Str(v)) => if v == "" then Success(None) else Success(RetryHint(v, toNumber, parseDate, now))
    case Some(Strs(vs)) => if vs == [] then Failure(TypeError) else Success(RetryHint(vs[0], toNumber, parseDate, now))
  }

  /**
   * One header value: blank gives no hint; a number of seconds gives that many
   * thousand milliseconds, and a date the time left until it, both clamped at 0;
   * anything else gives no hint. These formulas are the promise itself, so the
   * contract states each case's value outright.
   */
  function RetryHint(value: string, toNumber: string -> Option<real>,
                     parseDate: string -> Option<int>, now: int): (r: Option<real>)
    ensures r.Some? ==> r.value >= 0.0
    ensures Blank(value) ==> r.None?
    ensures !Blank(value) && toNumber(Trim(value)).Some? ==>
              r == Some(if toNumber(Trim(value)).value * 1000.0 >= 0.0 then toNumber(Trim(value)).value * 1000.0 else 0.0)
    ensures !Blank(value) && toNumber(Trim(value)).None? && parseDate(Trim(value)).None? ==> r.None?
    ensures !Blank(value) && toNumber(Trim(value)).None? && parseDate(Trim(value)).Some? ==>
              r == Some(if parseDate(Trim(value)).value > now then (parseDate(Trim(value)).value - now) as real else 0.0)
  {
    TrimEmptyIffBlank(value);
    var trimmed := Trim(value);
    if trimmed == "" then None
    else
      match toNumber(trimmed)
      case Some(seconds) => Some(if seconds * 1000.0 >= 0.0 then seconds * 1000.0 else 0.0)
      case None =>
        match parseDate(trimmed)
        case None => None
        case Some(dateMs) => Some(if dateMs - now > 0 then (dateMs - now) as real else 0.0)
  }

  /** `parseRetryAfter("5") == 5000`, for any `Number()` that reads "5" as 5. */
  lemma RetryAfterFiveSeconds(toNumber: string -> Option<real>, parseDate: string -> Option<int>, now: int)
    requires toNumber("5") == Some(5.0)
    ensures ParseRetryAfter(Some(Str("5")), toNumber, parseDate, now) == Success(Some(5000.0))
  {
    assert !IsSpace('5');
    assert Trimmed("5");
    TrimOfTrimmed("5");
  }

  /** A date two seconds ahead of the clock asks for 2000 ms; a date in the past asks for 0. */
  lemma RetryAfterDate(v: string, toNumber: string -> Option<real>, parseDate: string -> Option<int>, now: int)
    requires v != "" && Trimmed(v)
    requires toNumber(v).None?
    requires parseDate(v).Some?
    ensures parseDate(v).value == now + 2000 ==> ParseRetryAfter(Some(Str(v)), toNumber, parseDate, now) == Success(Some(2000.0))
    ensures parseDate(v).value <= now ==> ParseRetryAfter(Some(Str(v)), toNumber, parseDate, now) == Success(Some(0.0))
  {
    TrimOfTrimmed(v);
    TrimEmptyIffBlank(v);
  }
}

/** The concrete cases the package's tests check, evaluated on the model. */
module UtilsExamples {
  import opened JsString
  import opened Utils

  /** The two cases of the package's own tests. */
  lemma NormalizeListExamples()
    ensures NormalizeList(Str("a, b ,c")) == ["a", "b", "c"]
    ensures NormalizeList(Strs([" a ", "b", ""])) == ["a", "b"]
  {
    assert Split("a, b ,c", ',') == ["a", " b ", "c"] by {
      assert Join(["a", " b ", "c"], ',') == "a, b ,c";
      SplitJoin(["a", " b ", "c"], ',');
    }
    TrimAllOfThree("a", " b ", "c");
    TrimAllOfThree(" a ", "b", "");
    TrimLetters();
    TrimSpaced();
    DropEmptyOfThree("a", "b", "c");
    DropEmptyOfThree("a", "b", "");
  }

  /** Repeated entries are all kept: `filter(Boolean)` drops empty strings only. */
  lemma RepeatedEntriesKept()
    ensures NormalizeList(Strs(["a", " a ", "a"])) == ["a", "a", "a"]
  {
    TrimAllOfThree("a", " a ", "a");
    TrimLetters();
    TrimSpaced();
    DropEmptyOfThree("a", "a", "a");
  }

  lemma TrimAllOfThree(x: string, y: string, z: string)
    ensures TrimAll([x, y, z]) == [Trim(x), Trim(y), Trim(z)]
  {
  }

  lemma DropEmptyOfThree(x: string, y: string, z: string)
    requires x != "" && y != ""
    ensures DropEmpty([x, y, z]) == if z == "" then [x, y] else [x, y, z]
  {
    assert [x, y, z][1..] == [y, z];
    assert [y, z][1..] == [z];
    assert [z][1..] == [];
    assert DropEmpty([z]) == if z == "" then [] else [z];
    assert DropEmpty([y, z]) == [y] + DropEmpty([z]);
  }

  lemma TrimLetters()
    ensures Trim("a") == "a" && Trim("b") == "b" && Trim("c") == "c"
  {
    TrimLetter('a');
    TrimLetter('b');
    TrimLetter('c');
  }

  lemma TrimLetter(c: char)
    requires 'a' <= c <= 'z'
    ensures Trim([c]) == [c]
  {
    TrimOfTrimmed([c]);
  }

  lemma TrimSpaced()
    ensures Trim(" a ") == "a" && Trim(" b ") == "b"
  {
    assert IsSpace(' ') && !IsSpace('a') && !IsSpace('b');
    assert TrimStart(" a ") == "a " by {
      assert " a "[1..] == "a ";
    }
    assert TrimEnd("a ") == "a" by {
      assert "a "[..1] == "a";
    }
    assert TrimStart(" b ") == "b " by {
      assert " b "[1..] == "b ";
    }
    assert TrimEnd("b ") == "b" by {
      assert "b "[..1] == "b";
    }
  }
}
