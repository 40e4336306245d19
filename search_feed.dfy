/** The search page's feed controller: eight text filters read from and written
    back to the URL query, an offset-paged result list that a fresh search
    replaces and a continuation extends, the infinite-scroll guard, the
    active-filter count and the removable filter pills. */
module SearchFeed {
  import opened Text

  /** ITEMS_PER_PAGE: the page size requested and the step of the offset. */
  const PageSize: int := 20

  // ---------------------------------------------------------------------------
  // URL query parameters

  /** A URL query as the ordered list of its name/value pairs (percent-encoding is not modelled). */
  type QueryParams = seq<(string, string)>

  predicate HasKey(params: QueryParams, key: string) {
    exists i :: 0 <= i < |params| && params[i].0 == key
  }

  /** `URLSearchParams.get`: the value of the first pair named `key`, or null. */
  function Get(params: QueryParams, key: string): (r: Option<string>)
    ensures r.Some? <==> HasKey(params, key)
    ensures r.Some? ==> (key, r.value) in params
  {
    if params == [] then None
    else if params[0].0 == key then Some(params[0].1)
    else
      assert HasKey(params, key) ==> HasKey(params[1..], key) by {
        if HasKey(params, key) {
          var i :| 0 <= i < |params| && params[i].0 == key;
          assert params[1..][i - 1].0 == key;
        }
      }
      Get(params[1..], key)
  }

  /** Looking a key up in a list with one more pair at the end. */
  lemma {:induction false} GetAppend(params: QueryParams, p: (string, string), key: string)
    ensures Get(params + [p], key) ==
      if HasKey(params, key) then Get(params, key) else if p.0 == key then Some(p.1) else None
  {
    if params == [] {
      assert params + [p] == [p];
    } else {
      assert (params + [p])[1..] == params[1..] + [p];
      GetAppend(params[1..], p, key);
      if params[0].0 != key {
        assert HasKey(params, key) ==> HasKey(params[1..], key) by {
          if HasKey(params, key) {
            var i :| 0 <= i < |params| && params[i].0 == key;
            assert params[1..][i - 1].0 == key;
          }
        }
        assert HasKey(params[1..], key) ==> HasKey(params, key) by {
          if HasKey(params[1..], key) {
            var i :| 0 <= i < |params[1..]| && params[1..][i].0 == key;
            assert params[i + 1].0 == key;
          }
        }
      }
    }
  }

  /** Every pair except those named `key`, in order. */
  function RemoveKey(params: QueryParams, key: string): (r: QueryParams)
    ensures !HasKey(r, key)
    ensures forall k :: k != key ==> Get(r, k) == Get(params, k)
  {
    if params == [] then []
    else if params[0].0 == key then RemoveKey(params[1..], key)
    else
      var rest := RemoveKey(params[1..], key);
      assert !HasKey([params[0]] + rest, key) by {
        forall i | 0 <= i < |[params[0]] + rest| ensures ([params[0]] + rest)[i].0 != key {
          if i > 0 { assert ([params[0]] + rest)[i] == rest[i - 1]; }
        }
      }
      [params[0]] + rest
  }

  /** Looking a key up in a list with one more pair in front. */
  lemma GetCons(p: (string, string), rest: QueryParams, key: string)
    ensures Get([p] + rest, key) == if p.0 == key then Some(p.1) else Get(rest, key)
  {
    assert ([p] + rest)[1..] == rest;
  }

  /** `URLSearchParams.set`: the first pair named `key` takes the value and the
      later ones are dropped; with no such pair, one is appended. */
  function SetParam(params: QueryParams, key: string, value: string): (r: QueryParams)
    ensures forall k :: Get(r, k) == if k == key then Some(value) else Get(params, k)
    ensures !HasKey(params, key) ==> r == params + [(key, value)]
  {
    if params == [] then [(key, value)]
    else if params[0].0 == key then
      var rest := RemoveKey(params[1..], key);
      assert forall k :: Get([(key, value)] + rest, k) == if k == key then Some(value) else Get(rest, k) by {
        forall k { GetCons((key, value), rest, k); }
      }
      [(key, value)] + rest
    else
      var rest := SetParam(params[1..], key, value);
      assert forall k :: Get([params[0]] + rest, k) == if params[0].0 == k then Some(params[0].1) else Get(rest, k) by {
        forall k { GetCons(params[0], rest, k); }
      }
      assert !HasKey(params, key) ==> !HasKey(params[1..], key) by {
        if HasKey(params[1..], key) {
          var i :| 0 <= i < |params[1..]| && params[1..][i].0 == key;
          assert params[i + 1].0 == key;
        }
      }
      assert params == [params[0]] + params[1..];
      [params[0]] + rest
  }

  /** The query `syncToUrl` builds: `url.set(key, value)` for each entry, in
      order, whose value is non-empty (truthy). */
  function Written(entries: seq<(string, string)>): QueryParams {
    if entries == [] then []
    else
      var last := entries[|entries| - 1];
      var before := Written(entries[..|entries| - 1]);
      if last.1 != "" then SetParam(before, last.0, last.1) else before
  }

  /** The entries whose value is non-empty, in order. */
  function NonEmptyEntries(entries: seq<(string, string)>): (r: QueryParams)
    ensures forall i :: 0 <= i < |r| ==> r[i].1 != "" && r[i] in entries
  {
    if entries == [] then []
    else
      var last := entries[|entries| - 1];
      var before := NonEmptyEntries(entries[..|entries| - 1]);
      assert forall p :: p in before ==> p in entries by {
        forall p | p in before ensures p in entries {
          var j :| 0 <= j < |entries[..|entries| - 1]| && entries[..|entries| - 1][j] == p;
          assert entries[j] == p;
        }
      }
      if last.1 != "" then before + [last] else before
  }

  predicate KeysDistinct(entries: seq<(string, string)>) {
    forall i, j :: 0 <= i < j < |entries| ==> entries[i].0 != entries[j].0
  }

  /** The non-empty part has no key the entries lack. */
  lemma {:induction false} NonEmptyKeysAbsent(entries: seq<(string, string)>, key: string)
    requires !HasKey(entries, key)
    ensures !HasKey(NonEmptyEntries(entries), key)
  {
    var r := NonEmptyEntries(entries);
    forall i | 0 <= i < |r| ensures r[i].0 != key {
      var j :| 0 <= j < |entries| && entries[j] == r[i];
    }
  }

  /** In a list with distinct keys, no earlier pair shares the last pair's key. */
  lemma LastKeyFresh(entries: seq<(string, string)>)
    requires KeysDistinct(entries) && entries != []
    ensures !HasKey(entries[..|entries| - 1], entries[|entries| - 1].0)
  {
    var n := |entries| - 1;
    forall i | 0 <= i < n ensures entries[..n][i].0 != entries[n].0 {
      assert entries[..n][i] == entries[i];
    }
  }

  /** With distinct keys every `set` appends, so `syncToUrl` writes exactly the
      non-empty entries, in their given order. */
  lemma {:induction false} WrittenDistinct(entries: seq<(string, string)>)
    requires KeysDistinct(entries)
    ensures Written(entries) == NonEmptyEntries(entries)
  {
    if entries != [] {
      var n := |entries| - 1;
      var front := entries[..n];
      var last := entries[n];
      FrontDistinct(entries);
      WrittenDistinct(front);
      if last.1 != "" {
        LastKeyFresh(entries);
        NonEmptyKeysAbsent(front, last.0);
        assert Written(entries) == SetParam(NonEmptyEntries(front), last.0, last.1);
        assert NonEmptyEntries(entries) == NonEmptyEntries(front) + [last];
      } else {
        assert Written(entries) == Written(front);
        assert NonEmptyEntries(entries) == NonEmptyEntries(front);
      }
    }
  }

  lemma FrontDistinct(entries: seq<(string, string)>)
    requires KeysDistinct(entries) && entries != []
    ensures KeysDistinct(entries[..|entries| - 1])
  {
    var front := entries[..|entries| - 1];
    forall a, b | 0 <= a < b < |front| ensures front[a].0 != front[b].0 {
      assert front[a] == entries[a] && front[b] == entries[b];
    }
  }

  /** Looking up a key of a distinct-key entry list in its non-empty part. */
  lemma {:induction false} GetNonEmpty(entries: seq<(string, string)>, i: int)
    requires KeysDistinct(entries)
    requires 0 <= i < |entries|
    ensures Get(NonEmptyEntries(entries), entries[i].0) ==
      if entries[i].1 != "" then Some(entries[i].1) else None
  {
    var n := |entries| - 1;
    var front := entries[..n];
    var last := entries[n];
    var key := entries[i].0;
    FrontDistinct(entries);
    var before := NonEmptyEntries(front);
    assert NonEmptyEntries(entries) == if last.1 != "" then before + [last] else before;
    if i == n {
      LastKeyFresh(entries);
      NonEmptyKeysAbsent(front, key);
      if last.1 != "" { GetAppend(before, last, key); }
    } else {
      assert front[i] == entries[i];
      GetNonEmpty(front, i);
      if last.1 != "" {
        assert last.0 != key;
        GetAppend(before, last, key);
      }
    }
  }

  /** Where the router is sent: a path and a query. */
  datatype Location = Location(pathname: string, query: QueryParams)

  /** `url.toString()` without percent-encoding: `key=value` pairs joined by `&`. */
  function Serialize(q: QueryParams): (r: string)
    ensures r == "" <==> q == []
  {
    if q == [] then ""
    else if |q| == 1 then q[0].0 + "=" + q[0].1
    else q[0].0 + "=" + q[0].1 + "&" + Serialize(q[1..])
  }

  /** `/search${paramStr ? `?${paramStr}` : ""}` */
  function Href(loc: Location): (r: string)
    ensures r == loc.pathname <==> loc.query == []
  {
    var paramStr := Serialize(loc.query);
    loc.pathname + (if paramStr != "" then "?" + paramStr else "")
  }

  /** `syncToUrl`: fill a fresh URLSearchParams with the non-empty entries and
      replace the location with `/search` and that query. */
  method SyncToUrl(entries: seq<(string, string)>) returns (loc: Location)
    ensures loc == Location("/search", Written(entries))
  {
    var url: QueryParams := [];
    var i := 0;
    while i < |entries|
      invariant 0 <= i <= |entries|
      invariant url == Written(entries[..i])
    {
      var entry := entries[i];
      if entry.1 != "" {
        url := SetParam(url, entry.0, entry.1);
      }
      assert entries[..i + 1][..i] == entries[..i];
      i := i + 1;
    }
    assert entries[..|entries|] == entries;
    loc := Location("/search", url);
  }

  // ---------------------------------------------------------------------------
  // The eight filters

  datatype Filters = Filters(
    query: string, offerType: string, sortBy: string, categoryId: string,
    condition: string, hall: string, priceMin: string, priceMax: string)

  datatype FilterField = Query | OfferType | SortBy | CategoryId | Condition | Hall | PriceMin | PriceMax

  /** The URL parameter that carries each field. */
  function Key(field: FilterField): string {
    match field
    case Query => "q"
    case OfferType => "type"
    case SortBy => "sort"
    case CategoryId => "category"
    case Condition => "condition"
    case Hall => "hall"
    case PriceMin => "price_min"
    case PriceMax => "price_max"
  }

  function Field(f: Filters, field: FilterField): string {
    match field
    case Query => f.query
    case OfferType => f.offerType
    case SortBy => f.sortBy
    case CategoryId => f.categoryId
    case Condition => f.condition
    case Hall => f.hall
    case PriceMin => f.priceMin
    case PriceMax => f.priceMax
  }

  const DefaultSort: string := "newest"

  /** The value a field takes when its URL parameter is absent or empty. */
  function DefaultValue(field: FilterField): string {
    if field == SortBy then DefaultSort else ""
  }

  /** `searchParams.get(key) || fallback` */
  function ParamOr(params: QueryParams, key: string, fallback: string): string {
    match Get(params, key)
    case Some(v) => if v != "" then v else fallback
    case None => fallback
  }

  /** The initial state of the eight filters, read from the page's URL. */
  function ParseFilters(params: QueryParams): (f: Filters)
    ensures f.sortBy != ""
    ensures forall field :: Field(f, field) == DefaultValue(field) || (Key(field), Field(f, field)) in params
  {
    Filters(
      ParamOr(params, "q", ""), ParamOr(params, "type", ""), ParamOr(params, "sort", DefaultSort),
      ParamOr(params, "category", ""), ParamOr(params, "condition", ""), ParamOr(params, "hall", ""),
      ParamOr(params, "price_min", ""), ParamOr(params, "price_max", ""))
  }

  /** Each initial field is the first value of its parameter when that is
      non-empty, and the field's default otherwise. */
  lemma ParseFiltersField(params: QueryParams, field: FilterField)
    ensures var g := Get(params, Key(field));
      Field(ParseFilters(params), field) == if g.Some? && g.value != "" then g.value else DefaultValue(field)
  {
  }

  /** The entries `syncToUrl` is called with, in this fixed order. */
  function FilterEntries(f: Filters): seq<(string, string)> {
    [("q", f.query), ("type", f.offerType), ("sort", f.sortBy), ("category", f.categoryId),
     ("condition", f.condition), ("hall", f.hall), ("price_min", f.priceMin), ("price_max", f.priceMax)]
  }

  /** The index of each field among the entries. */
  function Position(field: FilterField): (i: int)
    ensures 0 <= i < 8
  {
    match field
    case Query => 0
    case OfferType => 1
    case SortBy => 2
    case CategoryId => 3
    case Condition => 4
    case Hall => 5
    case PriceMin => 6
    case PriceMax => 7
  }

  lemma FilterEntriesAt(f: Filters, field: FilterField)
    ensures FilterEntries(f)[Position(field)] == (Key(field), Field(f, field))
  {
  }

  lemma FilterEntriesDistinct(f: Filters)
    ensures KeysDistinct(FilterEntries(f))
  {
  }

  /** The query the filters are written to. */
  function SyncQuery(f: Filters): QueryParams {
    Written(FilterEntries(f))
  }

  /** `syncToUrl` writes exactly the non-empty fields, keyed q, type, sort,
      category, condition, hall, price_min, price_max in that order. */
  lemma SyncQueryIsNonEmptyFields(f: Filters)
    ensures SyncQuery(f) == NonEmptyEntries(FilterEntries(f))
  {
    FilterEntriesDistinct(f);
    WrittenDistinct(FilterEntries(f));
  }

  /** A field's parameter is present in the written query exactly when the field is non-empty. */
  lemma {:induction false} SyncQueryGet(f: Filters, field: FilterField)
    ensures Get(SyncQuery(f), Key(field)) == if Field(f, field) != "" then Some(Field(f, field)) else None
  {
    SyncQueryIsNonEmptyFields(f);
    FilterEntriesDistinct(f);
    FilterEntriesAt(f, field);
    GetNonEmpty(FilterEntries(f), Position(field));
  }

  /** Round trip: reading back the URL that `syncToUrl` wrote gives the same
      eight fields, except that an empty sort comes back as "newest". */
  lemma {:induction false} RoundTrip(f: Filters)
    ensures ParseFilters(SyncQuery(f)) == f.(sortBy := if f.sortBy == "" then DefaultSort else f.sortBy)
  {
    var p := SyncQuery(f);
    SyncQueryGet(f, Query);
    SyncQueryGet(f, OfferType);
    SyncQueryGet(f, SortBy);
    SyncQueryGet(f, CategoryId);
    SyncQueryGet(f, Condition);
    SyncQueryGet(f, Hall);
    SyncQueryGet(f, PriceMin);
    SyncQueryGet(f, PriceMax);
  }

  /** Filters read from any URL survive being written back and re-read. */
  lemma ParseSyncParse(params: QueryParams)
    ensures ParseFilters(SyncQuery(ParseFilters(params))) == ParseFilters(params)
  {
    RoundTrip(ParseFilters(params));
  }

  /** The location is exactly `/search` when no field is written. */
  lemma {:induction false} BareSearchPath(f: Filters)
    ensures Href(Location("/search", SyncQuery(f))) == "/search" <==> forall field :: Field(f, field) == ""
  {
    if forall field :: Field(f, field) == "" {
      assert Field(f, Query) == "" && Field(f, OfferType) == "" && Field(f, SortBy) == "" && Field(f, CategoryId) == "";
      assert Field(f, Condition) == "" && Field(f, Hall) == "" && Field(f, PriceMin) == "" && Field(f, PriceMax) == "";
      SyncQueryIsNonEmptyFields(f);
      NoNonEmpty(FilterEntries(f));
    } else {
      var field :| Field(f, field) != "";
      SyncQueryGet(f, field);
    }
  }

  lemma {:induction false} NoNonEmpty(entries: seq<(string, string)>)
    requires forall i :: 0 <= i < |entries| ==> entries[i].1 == ""
    ensures NonEmptyEntries(entries) == []
  {
    if entries != [] {
      NoNonEmpty(entries[..|entries| - 1]);
    }
  }

  /** The state the filters take after one field is set. */
  function WithField(f: Filters, field: FilterField, value: string): (r: Filters)
    ensures Field(r, field) == value
    ensures forall g :: g != field ==> Field(r, g) == Field(f, g)
  {
    match field
    case Query => f.(query := value)
    case OfferType => f.(offerType := value)
    case SortBy => f.(sortBy := value)
    case CategoryId => f.(categoryId := value)
    case Condition => f.(condition := value)
    case Hall => f.(hall := value)
    case PriceMin => f.(priceMin := value)
    case PriceMax => f.(priceMax := value)
  }

  /** The category and hall selects offer "all", which stands for no filter. */
  function SelectValue(value: string): (r: string)
    ensures r == "" <==> value == "" || value == "all"
  {
    if value == "all" then "" else value
  }

  /** `activeFilterCount`: how many of category, condition, hall, priceMin and priceMax are non-empty. */
  function CountNonEmpty(xs: seq<string>): (n: nat)
    ensures n <= |xs|
    ensures n == 0 <==> forall i :: 0 <= i < |xs| ==> xs[i] == ""
  {
    if xs == [] then 0 else (if xs[0] != "" then 1 else 0) + CountNonEmpty(xs[1..])
  }

  function ActiveFilterCount(f: Filters): (n: nat)
    ensures n <= 5
    ensures n == 0 <==> f.categoryId == "" && f.condition == "" && f.hall == "" && f.priceMin == "" && f.priceMax == ""
  {
    var xs := [f.categoryId, f.condition, f.hall, f.priceMin, f.priceMax];
    assert xs[0] == f.categoryId && xs[1] == f.condition && xs[2] == f.hall && xs[3] == f.priceMin && xs[4] == f.priceMax;
    CountNonEmpty(xs)
  }

  function Indicator(s: string): nat {
    if s != "" then 1 else 0
  }

  /** The count as the sum of five indicators. */
  lemma ActiveFilterCountSum(f: Filters)
    ensures ActiveFilterCount(f) ==
      Indicator(f.categoryId) + Indicator(f.condition) + Indicator(f.hall) + Indicator(f.priceMin) + Indicator(f.priceMax)
  {
    CountCons(f.priceMax, []);
    assert [f.priceMax] == [f.priceMax] + [];
    CountCons(f.priceMin, [f.priceMax]);
    assert [f.priceMin, f.priceMax] == [f.priceMin] + [f.priceMax];
    CountCons(f.hall, [f.priceMin, f.priceMax]);
    assert [f.hall, f.priceMin, f.priceMax] == [f.hall] + [f.priceMin, f.priceMax];
    CountCons(f.condition, [f.hall, f.priceMin, f.priceMax]);
    assert [f.condition, f.hall, f.priceMin, f.priceMax] == [f.condition] + [f.hall, f.priceMin, f.priceMax];
    CountCons(f.categoryId, [f.condition, f.hall, f.priceMin, f.priceMax]);
    assert [f.categoryId, f.condition, f.hall, f.priceMin, f.priceMax]
      == [f.categoryId] + [f.condition, f.hall, f.priceMin, f.priceMax];
  }

  lemma CountCons(x: string, xs: seq<string>)
    ensures CountNonEmpty([x] + xs) == Indicator(x) + CountNonEmpty(xs)
  {
    assert ([x] + xs)[1..] == xs;
  }

  /** The count ignores the query text, the offer type and the sort order. */
  lemma ActiveFilterCountIgnores(f: Filters, query: string, offerType: string, sortBy: string)
    ensures ActiveFilterCount(f.(query := query, offerType := offerType, sortBy := sortBy)) == ActiveFilterCount(f)
  {
  }

  /** `clearAllFilters` */
  const Cleared: Filters := Filters("", "", DefaultSort, "", "", "", "", "")

  /** The filter sheet's Clear button: the five sheet filters only. */
  function ClearSheet(f: Filters): (r: Filters)
    ensures ActiveFilterCount(r) == 0
    ensures r.query == f.query && r.offerType == f.offerType && r.sortBy == f.sortBy
  {
    f.(categoryId := "", condition := "", hall := "", priceMin := "", priceMax := "")
  }

  // ---------------------------------------------------------------------------
  // Filter pills

  datatype Category = Category(id: string, name: string)

  /** Which filters a pill's clear button empties. */
  datatype PillTarget = CategoryPill | ConditionPill | HallPill | PricePill

  datatype Pill = Pill(caption: string, clears: PillTarget)

  /** hallsOfResidence: select value and label. */
  const Halls: seq<(string, string)> := [
    ("queen-elizabeth", "Queen Elizabeth II Hall"), ("queen-idia", "Queen Idia Hall"),
    ("obafemi-awolowo", "Awo Hall"), ("mellanby", "Mellanby Hall"), ("tedder", "Tedder Hall"),
    ("kuti", "Kuti Hall"), ("sultan-bello", "Sultan Bello Hall"), ("independence", "Great Independence Hall"),
    ("nnamdi-azikiwe", "Nnamdi Azikiwe Hall"), ("alexander-brown-hall", "Alexander Brown Hall (ABH)"),
    ("off-campus", "Off Campus")]

  /** condLabels */
  const ConditionLabels: seq<(string, string)> := [("new", "New"), ("like_new", "Like New"), ("used", "Used")]

  /** `table.find(e => e.value === key)?.label`, or undefined. */
  function LabelOf(table: seq<(string, string)>, key: string): Option<string> {
    if table == [] then None
    else if table[0].0 == key then Some(table[0].1)
    else LabelOf(table[1..], key)
  }

  /** `categories.find(c => c.id === id)?.name`, or undefined. */
  function CategoryName(categories: seq<Category>, id: string): Option<string> {
    if categories == [] then None
    else if categories[0].id == id then Some(categories[0].name)
    else CategoryName(categories[1..], id)
  }

  /** `label || fallback` on an optional label. */
  function LabelOr(name: Option<string>, fallback: string): string {
    if name.Some? && name.value != "" then name.value else fallback
  }

  function PriceLabel(priceMin: string, priceMax: string): string {
    "Price: " + (
      if priceMin != "" && priceMax != "" then "₦" + priceMin + " - ₦" + priceMax
      else if priceMin != "" then "from ₦" + priceMin
      else "up to ₦" + priceMax)
  }

  function CategoryPillOf(f: Filters, categories: seq<Category>): Pill {
    Pill(LabelOr(CategoryName(categories, f.categoryId), "Category"), CategoryPill)
  }

  function ConditionPillOf(f: Filters): Pill {
    Pill(LabelOr(LabelOf(ConditionLabels, f.condition), f.condition), ConditionPill)
  }

  function HallPillOf(f: Filters): Pill {
    Pill(LabelOr(LabelOf(Halls, f.hall), f.hall), HallPill)
  }

  function PricePillOf(f: Filters): Pill {
    Pill(PriceLabel(f.priceMin, f.priceMax), PricePill)
  }

  /** `[pill]` when `shown`, else nothing. */
  function Part(shown: bool, pill: Pill): seq<Pill> {
    if shown then [pill] else []
  }

  /** The pills `getActivePills` returns, as a specification. */
  function ActivePills(f: Filters, categories: seq<Category>): seq<Pill> {
    (if f.categoryId != "" then [CategoryPillOf(f, categories)] else [])
    + (if f.condition != "" then [ConditionPillOf(f)] else [])
    + (if f.hall != "" then [HallPillOf(f)] else [])
    + (if f.priceMin != "" || f.priceMax != "" then [PricePillOf(f)] else [])
  }

  /** What each pill's `onClear` does to the filters. */
  function ClearPill(f: Filters, target: PillTarget): Filters {
    match target
    case CategoryPill => f.(categoryId := "")
    case ConditionPill => f.(condition := "")
    case HallPill => f.(hall := "")
    case PricePill => f.(priceMin := "", priceMax := "")
  }

  predicate HasPill(pills: seq<Pill>, target: PillTarget) {
    exists i :: 0 <= i < |pills| && pills[i].clears == target
  }

  /** There are no more pills than active filters (the two price bounds share
      one pill) and there are pills exactly when some filter is active. */
  lemma PillsAgreeWithCount(f: Filters, categories: seq<Category>)
    ensures |ActivePills(f, categories)| <= ActiveFilterCount(f)
    ensures |ActivePills(f, categories)| == 0 <==> ActiveFilterCount(f) == 0
  {
    ActiveFilterCountSum(f);
  }

  /** Whether the filters behind a pill are set. */
  predicate PillActive(f: Filters, target: PillTarget) {
    match target
    case CategoryPill => f.categoryId != ""
    case ConditionPill => f.condition != ""
    case HallPill => f.hall != ""
    case PricePill => f.priceMin != "" || f.priceMax != ""
  }

  lemma HasPillConcat(a: seq<Pill>, b: seq<Pill>, target: PillTarget)
    ensures HasPill(a + b, target) <==> HasPill(a, target) || HasPill(b, target)
  {
    if HasPill(a + b, target) {
      var i :| 0 <= i < |a + b| && (a + b)[i].clears == target;
      if i >= |a| { assert b[i - |a|] == (a + b)[i]; }
    }
    if HasPill(b, target) {
      var i :| 0 <= i < |b| && b[i].clears == target;
      assert (a + b)[|a| + i] == b[i];
    }
    if HasPill(a, target) {
      var i :| 0 <= i < |a| && a[i].clears == target;
      assert (a + b)[i] == a[i];
    }
  }

  lemma HasPillPart(shown: bool, pill: Pill, target: PillTarget)
    ensures HasPill(Part(shown, pill), target) <==> shown && pill.clears == target
  {
    if shown { assert Part(shown, pill)[0] == pill; }
  }

  /** A pill for a filter group is shown exactly when that group is set. */
  lemma HasPillExact(f: Filters, categories: seq<Category>, target: PillTarget)
    ensures HasPill(ActivePills(f, categories), target) <==> PillActive(f, target)
  {
    var p1 := Part(f.categoryId != "", CategoryPillOf(f, categories));
    var p2 := Part(f.condition != "", ConditionPillOf(f));
    var p3 := Part(f.hall != "", HallPillOf(f));
    var p4 := Part(f.priceMin != "" || f.priceMax != "", PricePillOf(f));
    HasPillConcat(p1 + p2 + p3, p4, target);
    HasPillConcat(p1 + p2, p3, target);
    HasPillConcat(p1, p2, target);
    HasPillPart(f.categoryId != "", CategoryPillOf(f, categories), target);
    HasPillPart(f.condition != "", ConditionPillOf(f), target);
    HasPillPart(f.hall != "", HallPillOf(f), target);
    HasPillPart(f.priceMin != "" || f.priceMax != "", PricePillOf(f), target);
  }

  /** Clearing a pill removes that pill and lowers the active-filter count. */
  lemma ClearPillRemovesIt(f: Filters, categories: seq<Category>, target: PillTarget)
    requires HasPill(ActivePills(f, categories), target)
    ensures !HasPill(ActivePills(ClearPill(f, target), categories), target)
    ensures ActiveFilterCount(ClearPill(f, target)) < ActiveFilterCount(f)
  {
    HasPillExact(f, categories, target);
    HasPillExact(ClearPill(f, target), categories, target);
    ActiveFilterCountSum(f);
    ActiveFilterCountSum(ClearPill(f, target));
  }

  // ---------------------------------------------------------------------------
  // The result feed

  /** One row of a search response; `hasMore` is its `has_more` column, absent
      when the backend leaves it out. */
  datatype Row = Row(id: string, hasMore: Option<bool>)

  /** The parameters `performSearch` sends to the search procedure. The price
      bounds are sent as the entered text (its conversion to a number is not modelled). */
  datatype SearchRequest = SearchRequest(
    searchText: string, categoryId: Option<string>, offerType: Option<string>,
    condition: Option<string>, hall: Option<string>, priceMin: Option<string>,
    priceMax: Option<string>, sortBy: string, pageLimit: int, pageOffset: int)

  /** The request for one page of the current filters. */
  function RequestFor(f: Filters, offset: int): (r: SearchRequest)
    ensures r.pageLimit == PageSize && r.pageOffset == offset
    ensures r.searchText == f.query && r.sortBy == f.sortBy
  {
    SearchRequest(f.query, OrNone(f.categoryId), OrNone(f.offerType), OrNone(f.condition),
      OrNone(f.hall), OrNone(f.priceMin), OrNone(f.priceMax), f.sortBy, PageSize, offset)
  }

  /** `data || []` */
  function RowsOf(data: Option<seq<Row>>): seq<Row> {
    if data.Some? then data.value else []
  }

  /** The `hasMore` a response leaves: false iff it is null, empty, or its first
      row's `has_more` is exactly false. */
  predicate MoreAfter(data: Option<seq<Row>>)
    ensures MoreAfter(data) ==> RowsOf(data) != []
    ensures RowsOf(data) != [] && RowsOf(data)[0].hasMore == Some(true) ==> MoreAfter(data)
  {
    data.Some? && |data.value| > 0 && data.value[0].hasMore != Some(false)
  }

  /** The guard of the intersection observer's callback: never while a page
      is loading, and never once the feed has ended. */
  predicate ShouldLoadMore(isIntersecting: bool, hasMore: bool, loading: bool)
    ensures ShouldLoadMore(isIntersecting, hasMore, loading) ==> !loading && hasMore
  {
    isIntersecting && hasMore && !loading
  }

  class SearchPage {
    var filters: Filters
    var results: seq<Row>
    var offset: int
    var loading: bool
    var initialLoading: bool
    var hasMore: bool
    var categories: seq<Category>

    /** The offset only ever takes multiples of the page size. */
    ghost predicate Valid()
      reads this
    {
      offset >= 0 && offset % PageSize == 0
    }

    /** The component's initial state, with the filters read from the URL. */
    constructor (params: QueryParams)
      ensures Valid()
      ensures filters == ParseFilters(params)
      ensures results == [] && offset == 0 && !loading && initialLoading && hasMore && categories == []
    {
      filters := ParseFilters(params);
      results := [];
      offset := 0;
      loading := false;
      initialLoading := true;
      hasMore := true;
      categories := [];
    }

    /** The categories' fetch on mount stores them when data came back. */
    method CategoriesLoaded(data: Option<seq<Category>>)
      modifies this`categories
      ensures categories == if data.Some? then data.value else old(categories)
    {
      if data.Some? {
        categories := data.value;
      }
    }

    /** A filter setter (`setQuery`, `setSortBy`, ...): only that field changes. */
    method SetField(field: FilterField, value: string)
      modifies this`filters
      ensures filters == WithField(old(filters), field, value)
    {
      filters := WithField(filters, field, value);
    }

    /** The category and hall selects, whose "all" option clears the field. */
    method PickFromSelect(field: FilterField, value: string)
      requires field == CategoryId || field == Hall
      modifies this`filters
      ensures filters == WithField(old(filters), field, SelectValue(value))
    {
      filters := WithField(filters, field, SelectValue(value));
    }

    /** `performSearch` up to its `await`: raise the loading flags and build the
        request, at offset 0 for a fresh search and the current offset for a
        continuation. */
    method StartSearch(reset: bool) returns (req: SearchRequest)
      modifies this`loading, this`initialLoading
      ensures req == RequestFor(filters, if reset then 0 else offset)
      ensures loading && initialLoading == (reset || old(initialLoading))
    {
      loading := true;
      if reset {
        initialLoading := true;
      }
      var newOffset := if reset then 0 else offset;
      req := RequestFor(filters, newOffset);
    }

    /** `performSearch` after its `await`: a fresh search replaces the results
        and sets the offset to one page; a continuation appends the rows in
        order and advances the offset by one page whatever the row count. */
    method CompleteSearch(reset: bool, data: Option<seq<Row>>)
      requires Valid()
      modifies this`results, this`offset, this`hasMore, this`loading, this`initialLoading
      ensures Valid()
      ensures results == if reset then RowsOf(data) else old(results) + RowsOf(data)
      ensures offset == if reset then PageSize else old(offset) + PageSize
      ensures hasMore == MoreAfter(data)
      ensures !loading && !initialLoading
    {
      if reset {
        results := RowsOf(data);
        offset := PageSize;
      } else {
        results := results + RowsOf(data);
        offset := offset + PageSize;
      }
      if data.None? || |data.value| == 0 || data.value[0].hasMore == Some(false) {
        hasMore := false;
      } else {
        hasMore := true;
      }
      loading := false;
      initialLoading := false;
    }

    /** The body of the debounced text search and of the filter effect: write
        the filters to the URL, then start a fresh search. */
    method ApplyFilters() returns (loc: Location, req: SearchRequest)
      modifies this`loading, this`initialLoading
      ensures loc == Location("/search", SyncQuery(filters))
      ensures req == RequestFor(filters, 0)
      ensures loading && initialLoading
    {
      loc := SyncToUrl(FilterEntries(filters));
      req := StartSearch(true);
    }

    /** The intersection observer's callback: a next page is requested only
        when the sentinel is visible, more rows exist and nothing is loading. */
    method OnIntersect(isIntersecting: bool) returns (req: Option<SearchRequest>)
      modifies this`loading, this`initialLoading
      ensures req.Some? <==> ShouldLoadMore(isIntersecting, old(hasMore), old(loading))
      ensures req.Some? ==> req.value == RequestFor(filters, offset) && loading
      ensures req.None? ==> loading == old(loading)
      ensures initialLoading == old(initialLoading)
    {
      if isIntersecting && hasMore && !loading {
        var r := StartSearch(false);
        req := Some(r);
      } else {
        req := None;
      }
    }

    function ActiveCount(): (n: nat)
      reads this
      ensures n <= 5
    {
      ActiveFilterCount(filters)
    }

    /** `clearAllFilters`: every field empty except the sort, which is "newest". */
    method ClearAllFilters()
      modifies this`filters
      ensures filters == Cleared
      ensures ActiveCount() == 0 && filters.sortBy == DefaultSort
    {
      filters := Cleared;
    }

    /** The filter sheet's Clear button. */
    method ClearSheetFilters()
      modifies this`filters
      ensures filters == ClearSheet(old(filters))
    {
      filters := ClearSheet(filters);
    }

    /** `getActivePills`, pushing one pill per active filter group. */
    method GetActivePills() returns (pills: seq<Pill>)
      ensures pills == ActivePills(filters, categories)
    {
      var f := filters;
      pills := [];
      if f.categoryId != "" {
        pills := pills + [CategoryPillOf(f, categories)];
      }
      if f.condition != "" {
        pills := pills + [ConditionPillOf(f)];
      }
      if f.hall != "" {
        pills := pills + [HallPillOf(f)];
      }
      if f.priceMin != "" || f.priceMax != "" {
        pills := pills + [PricePillOf(f)];
      }
    }

    /** A pill's clear button. */
    method ClearPillFilters(target: PillTarget)
      modifies this`filters
      ensures filters == ClearPill(old(filters), target)
    {
      filters := ClearPill(filters, target);
    }
  }

  /** A client of the feed: a fresh search whose first row says more rows
      exist, then one scroll that fetches the second page, which is short and
      ends the feed; while that page is in flight, and after it, further
      scrolling requests nothing. */
  method ScrollToEnd(page: SearchPage, first: seq<Row>, second: seq<Row>)
    returns (req0: SearchRequest, req1: Option<SearchRequest>, again: Option<SearchRequest>, req2: Option<SearchRequest>)
    requires page.Valid()
    requires |first| == PageSize && first[0].hasMore == Some(true)
    requires 0 < |second| < PageSize && second[0].hasMore == Some(false)
    modifies page
    ensures req0.pageOffset == 0
    ensures req1.Some? && req1.value.pageOffset == PageSize
    ensures again.None? && req2.None?
    ensures page.results == first + second && !page.hasMore && page.offset == 2 * PageSize
  {
    var loc;
    loc, req0 := page.ApplyFilters();
    page.CompleteSearch(true, Some(first));
    assert page.results == first && page.offset == PageSize && page.hasMore;

    req1 := page.OnIntersect(true);
    again := page.OnIntersect(true);

    page.CompleteSearch(false, Some(second));
    req2 := page.OnIntersect(true);
  }
}
