/** The job-search filter panel: the filter state the form edits, the
    query it hands to `onFilter`, and the badges of the active filters. */
module SearchFilter {
  import opened JsValues

  /** The two tabs of the panel. */
  datatype SearchType = Basic | Advanced

  /** The filter keys a badge or an input can name. */
  datatype Key =
    | TitleFilter | AdvancedTitleFilter | LocationFilter | DescriptionFilter
    | DescriptionType | Remote | Agency | DateFilter

  function KeyName(k: Key): string
  {
    match k
    case TitleFilter => "title_filter"
    case AdvancedTitleFilter => "advanced_title_filter"
    case LocationFilter => "location_filter"
    case DescriptionFilter => "description_filter"
    case DescriptionType => "description_type"
    case Remote => "remote"
    case Agency => "agency"
    case DateFilter => "date_filter"
  }

  /** The two switches hold booleans; every other key holds text. */
  predicate IsFlag(k: Key)
  {
    k == Remote || k == Agency
  }

  /** The `filters` state. */
  datatype Filters = Filters(
    title: string, advancedTitle: string, location: string, description: string,
    descriptionType: string, remote: bool, agency: bool, date: string, offset: int)

  const Empty := Filters("", "", "", "", "", false, false, "", 0)

  /** An object with the keys of `filters`, as it is handed to `onFilter`. */
  datatype Query = Query(
    title: Value, advancedTitle: Value, location: Value, description: Value,
    descriptionType: Value, remote: Value, agency: Value, date: Value, offset: Value)

  /** `query[key]`. */
  function Entry(q: Query, k: Key): Value
  {
    match k
    case TitleFilter => q.title
    case AdvancedTitleFilter => q.advancedTitle
    case LocationFilter => q.location
    case DescriptionFilter => q.description
    case DescriptionType => q.descriptionType
    case Remote => q.remote
    case Agency => q.agency
    case DateFilter => q.date
  }

  /** `{ ...query, [key]: v }`. */
  function WithEntry(q: Query, k: Key, v: Value): (r: Query)
    ensures Entry(r, k) == v
    ensures forall j :: j != k ==> Entry(r, j) == Entry(q, j)
    ensures r.offset == q.offset
  {
    match k
    case TitleFilter => q.(title := v)
    case AdvancedTitleFilter => q.(advancedTitle := v)
    case LocationFilter => q.(location := v)
    case DescriptionFilter => q.(description := v)
    case DescriptionType => q.(descriptionType := v)
    case Remote => q.(remote := v)
    case Agency => q.(agency := v)
    case DateFilter => q.(date := v)
  }

  /** The state as a plain object: `{ ...filters }`. */
  function AsQuery(f: Filters): Query
  {
    Query(Str(f.title), Str(f.advancedTitle), Str(f.location), Str(f.description),
      Str(f.descriptionType), Bool(f.remote), Bool(f.agency), Str(f.date), Num(f.offset))
  }

  /** `filters[key]`. */
  function FilterValue(f: Filters, k: Key): Value
  {
    Entry(AsQuery(f), k)
  }

  /** `{ ...filters, [key]: value }` for a text key. */
  function WithText(f: Filters, k: Key, value: string): (r: Filters)
    requires !IsFlag(k)
    ensures FilterValue(r, k) == Str(value)
    ensures forall j :: j != k ==> FilterValue(r, j) == FilterValue(f, j)
    ensures r.offset == f.offset
  {
    match k
    case TitleFilter => f.(title := value)
    case AdvancedTitleFilter => f.(advancedTitle := value)
    case LocationFilter => f.(location := value)
    case DescriptionFilter => f.(description := value)
    case DescriptionType => f.(descriptionType := value)
    case DateFilter => f.(date := value)
  }

  /** `{ ...filters, [key]: checked }` for a switch. */
  function WithFlag(f: Filters, k: Key, checked: bool): (r: Filters)
    requires IsFlag(k)
    ensures FilterValue(r, k) == Bool(checked)
    ensures forall j :: j != k ==> FilterValue(r, j) == FilterValue(f, j)
    ensures r.offset == f.offset
  {
    if k == Remote then f.(remote := checked) else f.(agency := checked)
  }

  // ---------------------------------------------------------------------
  // Submit

  /** `apiFilters`: the switches become "true" or "", and only the title
      of the active tab is sent. */
  function ApiFilters(f: Filters, t: SearchType): Query
  {
    AsQuery(f).(
      remote := Str(if f.remote then "true" else ""),
      agency := Str(if f.agency then "true" else ""),
      title := Str(if t == Basic then f.title else ""),
      advancedTitle := Str(if t == Advanced then f.advancedTitle else ""))
  }

  /** The API receives strings only, a switch as "true" exactly when it is
      on, only the active tab's title, and every other key as it is. */
  lemma ApiFiltersShape(f: Filters, t: SearchType, k: Key)
    ensures Entry(ApiFilters(f, t), k).Str?
    ensures Entry(ApiFilters(f, t), Remote) == Str(if f.remote then "true" else "")
    ensures Entry(ApiFilters(f, t), Agency) == Str(if f.agency then "true" else "")
    ensures t == Basic ==>
      Entry(ApiFilters(f, t), TitleFilter) == Str(f.title) && Entry(ApiFilters(f, t), AdvancedTitleFilter) == Str("")
    ensures t == Advanced ==>
      Entry(ApiFilters(f, t), AdvancedTitleFilter) == Str(f.advancedTitle) && Entry(ApiFilters(f, t), TitleFilter) == Str("")
    ensures k != TitleFilter && k != AdvancedTitleFilter && !IsFlag(k) ==>
      Entry(ApiFilters(f, t), k) == FilterValue(f, k)
    ensures ApiFilters(f, t).offset == Num(f.offset)
  {
  }

  /** An active-filter badge: the key it removes and the text it shows. */
  datatype Badge = Badge(key: Key, text: string)

  /** The order the badges appear in, the active tab's title first. */
  function BadgeOrder(t: SearchType): seq<Key>
  {
    [TitleKey(t), LocationFilter, DescriptionFilter, Remote, Agency, DateFilter, DescriptionType]
  }

  /** A filter is active when its value is truthy. */
  predicate IsActive(f: Filters, k: Key)
  {
    Truthy(FilterValue(f, k))
  }

  /** The text of the badge of `k`. */
  function Label(f: Filters, k: Key): string
  {
    match k
    case TitleFilter => f.title
    case AdvancedTitleFilter => "Advanced: " + f.advancedTitle
    case LocationFilter => f.location
    case DescriptionFilter => "Description: " + f.description
    case Remote => "Remote Only"
    case Agency => "Agency Jobs"
    case DateFilter => f.date
    case DescriptionType => "Include full description"
  }

  /** One badge per active key of `keys`, in their order. */
  function BadgesFor(f: Filters, keys: seq<Key>): seq<Badge>
  {
    if keys == [] then [] else BadgeOf(f, keys[0]) + BadgesFor(f, keys[1..])
  }

  /** The badge of one key, if it is active. */
  function BadgeOf(f: Filters, k: Key): seq<Badge>
  {
    if IsActive(f, k) then [Badge(k, Label(f, k))] else []
  }

  /** The badge of each key, spelled out. */
  lemma BadgeOfEach(f: Filters)
    ensures BadgeOf(f, TitleFilter) == if f.title != "" then [Badge(TitleFilter, f.title)] else []
    ensures BadgeOf(f, AdvancedTitleFilter)
      == if f.advancedTitle != "" then [Badge(AdvancedTitleFilter, "Advanced: " + f.advancedTitle)] else []
    ensures BadgeOf(f, LocationFilter) == if f.location != "" then [Badge(LocationFilter, f.location)] else []
    ensures BadgeOf(f, DescriptionFilter)
      == if f.description != "" then [Badge(DescriptionFilter, "Description: " + f.description)] else []
    ensures BadgeOf(f, Remote) == if f.remote then [Badge(Remote, "Remote Only")] else []
    ensures BadgeOf(f, Agency) == if f.agency then [Badge(Agency, "Agency Jobs")] else []
    ensures BadgeOf(f, DateFilter) == if f.date != "" then [Badge(DateFilter, f.date)] else []
    ensures BadgeOf(f, DescriptionType)
      == if f.descriptionType != "" then [Badge(DescriptionType, "Include full description")] else []
  {
  }

  /** The active tab's title key. */
  function TitleKey(t: SearchType): Key
  {
    if t == Basic then TitleFilter else AdvancedTitleFilter
  }

  /** The badges `handleSubmit` pushes, one key after the other. */
  function PushedBadges(f: Filters, t: SearchType): seq<Badge>
  {
    BadgeOf(f, TitleKey(t)) + BadgeOf(f, LocationFilter) + BadgeOf(f, DescriptionFilter)
      + BadgeOf(f, Remote) + BadgeOf(f, Agency) + BadgeOf(f, DateFilter) + BadgeOf(f, DescriptionType)
  }

  /** They are the badges of the fixed order of keys. */
  lemma PushedInOrder(f: Filters, t: SearchType)
    ensures PushedBadges(f, t) == BadgesFor(f, BadgeOrder(t))
  {
    var o := BadgeOrder(t);
    assert o[6..][1..] == [];
    assert BadgesFor(f, o[6..]) == BadgeOf(f, DescriptionType);
    assert o[5..][1..] == o[6..];
    assert BadgesFor(f, o[5..]) == BadgeOf(f, DateFilter) + BadgesFor(f, o[6..]);
    assert o[4..][1..] == o[5..];
    assert BadgesFor(f, o[4..]) == BadgeOf(f, Agency) + BadgesFor(f, o[5..]);
    assert o[3..][1..] == o[4..];
    assert BadgesFor(f, o[3..]) == BadgeOf(f, Remote) + BadgesFor(f, o[4..]);
    assert o[2..][1..] == o[3..];
    assert BadgesFor(f, o[2..]) == BadgeOf(f, DescriptionFilter) + BadgesFor(f, o[3..]);
    assert o[1..][1..] == o[2..];
    assert BadgesFor(f, o[1..]) == BadgeOf(f, LocationFilter) + BadgesFor(f, o[2..]);
    assert BadgesFor(f, o) == BadgeOf(f, TitleKey(t)) + BadgesFor(f, o[1..]);
    Reassociate(BadgeOf(f, TitleKey(t)), BadgeOf(f, LocationFilter), BadgeOf(f, DescriptionFilter),
      BadgeOf(f, Remote), BadgeOf(f, Agency), BadgeOf(f, DateFilter), BadgeOf(f, DescriptionType));
  }

  lemma Reassociate<T>(a: seq<T>, b: seq<T>, c: seq<T>, d: seq<T>, e: seq<T>, g: seq<T>, h: seq<T>)
    ensures a + (b + (c + (d + (e + (g + h))))) == a + b + c + d + e + g + h
  {
  }

  /** The badges are exactly the active keys of `keys`, each labelled, in
      the same relative order. */
  lemma {:induction false} BadgesAreActiveKeys(f: Filters, keys: seq<Key>)
    ensures forall b :: b in BadgesFor(f, keys) ==> b.key in keys && IsActive(f, b.key) && b.text == Label(f, b.key)
    ensures forall k :: k in keys && IsActive(f, k) ==> Badge(k, Label(f, k)) in BadgesFor(f, keys)
    ensures |BadgesFor(f, keys)| <= |keys|
  {
    if keys != [] {
      BadgesAreActiveKeys(f, keys[1..]);
      assert forall k :: k in keys ==> k == keys[0] || k in keys[1..];
    }
  }

  /** Distinct keys give badges with distinct keys (React's list key). */
  lemma {:induction false} BadgeKeysDistinct(f: Filters, keys: seq<Key>)
    requires forall i, j :: 0 <= i < j < |keys| ==> keys[i] != keys[j]
    ensures var bs := BadgesFor(f, keys);
      forall i, j :: 0 <= i < j < |bs| ==> bs[i].key != bs[j].key
  {
    if keys != [] {
      BadgeKeysDistinct(f, keys[1..]);
      BadgesAreActiveKeys(f, keys[1..]);
      var rest := BadgesFor(f, keys[1..]);
      assert forall b :: b in rest ==> b.key != keys[0];
    }
  }

  /** Only the active tab's title can have a badge. */
  lemma InactiveTitleHasNoBadge(f: Filters, t: SearchType)
    ensures var other := if t == Basic then AdvancedTitleFilter else TitleFilter;
      forall b :: b in BadgesFor(f, BadgeOrder(t)) ==> b.key != other
  {
    BadgesAreActiveKeys(f, BadgeOrder(t));
  }

  // ---------------------------------------------------------------------
  // Select, remove, clear

  /** `handleSelectChange`: "any" is stored as "". */
  function Selected(f: Filters, k: Key, value: string): (r: Filters)
    requires !IsFlag(k)
    ensures FilterValue(r, k) == Str(if value == "any" then "" else value)
    ensures forall j :: j != k ==> FilterValue(r, j) == FilterValue(f, j)
  {
    WithText(f, k, if value == "any" then "" else value)
  }

  /** The reset value of a key: `false` for a switch, "" otherwise. */
  function Reset(f: Filters, k: Key): (r: Filters)
    ensures !IsActive(r, k)
    ensures forall j :: j != k ==> FilterValue(r, j) == FilterValue(f, j)
    ensures r.offset == f.offset
  {
    if IsFlag(k) then WithFlag(f, k, false) else WithText(f, k, "")
  }

  /** `activeFilters.filter(filter => filter.type !== key)`. */
  function WithoutKey(bs: seq<Badge>, k: Key): (r: seq<Badge>)
    ensures forall b :: b in r <==> b in bs && b.key != k
  {
    if bs == [] then []
    else if bs[0].key == k then WithoutKey(bs[1..], k)
    else [bs[0]] + WithoutKey(bs[1..], k)
  }

  /** Dropping a key's badges gives the badges the reset filters would
      show, so the panel stays as a fresh submit would draw it. */
  lemma {:induction false} RemoveMatchesResubmit(f: Filters, k: Key, keys: seq<Key>)
    ensures WithoutKey(BadgesFor(f, keys), k) == BadgesFor(Reset(f, k), keys)
  {
    if keys != [] {
      RemoveMatchesResubmit(f, k, keys[1..]);
      ResetBadge(f, k, keys[0]);
      DropBadge(BadgeOf(f, keys[0]), BadgesFor(f, keys[1..]), k);
    }
  }

  /** After a reset the key has no badge, and every other key keeps its own. */
  lemma ResetBadge(f: Filters, k: Key, j: Key)
    ensures BadgeOf(Reset(f, k), j) == if j == k then [] else BadgeOf(f, j)
  {
    if j != k {
      assert FilterValue(Reset(f, k), j) == FilterValue(f, j);
    }
  }

  lemma DropBadge(bs: seq<Badge>, rest: seq<Badge>, k: Key)
    requires |bs| <= 1
    ensures WithoutKey(bs + rest, k) == (if bs != [] && bs[0].key == k then [] else bs) + WithoutKey(rest, k)
  {
    if bs != [] {
      assert (bs + rest)[1..] == rest;
    } else {
      assert bs + rest == rest;
    }
  }

  /** The object `removeFilter` hands to `onFilter` as written: the current
      filters, unconverted, with the removed key set to "". */
  function RemovedQuery(f: Filters, k: Key): Query
  {
    WithEntry(AsQuery(f), k, Str(""))
  }

  /** The removed key is sent as "" and every other key exactly as the
      state holds it: the switches as booleans and both titles. */
  lemma RemovedSendsRaw(f: Filters, k: Key, j: Key)
    ensures Entry(RemovedQuery(f, k), k) == Str("")
    ensures j != k ==> Entry(RemovedQuery(f, k), j) == FilterValue(f, j)
    ensures RemovedQuery(f, k).offset == Num(f.offset)
  {
  }

  /** So a removal sends what a submit never would: with the remote switch
      on, removing the location sends the boolean `true`, and on the basic
      tab a leftover advanced title is sent as well. */
  lemma RemovedQueryIsNotApiForm()
    ensures var f := Empty.(remote := true, advancedTitle := "rust");
      && Entry(RemovedQuery(f, LocationFilter), Remote) == Bool(true)
      && Entry(ApiFilters(Reset(f, LocationFilter), Basic), Remote) == Str("true")
      && Entry(RemovedQuery(f, LocationFilter), AdvancedTitleFilter) == Str("rust")
      && Entry(ApiFilters(Reset(f, LocationFilter), Basic), AdvancedTitleFilter) == Str("")
  {
  }

  /** The query a removal evidently means to send: the API form of the
      reset filters. */
  function RemovedApiQuery(f: Filters, k: Key, t: SearchType): Query
  {
    ApiFilters(Reset(f, k), t)
  }

  /** It differs from the query of the last submit in the removed key
      alone, which is sent as "". */
  lemma RemovedApiChangesOneKey(f: Filters, k: Key, j: Key, t: SearchType)
    ensures Entry(RemovedApiQuery(f, k, t), k) == Str("")
    ensures j != k ==> Entry(RemovedApiQuery(f, k, t), j) == Entry(ApiFilters(f, t), j)
    ensures RemovedApiQuery(f, k, t).offset == ApiFilters(f, t).offset
  {
    assert FilterValue(Reset(f, k), j) == FilterValue(f, j) || j == k;
  }

  /** Nothing is active once everything is cleared. */
  lemma {:induction false} NothingActiveWhenEmpty(keys: seq<Key>)
    ensures BadgesFor(Empty, keys) == []
  {
    if keys != [] {
      NothingActiveWhenEmpty(keys[1..]);
    }
  }

  /** The panel's state. */
  class FilterPanel {
    var filters: Filters
    var active: seq<Badge>
    var searchType: SearchType

    constructor ()
      ensures filters == Empty && active == [] && searchType == Basic
    {
      filters := Empty;
      active := [];
      searchType := Basic;
    }

    /** `handleSubmit`: the badges are rebuilt and the API form of the
        filters is sent. */
    method Submit() returns (sent: Query)
      modifies this
      ensures filters == old(filters) && searchType == old(searchType)
      ensures active == PushedBadges(filters, searchType)
      ensures sent == ApiFilters(filters, searchType)
    {
      sent := ApiFilters(filters, searchType);
      var newActiveFilters := CollectBadges();
      active := newActiveFilters;
    }

    /** `newActiveFilters`, pushed badge by badge. */
    method CollectBadges() returns (badges: seq<Badge>)
      ensures badges == PushedBadges(filters, searchType)
    {
      badges := [];
      var f, t := filters, searchType;
      BadgeOfEach(f);
      if t == Basic && f.title != "" {
        badges := badges + [Badge(TitleFilter, f.title)];
      } else if t == Advanced && f.advancedTitle != "" {
        badges := badges + [Badge(AdvancedTitleFilter, "Advanced: " + f.advancedTitle)];
      }
      assert badges == BadgeOf(f, TitleKey(t));
      ghost var prev := badges;
      if f.location != "" {
        badges := badges + [Badge(LocationFilter, f.location)];
      }
      assert badges == prev + BadgeOf(f, LocationFilter);
      prev := badges;
      if f.description != "" {
        badges := badges + [Badge(DescriptionFilter, "Description: " + f.description)];
      }
      assert badges == prev + BadgeOf(f, DescriptionFilter);
      prev := badges;
      if f.remote {
        badges := badges + [Badge(Remote, "Remote Only")];
      }
      assert badges == prev + BadgeOf(f, Remote);
      prev := badges;
      if f.agency {
        badges := badges + [Badge(Agency, "Agency Jobs")];
      }
      assert badges == prev + BadgeOf(f, Agency);
      prev := badges;
      if f.date != "" {
        badges := badges + [Badge(DateFilter, f.date)];
      }
      assert badges == prev + BadgeOf(f, DateFilter);
      prev := badges;
      if f.descriptionType != "" {
        badges := badges + [Badge(DescriptionType, "Include full description")];
      }
      assert badges == prev + BadgeOf(f, DescriptionType);
      assert badges == PushedBadges(f, t);
    }

    /** `handleChange` from a text input. */
    method Change(k: Key, value: string)
      requires !IsFlag(k)
      modifies this
      ensures filters == WithText(old(filters), k, value)
      ensures active == old(active) && searchType == old(searchType)
    {
      filters := WithText(filters, k, value);
    }

    /** The `onCheckedChange` of the remote and agency switches. */
    method Toggle(k: Key, checked: bool)
      requires IsFlag(k)
      modifies this
      ensures filters == WithFlag(old(filters), k, checked)
      ensures active == old(active) && searchType == old(searchType)
    {
      filters := WithFlag(filters, k, checked);
    }

    /** The tabs' `onValueChange`. */
    method SetSearchType(t: SearchType)
      modifies this
      ensures searchType == t && filters == old(filters) && active == old(active)
    {
      searchType := t;
    }

    /** `handleSelectChange`. */
    method SelectChange(k: Key, value: string)
      requires !IsFlag(k)
      modifies this
      ensures filters == Selected(old(filters), k, value)
      ensures active == old(active) && searchType == old(searchType)
    {
      filters := WithText(filters, k, if value == "any" then "" else value);
    }

    /** `removeFilter` as written. */
    method RemoveFilter(k: Key) returns (sent: Query)
      modifies this
      ensures filters == Reset(old(filters), k)
      ensures active == WithoutKey(old(active), k) && searchType == old(searchType)
      ensures sent == RemovedQuery(old(filters), k)
    {
      sent := WithEntry(AsQuery(filters), k, Str(""));
      filters := Reset(filters, k);
      active := WithoutKey(active, k);
    }

    /** `clearAllFilters`. */
    method ClearAll() returns (sent: Query)
      modifies this
      ensures filters == Empty && active == [] && searchType == old(searchType)
      ensures sent == AsQuery(Empty)
    {
      filters := Empty;
      active := [];
      sent := AsQuery(filters);
    }
  }

  /** A cleared panel shows the badges a submit of its filters would show:
      none. */
  lemma ClearedPanelMatchesSubmit(p: FilterPanel)
    requires p.filters == Empty && p.active == []
    ensures p.active == BadgesFor(p.filters, BadgeOrder(p.searchType))
  {
    NothingActiveWhenEmpty(BadgeOrder(p.searchType));
  }
}
