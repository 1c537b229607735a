/**
 * The admin scheme manager's query (client/src/components/admin/scheme-manager.tsx):
 * the selected tab fixes the status filter, and the filters become the query
 * string of the schemes request through successive `URLSearchParams.set` calls.
 */
module SchemeManager {
  import opened Wrappers
  import opened Text
  import opened Seqs
  import opened Schema
  import opened SearchParams

  datatype Tab = ActiveTab | UpcomingTab | EndedTab | AllTab

  /** Every filter is optional; `None` is an absent property. */
  datatype SchemeFilters = SchemeFilters(category: Option<string>, status: Option<string>, search: Option<string>,
                                         minAmount: Option<int>, maxAmount: Option<int>, isActive: Option<bool>,
                                         tags: Option<seq<string>>)

  const SCHEMES_PATH := "/api/schemes"

  /** The status a tab selects: none for "all". */
  function TabStatus(tab: Tab): (s: Option<string>)
    ensures s.None? <==> tab == AllTab
    ensures s.Some? ==> s.value in {SCHEME_ACTIVE, SCHEME_UPCOMING, SCHEME_ENDED}
  {
    match tab
    case ActiveTab => Some(SCHEME_ACTIVE)
    case UpcomingTab => Some(SCHEME_UPCOMING)
    case EndedTab => Some(SCHEME_ENDED)
    case AllTab => None
  }

  /** `effectiveFilters`: the user's filters with the status replaced by the tab's, whatever it was. */
  function EffectiveFilters(filters: SchemeFilters, tab: Tab): (f: SchemeFilters)
    ensures f.status == TabStatus(tab)
    ensures f.(status := filters.status) == filters
  {
    filters.(status := TabStatus(tab))
  }

  /** The status sent depends on the tab alone. */
  lemma TabDecidesStatus(f1: SchemeFilters, f2: SchemeFilters, tab: Tab)
    ensures EffectiveFilters(f1, tab).status == EffectiveFilters(f2, tab).status
  {
  }

  function BoolString(b: bool): string {
    if b then "true" else "false"
  }

  /** The parameter names in the order of the `set` calls. */
  const ORDER: seq<string> := ["category", "status", "search", "minAmount", "maxAmount", "isActive", "tags"]

  /** No name is set twice. */
  lemma OrderDistinct(a: nat, b: nat)
    requires a < 7 && b < 7 && ORDER[a] == ORDER[b]
    ensures a == b
  {
  }

  /**
   * Which of the seven `set` calls are made: category, status and search
   * when truthy; the amounts and `isActive` whenever defined; tags when the
   * list is non-empty.
   */
  function Flags(f: SchemeFilters): (b: seq<bool>)
    ensures |b| == 7
  {
    [Truthy(f.category), Truthy(f.status), Truthy(f.search), f.minAmount.Some?, f.maxAmount.Some?,
     f.isActive.Some?, f.tags.Some? && |f.tags.value| > 0]
  }

  /**
   * The values the calls pass: numbers and booleans as `String` renders them,
   * tags joined with ",". The value of a call that is not made is never used.
   */
  function Values(f: SchemeFilters): (v: seq<string>)
    ensures |v| == 7
  {
    [f.category.GetOr(""), f.status.GetOr(""), f.search.GetOr(""), IntToString(f.minAmount.GetOr(0)),
     IntToString(f.maxAmount.GetOr(0)), BoolString(f.isActive.GetOr(false)), Join(f.tags.GetOr([]), ',')]
  }

  /** The pairs the first `k` calls add. */
  function Chosen(flags: seq<bool>, values: seq<string>, k: nat): seq<Param>
    requires |flags| == |values| == 7 && k <= 7
    decreases k
  {
    if k == 0 then []
    else Chosen(flags, values, k - 1) + (if flags[k - 1] then [(ORDER[k - 1], values[k - 1])] else [])
  }

  /** The positions below `k` whose call is made, in increasing order. */
  function Positions(flags: seq<bool>, k: nat): (pos: seq<nat>)
    requires k <= |flags|
    ensures forall i :: 0 <= i < |pos| ==> pos[i] < k && flags[pos[i]]
    ensures forall i, j :: 0 <= i < j < |pos| ==> pos[i] < pos[j]
    ensures forall p :: 0 <= p < k && flags[p] ==> p in pos
    decreases k
  {
    if k == 0 then []
    else Positions(flags, k - 1) + (if flags[k - 1] then [k - 1] else [])
  }

  /** The first `k` calls add, in order, the names and values of the positions made below `k`. */
  lemma {:induction false} ChosenPositions(flags: seq<bool>, values: seq<string>, k: nat)
    requires |flags| == |values| == 7 && k <= 7
    ensures var ps := Chosen(flags, values, k);
            var pos := Positions(flags, k);
            && |ps| == |pos|
            && forall i :: 0 <= i < |ps| ==> ps[i] == (ORDER[pos[i]], values[pos[i]])
    decreases k
  {
    if k > 0 {
      ChosenPositions(flags, values, k - 1);
    }
  }

  /** The pairs of all seven calls. */
  function ParamList(f: SchemeFilters): seq<Param> {
    Chosen(Flags(f), Values(f), 7)
  }

  /**
   * The pairs come in the fixed order of the calls: for the positions whose
   * call is made, in increasing position, the name at that position and its value.
   */
  lemma ParamsInOrder(f: SchemeFilters)
    ensures var ps := ParamList(f);
            var pos := Positions(Flags(f), 7);
            && |ps| == |pos|
            && (forall i, j :: 0 <= i < j < |pos| ==> pos[i] < pos[j])
            && forall i :: 0 <= i < |ps| ==> Flags(f)[pos[i]] && ps[i] == (ORDER[pos[i]], Values(f)[pos[i]])
  {
    ChosenPositions(Flags(f), Values(f), 7);
  }

  /** The request URL for the given pairs: the bare path exactly when there are none. */
  function UrlOf(params: seq<Param>): (url: string)
    ensures url == SCHEMES_PATH <==> params == []
    ensures params != [] ==> url == SCHEMES_PATH + "?" + Serialize(params)
  {
    SerializeEmpty(params);
    var qs := Serialize(params);
    if qs != "" then SCHEMES_PATH + "?" + qs else SCHEMES_PATH
  }

  /** `set` on a name not yet present appends the pair. */
  lemma SetFresh(list: seq<Param>, name: string, value: string)
    requires forall i :: 0 <= i < |list| ==> list[i].0 != name
    ensures SetParam(list, name, value) == list + [(name, value)]
  {
  }

  /** Each `set` call of the scheme manager appends its pair to those of the calls before it. */
  lemma SetStep(flags: seq<bool>, values: seq<string>, k: nat)
    requires |flags| == |values| == 7 && k < 7 && flags[k]
    ensures SetParam(Chosen(flags, values, k), ORDER[k], values[k]) == Chosen(flags, values, k + 1)
  {
    var ps := Chosen(flags, values, k);
    ChosenPositions(flags, values, k);
    forall i | 0 <= i < |ps| ensures ps[i].0 != ORDER[k] {
      var p := Positions(flags, k)[i];
      if ORDER[p] == ORDER[k] {
        OrderDistinct(p, k);
      }
    }
    SetFresh(ps, ORDER[k], values[k]);
  }

  /** The `URLSearchParams` that `schemesUrl` fills: one conditional `set` per filter, in a fixed order. */
  method BuildParams(f: SchemeFilters) returns (params: URLSearchParams)
    ensures fresh(params)
    ensures params.list == ParamList(f)
  {
    params := new URLSearchParams();
    ghost var flags, values := Flags(f), Values(f);
    if Truthy(f.category) {
      SetStep(flags, values, 0);
      params.Set("category", f.category.value);
    }
    assert params.list == Chosen(flags, values, 1);
    if Truthy(f.status) {
      SetStep(flags, values, 1);
      params.Set("status", f.status.value);
    }
    assert params.list == Chosen(flags, values, 2);
    if Truthy(f.search) {
      SetStep(flags, values, 2);
      params.Set("search", f.search.value);
    }
    assert params.list == Chosen(flags, values, 3);
    if f.minAmount.Some? {
      SetStep(flags, values, 3);
      params.Set("minAmount", IntToString(f.minAmount.value));
    }
    assert params.list == Chosen(flags, values, 4);
    if f.maxAmount.Some? {
      SetStep(flags, values, 4);
      params.Set("maxAmount", IntToString(f.maxAmount.value));
    }
    assert params.list == Chosen(flags, values, 5);
    if f.isActive.Some? {
      SetStep(flags, values, 5);
      params.Set("isActive", BoolString(f.isActive.value));
    }
    assert params.list == Chosen(flags, values, 6);
    if f.tags.Some? && |f.tags.value| > 0 {
      SetStep(flags, values, 6);
      params.Set("tags", Join(f.tags.value, ','));
    }
  }

  /** `schemesUrl`: the URL built from the effective filters of `filters` under `tab`. */
  method SchemesUrl(filters: SchemeFilters, tab: Tab) returns (url: string)
    ensures url == UrlOf(ParamList(EffectiveFilters(filters, tab)))
  {
    var params := BuildParams(EffectiveFilters(filters, tab));
    var qs := params.ToString();
    url := if qs != "" then SCHEMES_PATH + "?" + qs else SCHEMES_PATH;
  }

  // ----- properties of the parameter list -----

  /** A name is sent exactly when its call is made, and then with that call's value. */
  lemma ParamNames(f: SchemeFilters, k: nat)
    requires k < 7
    ensures HasName(ParamList(f), ORDER[k]) <==> Flags(f)[k]
    ensures Flags(f)[k] ==> (ORDER[k], Values(f)[k]) in ParamList(f)
  {
    var ps := ParamList(f);
    var pos := Positions(Flags(f), 7);
    ParamsInOrder(f);
    if HasName(ps, ORDER[k]) {
      var i :| 0 <= i < |ps| && ps[i].0 == ORDER[k];
      OrderDistinct(pos[i], k);
    }
    if Flags(f)[k] {
      assert k in pos;
      var i :| 0 <= i < |pos| && pos[i] == k;
      assert ps[i] == (ORDER[k], Values(f)[k]);
    }
  }

  /**
   * Which parameters are sent: an empty category, status or search is left
   * out, while amounts of 0 and `isActive` false are sent; tags are sent
   * exactly when the list is non-empty, joined with ",".
   */
  lemma ParamPresence(f: SchemeFilters)
    ensures var ps := ParamList(f);
            && (HasName(ps, "category") <==> Truthy(f.category))
            && (HasName(ps, "status") <==> Truthy(f.status))
            && (HasName(ps, "search") <==> Truthy(f.search))
            && (HasName(ps, "minAmount") <==> f.minAmount.Some?)
            && (HasName(ps, "maxAmount") <==> f.maxAmount.Some?)
            && (HasName(ps, "isActive") <==> f.isActive.Some?)
            && (HasName(ps, "tags") <==> f.tags.Some? && |f.tags.value| > 0)
            && (Truthy(f.category) ==> ("category", f.category.value) in ps)
            && (Truthy(f.status) ==> ("status", f.status.value) in ps)
            && (Truthy(f.search) ==> ("search", f.search.value) in ps)
            && (f.minAmount.Some? ==> ("minAmount", IntToString(f.minAmount.value)) in ps)
            && (f.maxAmount.Some? ==> ("maxAmount", IntToString(f.maxAmount.value)) in ps)
            && (f.isActive.Some? ==> ("isActive", BoolString(f.isActive.value)) in ps)
            && (f.tags.Some? && |f.tags.value| > 0 ==> ("tags", Join(f.tags.value, ',')) in ps)
  {
    ParamNames(f, 0);
    ParamNames(f, 1);
    ParamNames(f, 2);
    ParamNames(f, 3);
    ParamNames(f, 4);
    ParamNames(f, 5);
    ParamNames(f, 6);
  }

  /** The "all" tab sends no status; every other tab sends its status. */
  lemma StatusSentUnlessAll(filters: SchemeFilters, tab: Tab)
    ensures HasName(ParamList(EffectiveFilters(filters, tab)), "status") <==> tab != AllTab
  {
    ParamPresence(EffectiveFilters(filters, tab));
  }

  /** No filter other than the status would add a parameter. */
  predicate OnlyStatus(f: SchemeFilters) {
    && !Truthy(f.category) && !Truthy(f.search) && f.minAmount.None? && f.maxAmount.None?
    && f.isActive.None? && (f.tags.None? || f.tags.value == [])
  }

  lemma SerializeStatusActive()
    ensures Serialize([("status", "ACTIVE")]) == "status=ACTIVE"
  {
    FormEncodeUnreserved("status");
    FormEncodeUnreserved("ACTIVE");
    assert EncodePair(("status", "ACTIVE")) == "status=ACTIVE";
    assert EncodePairs([("status", "ACTIVE")]) == ["status=ACTIVE"];
  }

  /** Without other filters, the "all" tab requests the bare path, whatever status was chosen before. */
  lemma AllTabUrl(filters: SchemeFilters)
    requires OnlyStatus(filters)
    ensures UrlOf(ParamList(EffectiveFilters(filters, AllTab))) == SCHEMES_PATH
  {
    var f := EffectiveFilters(filters, AllTab);
    assert Chosen(Flags(f), Values(f), 7) == [];
  }

  /** When only the call at position `j` is made, the list holds just that one pair. */
  lemma {:induction false} ChosenSingle(flags: seq<bool>, values: seq<string>, j: nat, k: nat)
    requires |flags| == |values| == 7 && j < 7 && k <= 7
    requires forall i :: 0 <= i < 7 ==> (flags[i] <==> i == j)
    ensures Chosen(flags, values, k) == if j < k then [(ORDER[j], values[j])] else []
    decreases k
  {
    if k > 0 {
      ChosenSingle(flags, values, j, k - 1);
    }
  }

  /** Without other filters, the "active" tab sends the status alone. */
  lemma ActiveTabParams(filters: SchemeFilters)
    requires OnlyStatus(filters)
    ensures ParamList(EffectiveFilters(filters, ActiveTab)) == [("status", SCHEME_ACTIVE)]
  {
    var f := EffectiveFilters(filters, ActiveTab);
    var flags := Flags(f);
    assert forall i :: 0 <= i < 7 ==> (flags[i] <==> i == 1);
    ChosenSingle(flags, Values(f), 1, 7);
  }

  /** Without other filters, the "active" tab (the initial one) requests only the ACTIVE status. */
  lemma ActiveTabUrl(filters: SchemeFilters)
    requires OnlyStatus(filters)
    ensures UrlOf(ParamList(EffectiveFilters(filters, ActiveTab))) == SCHEMES_PATH + "?" + "status=ACTIVE"
  {
    var ps := ParamList(EffectiveFilters(filters, ActiveTab));
    ActiveTabParams(filters);
    SerializeStatusActive();
    var qs := Serialize(ps);
    assert qs == "status=ACTIVE";
    assert UrlOf(ps) == SCHEMES_PATH + "?" + qs;
  }
}
