/**
 * The search-and-filter predicate shared by `filterPlans`/`filterProjects` in
 * script.js and in ui_functions.js: a case-folded substring search over the
 * name, falling back to the description, combined with exact-match filters
 * that may also be `'all'`. Reading `name.toLowerCase()` on an item whose name
 * is not a string throws, and so does the description fallback on a truthy
 * description that is not a string: the whole `filter` call then throws.
 */
module Search {
  import opened Js
  import opened Text

  /** The string a property holds, if it holds one. */
  function StrProp(e: Json, k: string): Option<string>
  {
    match Prop(e, k)
    case Some(JStr(s)) => Some(s)
    case _ => None
  }

  /** `e.k.toLowerCase().includes(term)`; `None` when the call throws. */
  function LowerIncludes(e: Json, k: string, term: string): Option<bool>
  {
    match StrProp(e, k)
    case Some(s) => Some(Contains(Lower(s), term))
    case None => None
  }

  /** `name.toLowerCase().includes(term) || (description && description.toLowerCase().includes(term))`. */
  function MatchesSearch(e: Json, term: string): Option<bool>
  {
    match LowerIncludes(e, "name", term)
    case None => None
    case Some(true) => Some(true)
    case Some(false) =>
      if Truthy(Prop(e, "description")) then LowerIncludes(e, "description", term) else Some(false)
  }

  /** Every `(key, choice)` filter is `'all'` or equals the item's field. */
  predicate PassesFilters(e: Json, filters: map<string, string>)
  {
    forall k :: k in filters ==> filters[k] == "all" || KeyIs(e, k, filters[k])
  }

  function Verdict(e: Json, term: string, filters: map<string, string>): Option<bool>
  {
    match MatchesSearch(e, term)
    case None => None
    case Some(b) => Some(b && PassesFilters(e, filters))
  }

  function Keeps(term: string, filters: map<string, string>): Json -> bool
  {
    e => Verdict(e, term, filters) == Some(true)
  }

  /** `items.filter(...)` with the verdict above; `None` when some element makes it throw. */
  function FilterOrThrow(items: seq<Json>, term: string, filters: map<string, string>): (r: Option<seq<Json>>)
    ensures r.Some? <==> forall i :: 0 <= i < |items| ==> Verdict(items[i], term, filters).Some?
    ensures r.Some? ==> r.value == Filter(items, Keeps(term, filters))
    decreases |items|
  {
    if items == [] then Some([])
    else
      match Verdict(items[0], term, filters)
      case None => None
      case Some(b) =>
        match FilterOrThrow(items[1..], term, filters)
        case None => None
        case Some(rest) => Some(if b then [items[0]] + rest else rest)
  }

  /** The plan filter: the typed term lower-cased, one status filter. */
  function FilterPlans(plans: seq<Json>, typed: string, status: string): Option<seq<Json>>
  {
    FilterOrThrow(plans, Lower(typed), map["status" := status])
  }

  /** The project filter: the typed term lower-cased, a status and a category filter. */
  function FilterProjects(projects: seq<Json>, typed: string, status: string, category: string): Option<seq<Json>>
  {
    FilterOrThrow(projects, Lower(typed), map["status" := status, "category" := category])
  }

  // ------------------------------------------------ independent description

  /** The search hits the item: its name contains the term, or else its non-empty description does. */
  predicate Hit(e: Json, term: string)
  {
    (StrProp(e, "name").Some? && Contains(Lower(StrProp(e, "name").value), term))
    || (StrProp(e, "name").Some? && StrProp(e, "description").Some? && StrProp(e, "description").value != ""
        && Contains(Lower(StrProp(e, "description").value), term))
  }

  /** Reading the item throws: a non-string name, or a missed name with a truthy non-string description. */
  predicate Throws(e: Json, term: string)
  {
    StrProp(e, "name").None?
    || (!Contains(Lower(StrProp(e, "name").value), term) && Truthy(Prop(e, "description"))
        && StrProp(e, "description").None?)
  }

  lemma VerdictMeaning(e: Json, term: string, filters: map<string, string>)
    ensures Verdict(e, term, filters).None? <==> Throws(e, term)
    ensures Verdict(e, term, filters) == Some(true) <==> Hit(e, term) && PassesFilters(e, filters)
  {
    StrTruthy(e, "description");
    var name := StrProp(e, "name");
    if name.Some? {
      var named := Contains(Lower(name.value), term);
      assert LowerIncludes(e, "name", term) == Some(named);
    }
  }

  /** A string property is truthy exactly when it is not empty. */
  lemma StrTruthy(e: Json, k: string)
    ensures StrProp(e, k).Some? ==> (Truthy(Prop(e, k)) <==> StrProp(e, k).value != "")
  {
  }

  /**
   * The filter throws exactly when some item throws; otherwise it returns, in
   * their original order, exactly the items the search hits and every filter admits.
   */
  lemma {:induction false} FilterMeaning(items: seq<Json>, term: string, filters: map<string, string>)
    ensures FilterOrThrow(items, term, filters).None? <==> exists i :: 0 <= i < |items| && Throws(items[i], term)
    ensures FilterOrThrow(items, term, filters).Some? ==>
      (var r := FilterOrThrow(items, term, filters).value;
       SubsequenceOf(r, items)
       && forall x :: x in r <==> x in items && Hit(x, term) && PassesFilters(x, filters))
  {
    forall i | 0 <= i < |items|
      ensures Verdict(items[i], term, filters).None? <==> Throws(items[i], term)
    {
      VerdictMeaning(items[i], term, filters);
    }
    var r := FilterOrThrow(items, term, filters);
    if r.Some? {
      FilterIsSubsequence(items, Keeps(term, filters));
      forall x | x in items
        ensures Keeps(term, filters)(x) <==> Hit(x, term) && PassesFilters(x, filters)
      {
        VerdictMeaning(x, term, filters);
      }
    }
  }

  /** What keeping one item means. */
  lemma Kept(items: seq<Json>, term: string, filters: map<string, string>, x: Json)
    requires FilterOrThrow(items, term, filters).Some?
    requires x in FilterOrThrow(items, term, filters).value
    ensures x in items && Hit(x, term) && PassesFilters(x, filters)
  {
    FilterMeaning(items, term, filters);
  }

  /** A project is kept only when its status and category both match (or are `'all'`). */
  lemma ProjectFilterMeaning(projects: seq<Json>, typed: string, status: string, category: string, x: Json)
    requires FilterProjects(projects, typed, status, category).Some?
    requires x in FilterProjects(projects, typed, status, category).value
    ensures x in projects && Hit(x, Lower(typed))
    ensures status == "all" || KeyIs(x, "status", status)
    ensures category == "all" || KeyIs(x, "category", category)
  {
    Kept(projects, Lower(typed), map["status" := status, "category" := category], x);
    FiltersAdmit(x, status, category);
  }

  lemma FiltersAdmit(x: Json, status: string, category: string)
    requires PassesFilters(x, map["status" := status, "category" := category])
    ensures status == "all" || KeyIs(x, "status", status)
    ensures category == "all" || KeyIs(x, "category", category)
  {
    var filters := map["status" := status, "category" := category];
    assert "status" in filters && "category" in filters;
  }

  /** The empty search matches every plan whose name is a string. */
  lemma EmptySearchHits(e: Json)
    requires StrProp(e, "name").Some?
    ensures Hit(e, "")
  {
    assert StartsWith(Lower(StrProp(e, "name").value), "");
  }
}
