/**
 * JSON values as the browser scripts and the Python servers hold them after
 * parsing, with the JavaScript reading of them: property access, truthiness,
 * strict equality, object spread, and the array operations the stores use.
 */
module Js {

  datatype Option<T> = None | Some(value: T)

  /** `jar[key] = value` for a parsed cookie pair; nothing when the piece gave none. */
  function Set(jar: map<string, string>, c: Option<(string, string)>): map<string, string>
  {
    if c.Some? then jar[c.value.0 := c.value.1] else jar
  }

  /**
   * A parsed JSON value. Numbers are integers here. `undefined` is not a value:
   * a missing property is `None` wherever a property is read.
   */
  datatype Json =
    | JNull
    | JBool(b: bool)
    | JNum(n: int)
    | JStr(s: string)
    | JArr(items: seq<Json>)
    | JObj(fields: map<string, Json>)

  /** `v.k`; `None` stands for `undefined`. */
  function Prop(v: Json, k: string): Option<Json>
  {
    if v.JObj? && k in v.fields then Some(v.fields[k]) else None
  }

  /** JavaScript truthiness of a property value; an empty array or object is truthy. */
  predicate Truthy(v: Option<Json>)
  {
    match v
    case None => false
    case Some(JNull) => false
    case Some(JBool(b)) => b
    case Some(JNum(n)) => n != 0
    case Some(JStr(s)) => s != ""
    case Some(JArr(_)) => true
    case Some(JObj(_)) => true
  }

  /**
   * `a === b`. Two arrays or objects are equal only when they are the same
   * object; values carry no identity here, so they are never equal.
   */
  predicate StrictEq(a: Option<Json>, b: Option<Json>)
  {
    match (a, b)
    case (None, None) => true
    case (Some(x), Some(y)) => !x.JArr? && !x.JObj? && x == y
    case _ => false
  }

  /** `e.k === s` for a string `s`. */
  predicate KeyIs(e: Json, k: string, s: string)
  {
    Prop(e, k) == Some(JStr(s))
  }

  lemma StrictEqString(v: Option<Json>, s: string)
    ensures StrictEq(v, Some(JStr(s))) <==> v == Some(JStr(s))
  {
  }

  /** The own fields that an object spread copies (none for a non-object). */
  function Fields(v: Json): map<string, Json>
  {
    if v.JObj? then v.fields else map[]
  }

  /** `{...a, ...b}`: the fields of `b` override those of `a`. */
  function Spread(a: Json, b: map<string, Json>): (r: Json)
    ensures r.JObj?
    ensures forall k :: k in b ==> Prop(r, k) == Some(b[k])
    ensures forall k :: k !in b ==> Prop(r, k) == Prop(a, k)
  {
    JObj(Fields(a) + b)
  }

  /** `v.k = x`: an assignment to an object's field; nothing happens to a non-object. */
  function SetProp(v: Json, k: string, x: Json): (r: Json)
    ensures v.JObj? ==> Prop(r, k) == Some(x)
    ensures forall k2 :: k2 != k ==> Prop(r, k2) == Prop(v, k2)
  {
    if v.JObj? then JObj(v.fields[k := x]) else v
  }

  /** The array a property holds, or `[]` when it holds anything else. */
  function AsArray(v: Option<Json>): seq<Json>
  {
    if v.Some? && v.value.JArr? then v.value.items else []
  }

  /** The `projectManagerData` item of the browser's local storage. */
  datatype StorageItem =
    | NoItem             // absent, or the empty string
    | Garbled            // present, but `JSON.parse` throws on it
    | Item(doc: Json)    // present and parsed

  /** The object `{plans, projects, tasks, records}` the stores persist. */
  function CollectionsDoc(plans: seq<Json>, projects: seq<Json>, tasks: seq<Json>, records: seq<Json>): (d: Json)
    ensures AsArray(Prop(d, "plans")) == plans && AsArray(Prop(d, "projects")) == projects
    ensures AsArray(Prop(d, "tasks")) == tasks && AsArray(Prop(d, "records")) == records
    ensures Truthy(Prop(d, "plans")) && Truthy(Prop(d, "projects"))
    ensures Truthy(Prop(d, "tasks")) && Truthy(Prop(d, "records"))
  {
    JObj(map["plans" := JArr(plans), "projects" := JArr(projects), "tasks" := JArr(tasks), "records" := JArr(records)])
  }

  /** `data.plans && data.projects && data.tasks && data.records`: the condition an imported snapshot must meet. */
  predicate HasAllCollections(d: Json)
  {
    Truthy(Prop(d, "plans")) && Truthy(Prop(d, "projects")) && Truthy(Prop(d, "tasks")) && Truthy(Prop(d, "records"))
  }

  const MiB: nat := 1024 * 1024

  // ---------------------------------------------------------------- arrays

  /** `s.filter(p)`. */
  function Filter<T>(s: seq<T>, p: T -> bool): (r: seq<T>)
    ensures |r| <= |s|
    ensures forall x :: x in r ==> x in s && p(x)
    ensures forall x :: x in s && p(x) ==> x in r
    decreases |s|
  {
    if s == [] then []
    else if p(s[0]) then [s[0]] + Filter(s[1..], p)
    else Filter(s[1..], p)
  }

  /** Filtering keeps the order: it distributes over concatenation. */
  lemma {:induction false} FilterConcat<T>(a: seq<T>, b: seq<T>, p: T -> bool)
    ensures Filter(a + b, p) == Filter(a, p) + Filter(b, p)
    decreases |a|
  {
    if a != [] {
      assert (a + b)[0] == a[0];
      assert (a + b)[1..] == a[1..] + b;
      FilterConcat(a[1..], b, p);
      assert a + b != [];
      if p(a[0]) {
        calc {
          Filter(a + b, p);
          [a[0]] + Filter(a[1..] + b, p);
          [a[0]] + (Filter(a[1..], p) + Filter(b, p));
          ([a[0]] + Filter(a[1..], p)) + Filter(b, p);
        }
      } else {
        assert Filter(a + b, p) == Filter(a[1..] + b, p);
      }
    } else {
      assert a + b == b;
    }
  }

  /** A filter that keeps every element is the identity. */
  lemma {:induction false} FilterAll<T>(s: seq<T>, p: T -> bool)
    requires forall i :: 0 <= i < |s| ==> p(s[i])
    ensures Filter(s, p) == s
    decreases |s|
  {
    if s != [] {
      FilterAll(s[1..], p);
    }
  }

  /** `r` lists some of the elements of `s`, in the order `s` has them. */
  predicate SubsequenceOf<T(==)>(r: seq<T>, s: seq<T>)
    decreases |s|
  {
    r == [] || (s != [] && ((r[0] == s[0] && SubsequenceOf(r[1..], s[1..])) || SubsequenceOf(r, s[1..])))
  }

  lemma {:induction false} FilterIsSubsequence<T>(s: seq<T>, p: T -> bool)
    ensures SubsequenceOf(Filter(s, p), s)
    decreases |s|
  {
    if s != [] {
      FilterIsSubsequence(s[1..], p);
      if p(s[0]) {
        var r := Filter(s, p);
        assert r[0] == s[0] && r[1..] == Filter(s[1..], p);
      }
    }
  }

  /** `e.k === v`. */
  predicate Matches(e: Json, k: string, v: Option<Json>)
  {
    StrictEq(Prop(e, k), v)
  }

  /** Index of the first element whose `k` is `v`, or -1: `a.findIndex(e => e.k === v)`. */
  function FindIndex(a: seq<Json>, k: string, v: Option<Json>): (r: int)
    ensures -1 <= r < |a|
    ensures r >= 0 ==> Matches(a[r], k, v)
    ensures r >= 0 ==> forall j :: 0 <= j < r ==> !Matches(a[j], k, v)
    ensures r == -1 <==> forall j :: 0 <= j < |a| ==> !Matches(a[j], k, v)
    decreases |a|
  {
    if a == [] then -1
    else if Matches(a[0], k, v) then 0
    else
      var r := FindIndex(a[1..], k, v);
      if r == -1 then -1 else r + 1
  }

  /** `a.splice(i, 1)`. */
  function RemoveAt<T>(a: seq<T>, i: nat): (r: seq<T>)
    requires i < |a|
    ensures |r| == |a| - 1
    ensures forall j :: 0 <= j < i ==> r[j] == a[j]
    ensures forall j :: i <= j < |r| ==> r[j] == a[j + 1]
  {
    a[..i] + a[i + 1..]
  }

  /** `a.splice(i, 0, x)`. */
  function InsertAt<T>(a: seq<T>, i: nat, x: T): (r: seq<T>)
    requires i <= |a|
    ensures |r| == |a| + 1 && r[i] == x
    ensures forall j :: 0 <= j < i ==> r[j] == a[j]
    ensures forall j :: i < j < |r| ==> r[j] == a[j - 1]
  {
    a[..i] + [x] + a[i..]
  }

  /** Putting a removed element back at its index restores the array. */
  lemma InsertRemoved<T>(a: seq<T>, i: nat)
    requires i < |a|
    ensures InsertAt(RemoveAt(a, i), i, a[i]) == a
  {
    var r := InsertAt(RemoveAt(a, i), i, a[i]);
    assert |r| == |a|;
    forall j | 0 <= j < |a| ensures r[j] == a[j] { }
  }
}
