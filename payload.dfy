/**
 * `handle_save_data`, as server.py and auth_server.py both write it, with
 * Python's reading of the parsed payload: `in` on a dict, list or string,
 * iteration over a dict's keys or a string's characters, and the TypeError
 * that any other combination raises (answered with 500). The body, the
 * Content-Length header and the outcome of decoding are inputs; writing a
 * collection file is recorded as a `(name, value)` pair.
 */
module Payload {
  import opened Js
  import opened Text

  /** Largest Content-Length accepted (50 MiB). */
  const MaxBody: int := 50 * MiB

  /** Longest image kept in a plan or project (5 MiB characters). */
  const MaxImageChars: nat := 5 * MiB

  /** The request body: not UTF-8, not JSON, or the parsed document. */
  datatype Body = NotUtf8 | NotJson | Parsed(doc: Json)

  /** The status sent and the collection files written, in order. */
  datatype Reply = Reply(status: int, writes: seq<(string, Json)>)

  const Collections: seq<string> := ["plans", "projects", "tasks", "records"]

  // -------------------------------------------------------- Python values

  /** Python truthiness. */
  predicate PyTruthy(v: Json)
  {
    match v
    case JNull => false
    case JBool(b) => b
    case JNum(n) => n != 0
    case JStr(s) => s != ""
    case JArr(xs) => xs != []
    case JObj(f) => f != map[]
  }

  /** `len(v)`; `None` where it raises TypeError. */
  function PyLen(v: Json): Option<nat>
  {
    match v
    case JStr(s) => Some(|s|)
    case JArr(xs) => Some(|xs|)
    case JObj(f) => Some(|f|)
    case _ => None
  }

  /** `key in c`; `None` where it raises TypeError. */
  function PyIn(key: string, c: Json): Option<bool>
  {
    match c
    case JObj(f) => Some(key in f)
    case JArr(xs) => Some(JStr(key) in xs)
    case JStr(s) => Some(Contains(s, key))
    case _ => None
  }

  /** The image of an item is too long and gets replaced by `None`. */
  predicate Oversized(item: Json)
  {
    item.JObj? && "image" in item.fields && PyTruthy(item.fields["image"])
    && PyLen(item.fields["image"]).Some? && PyLen(item.fields["image"]).value > MaxImageChars
  }

  // ---------------------------------------------------- the image pass

  /** One `item` of the inner loop, after it; `None` when the loop body raises. */
  function StripItem(item: Json): (r: Option<Json>)
    ensures r.Some? && Oversized(item) ==> r.value == SetProp(item, "image", JNull)
    ensures r.Some? && !Oversized(item) ==> r.value == item
    ensures r.None? <==>
      match item
      case JObj(f) => "image" in f && PyTruthy(f["image"]) && PyLen(f["image"]).None?
      case JArr(xs) => JStr("image") in xs
      case JStr(s) => Contains(s, "image")
      case _ => true
  {
    match item
    case JObj(f) =>
      if "image" in f && PyTruthy(f["image"]) then
        match PyLen(f["image"])
        case None => None
        case Some(n) => if n > MaxImageChars then Some(JObj(f["image" := JNull])) else Some(item)
      else Some(item)
    case JArr(xs) => if JStr("image") in xs then None else Some(item)     // item['image'] on a list
    case JStr(s) => if Contains(s, "image") then None else Some(item)     // item['image'] on a str
    case _ => None                                                        // 'image' in a number, bool or None
  }

  /** The inner loop over a list, item by item. */
  function StripItems(items: seq<Json>): (r: Option<seq<Json>>)
    ensures r.Some? <==> forall i :: 0 <= i < |items| ==> StripItem(items[i]).Some?
    ensures r.Some? ==> |r.value| == |items| && forall i :: 0 <= i < |items| ==> Some(r.value[i]) == StripItem(items[i])
    decreases |items|
  {
    if items == [] then Some([])
    else
      match StripItems(items[..|items| - 1])
      case None => None
      case Some(done) =>
        match StripItem(items[|items| - 1])
        case None => None
        case Some(x) => Some(done + [x])
  }

  /** `for item in data[data_type]` over the value of one collection. */
  function StripCollection(c: Json): Option<Json>
  {
    match c
    case JArr(items) =>
      (match StripItems(items)
       case None => None
       case Some(out) => Some(JArr(out)))
    case JObj(f) =>                                   // iterates the keys, which are strings
      if exists k :: k in f && Contains(k, "image") then None else Some(c)
    case JStr(_) => Some(c)                           // one-character strings never contain 'image'
    case _ => None
  }

  /** One round of the outer loop: `if data_type in data: for item in data[data_type]: ...`. */
  function StripStep(data: Json, key: string): Option<Json>
  {
    match PyIn(key, data)
    case None => None
    case Some(false) => Some(data)
    case Some(true) =>
      if data.JObj? then
        match StripCollection(data.fields[key])
        case None => None
        case Some(c) => Some(JObj(data.fields[key := c]))
      else None                                       // data['plans'] on a list or str
  }

  function StripKeys(data: Json, keys: seq<string>): Option<Json>
    decreases |keys|
  {
    if keys == [] then Some(data)
    else
      match StripStep(data, keys[0])
      case None => None
      case Some(d) => StripKeys(d, keys[1..])
  }

  // ---------------------------------------------------- the write pass

  /** `for data_type in keys: if data_type in data: save_data(...)`: whether it finished, and the files written. */
  function WriteKeys(data: Json, keys: seq<string>): (r: (bool, seq<(string, Json)>))
    decreases |keys|
  {
    if keys == [] then (true, [])
    else
      match PyIn(keys[0], data)
      case None => (false, [])
      case Some(false) => WriteKeys(data, keys[1..])
      case Some(true) =>
        if data.JObj? then
          var rest := WriteKeys(data, keys[1..]);
          (rest.0, [(keys[0], data.fields[keys[0]])] + rest.1)
        else (false, [])
  }

  /** The whole handler after authentication. `length` is `None` when the header is missing or not an integer. */
  function Respond(length: Option<int>, body: Body): Reply
  {
    if length.None? then Reply(500, [])
    else if length.value > MaxBody then Reply(413, [])
    else
      match body
      case NotUtf8 => Reply(500, [])              // UnicodeDecodeError is not a JSONDecodeError
      case NotJson => Reply(400, [])
      case Parsed(d) =>
        match StripKeys(d, ["plans", "projects"])
        case None => Reply(500, [])
        case Some(d2) =>
          var w := WriteKeys(d2, Collections);
          Reply(if w.0 then 200 else 500, w.1)
  }

  // ---------------------------------------------------------- the method

  /** The inner loop: `for item in items`, nulling oversized images; `None` when it raises. */
  method StripList(items: seq<Json>) returns (r: Option<seq<Json>>)
    ensures r == StripItems(items)
  {
    var out: seq<Json> := [];
    var j := 0;
    while j < |items|
      invariant 0 <= j <= |items|
      invariant StripItems(items[..j]) == Some(out)
    {
      assert items[..j + 1][..j] == items[..j];
      var item := items[j];
      if item.JObj? {
        if "image" in item.fields && PyTruthy(item.fields["image"]) {
          var size := PyLen(item.fields["image"]);
          if size.None? {
            assert StripItems(items) == None by {
              assert StripItem(items[j]).None?;
            }
            return None;
          }
          if size.value > MaxImageChars {
            item := JObj(item.fields["image" := JNull]);
          }
        }
      } else if PyIn("image", item) != Some(false) {
        assert StripItems(items) == None by {
          assert StripItem(items[j]).None?;
        }
        return None;
      }
      out := out + [item];
      j := j + 1;
    }
    assert items[..|items|] == items;
    r := Some(out);
  }

  /** The outer loop over `['plans', 'projects']`. */
  method StripImages(data: Json) returns (r: Option<Json>)
    ensures r == StripKeys(data, ["plans", "projects"])
  {
    var keys := ["plans", "projects"];
    var d := data;
    var k := 0;
    while k < |keys|
      invariant 0 <= k <= |keys|
      invariant StripKeys(d, keys[k..]) == StripKeys(data, keys)
    {
      assert keys[k..][0] == keys[k] && keys[k..][1..] == keys[k + 1..];
      ghost var before := d;
      var present := PyIn(keys[k], d);
      if present.None? {
        return None;
      }
      if present.value {
        if !d.JObj? {
          return None;
        }
        var c := d.fields[keys[k]];
        if c.JArr? {
          var out := StripList(c.items);
          if out.None? {
            return None;
          }
          d := JObj(d.fields[keys[k] := JArr(out.value)]);
        } else if c.JObj? {
          if exists key :: key in c.fields && Contains(key, "image") {
            return None;
          }
          assert d.fields[keys[k] := c] == d.fields;
        } else if !c.JStr? {
          return None;
        } else {
          assert d.fields[keys[k] := c] == d.fields;
        }
      }
      assert StripStep(before, keys[k]) == Some(d);
      k := k + 1;
    }
    assert keys[k..] == [];
    r := Some(d);
  }

  /** The write loop over the collection names `keys` (the handler passes the four of `Collections`). */
  method WriteCollections(data: Json, keys: seq<string>) returns (finished: bool, writes: seq<(string, Json)>)
    ensures (finished, writes) == WriteKeys(data, keys)
  {
    writes := [];
    var n := 0;
    assert keys[n..] == keys;
    assert writes + WriteKeys(data, keys).1 == WriteKeys(data, keys).1;
    while n < |keys|
      invariant 0 <= n <= |keys|
      invariant WriteKeys(data, keys).0 == WriteKeys(data, keys[n..]).0
      invariant WriteKeys(data, keys).1 == writes + WriteKeys(data, keys[n..]).1
    {
      assert keys[n..][0] == keys[n] && keys[n..][1..] == keys[n + 1..];
      var present := PyIn(keys[n], data);
      if present.None? {
        assert WriteKeys(data, keys[n..]) == (false, []);
        assert writes + [] == writes;
        return false, writes;
      }
      if present.value {
        if !data.JObj? {
          assert WriteKeys(data, keys[n..]) == (false, []);
          assert writes + [] == writes;
          return false, writes;
        }
        var w := (keys[n], data.fields[keys[n]]);
        var rest := WriteKeys(data, keys[n + 1..]).1;
        assert writes + ([w] + rest) == (writes + [w]) + rest;
        writes := writes + [w];
      }
      n := n + 1;
    }
    assert keys[n..] == [];
    assert writes + [] == writes;
    finished := true;
  }

  /** The handler as the source runs it: the header and body checks, the image pass, then the writes. */
  method HandleSaveData(length: Option<int>, body: Body) returns (reply: Reply)
    ensures reply == Respond(length, body)
  {
    if length.None? {
      return Reply(500, []);
    }
    if length.value > MaxBody {
      return Reply(413, []);
    }
    match body
    case NotUtf8 =>
      return Reply(500, []);
    case NotJson =>
      return Reply(400, []);
    case Parsed(doc) =>
      var stripped := StripImages(doc);
      if stripped.None? {
        return Reply(500, []);
      }
      var finished, writes := WriteCollections(stripped.value, Collections);
      reply := Reply(if finished then 200 else 500, writes);
  }

  // ------------------------------------------------------------ properties

  /** A Content-Length over 50 MiB is answered with 413 before the body is read, and nothing is written. */
  lemma OversizeRejected(length: Option<int>, body: Body)
    requires length.Some? && length.value > MaxBody
    ensures Respond(length, body) == Reply(413, [])
  {
  }

  /** Only collections present in the document are written, with the value it holds. */
  lemma {:induction false} WriteKeysOnlyPresent(data: Json, keys: seq<string>)
    ensures forall p :: p in WriteKeys(data, keys).1 ==>
      p.0 in keys && data.JObj? && p.0 in data.fields && p.1 == data.fields[p.0]
    decreases |keys|
  {
    if keys != [] {
      WriteKeysOnlyPresent(data, keys[1..]);
      var w := WriteKeys(data, keys);
      forall p | p in w.1
        ensures p.0 in keys && data.JObj? && p.0 in data.fields && p.1 == data.fields[p.0]
      {
        if PyIn(keys[0], data) != Some(true) || !data.JObj? || p != (keys[0], data.fields[keys[0]]) {
          assert p in WriteKeys(data, keys[1..]).1;
        }
      }
    }
  }

  /** When the write pass finishes on an object, every key present is written, in order, and nothing else. */
  lemma {:induction false} WriteKeysComplete(data: Json, keys: seq<string>)
    requires data.JObj?
    ensures WriteKeys(data, keys).0
    ensures WriteKeys(data, keys).1 == Present(data.fields, keys)
    decreases |keys|
  {
    if keys != [] {
      WriteKeysComplete(data, keys[1..]);
    }
  }

  /** The `(key, value)` pairs of `keys` present in `f`, in the order of `keys`. */
  function Present(f: map<string, Json>, keys: seq<string>): seq<(string, Json)>
    decreases |keys|
  {
    if keys == [] then []
    else if keys[0] in f then [(keys[0], f[keys[0]])] + Present(f, keys[1..])
    else Present(f, keys[1..])
  }

  lemma {:induction false} StripStepKeepsOthers(data: Json, key: string)
    requires StripStep(data, key).Some?
    ensures var d := StripStep(data, key).value;
            (data.JObj? <==> d.JObj?)
            && (data.JObj? ==>
                  (d.fields.Keys == data.fields.Keys
                   && forall k :: k in data.fields && k != key ==> d.fields[k] == data.fields[k]))
            && (!data.JObj? ==> d == data)
  {
  }

  /**
   * A payload that is a JSON object and is accepted is answered with 200;
   * every collection present in it is written, in order, and nothing else;
   * tasks and records are written exactly as sent.
   */
  lemma AcceptedObject(length: Option<int>, body: Body)
    requires length.Some? && length.value <= MaxBody && body.Parsed? && body.doc.JObj?
    requires StripKeys(body.doc, ["plans", "projects"]).Some?
    ensures var r := Respond(length, body);
            var d2 := StripKeys(body.doc, ["plans", "projects"]).value;
            r.status == 200 && d2.JObj? && d2.fields.Keys == body.doc.fields.Keys
            && r.writes == Present(d2.fields, Collections)
            && (forall k :: k in body.doc.fields && k != "plans" && k != "projects" ==> d2.fields[k] == body.doc.fields[k])
  {
    var d := body.doc;
    var d1 := StripStep(d, "plans").value;
    StripStepKeepsOthers(d, "plans");
    assert StripKeys(d, ["plans", "projects"]) == StripKeys(d1, ["projects"]);
    var d2 := StripStep(d1, "projects").value;
    StripStepKeepsOthers(d1, "projects");
    assert StripKeys(d1, ["projects"]) == Some(d2);
    WriteKeysComplete(d2, Collections);
  }

  /**
   * The image pass changes a plans or projects list item by item: an item
   * with an oversized image gets `image: None`, every other item stays as it was.
   */
  lemma StripListMeaning(items: seq<Json>)
    requires StripCollection(JArr(items)).Some?
    ensures var out := StripCollection(JArr(items)).value;
            out.JArr? && |out.items| == |items|
            && forall i :: 0 <= i < |items| ==>
                 (Oversized(items[i]) ==> out.items[i] == SetProp(items[i], "image", JNull) && Prop(out.items[i], "image") == Some(JNull))
                 && (!Oversized(items[i]) ==> out.items[i] == items[i])
  {
    var out := StripItems(items).value;
    forall i | 0 <= i < |items|
      ensures Oversized(items[i]) ==> out[i] == SetProp(items[i], "image", JNull) && Prop(out[i], "image") == Some(JNull)
      ensures !Oversized(items[i]) ==> out[i] == items[i]
    {
      assert Some(out[i]) == StripItem(items[i]);
    }
  }
}
