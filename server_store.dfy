/**
 * The server-backed entity store of server_script.js: a `ServerDataManager`
 * holding four ordered collections (plans, projects, tasks, records) that it
 * saves to the server, falling back to the browser's local storage, plus the
 * page-level loader that seeds two default records.
 *
 * The network, the clock, id generation, JSON sizes and the local-storage
 * quota are oracles: each operation receives their outcome as a parameter.
 */
module ServerStore {
  import opened Js

  /** A payload whose JSON text is longer than this is never sent. */
  const MaxPayload: nat := 10 * MiB

  /** What one `fetch` did. */
  datatype FetchOutcome =
    | NetworkError               // `fetch` threw
    | HttpError(status: int)     // `response.ok` was false
    | Reply(body: Option<Json>)  // `response.ok`; `None` when `response.json()` threw

  /** The oracle for one save: serialised length, the POST's outcome, local-storage quota. */
  datatype SaveEnv = SaveEnv(payloadSize: nat, reply: FetchOutcome, quotaOk: bool)

  /** How a save ends: the server's verdict, or the `catch` that writes local storage. */
  datatype SaveRoute = Remote(accepted: bool) | Fallback

  /** The branch `saveToServer` takes. */
  function RouteOf(env: SaveEnv): (r: SaveRoute)
    ensures env.payloadSize > MaxPayload ==> r == Fallback
    ensures env.payloadSize <= MaxPayload && env.reply.NetworkError? ==> r == Fallback
    ensures env.payloadSize <= MaxPayload && env.reply.HttpError? ==> r == Remote(false)
    ensures r == Remote(true) <==>
      env.payloadSize <= MaxPayload && env.reply.Reply? && env.reply.body.Some?
      && KeyIs(env.reply.body.value, "status", "success")
  {
    if env.payloadSize > MaxPayload then Fallback
    else match env.reply
      case NetworkError => Fallback
      case HttpError(_) => Remote(false)
      case Reply(None) => Fallback
      case Reply(Some(JNull)) => Fallback   // `result.status` on null throws
      case Reply(Some(d)) => Remote(KeyIs(d, "status", "success"))
  }

  /** What `saveToServer` resolves to. */
  function Saved(env: SaveEnv): bool
  {
    match RouteOf(env)
    case Remote(accepted) => accepted
    case Fallback => env.quotaOk
  }

  /** The local-storage item after a save of `doc`. */
  function StorageAfter(env: SaveEnv, doc: Json, before: StorageItem): StorageItem
  {
    if RouteOf(env) == Fallback && env.quotaOk then Item(doc) else before
  }

  /** A save writes local storage only through the fallback, and then reports that write's success. */
  lemma SaveFallbackOnly(env: SaveEnv, doc: Json, before: StorageItem)
    ensures StorageAfter(env, doc, before) != before ==> Saved(env) && RouteOf(env) == Fallback
    ensures env.payloadSize <= MaxPayload && env.reply.HttpError? ==>
      !Saved(env) && StorageAfter(env, doc, before) == before
  {
  }

  /** `e.id = id; e[dateKey] = now`, as `addPlan` and its siblings do before pushing. */
  function Stamp(e: map<string, Json>, id: string, dateKey: string, now: string): (r: Json)
    requires dateKey != "id"
    ensures KeyIs(r, "id", id) && KeyIs(r, dateKey, now)
    ensures forall k :: k != "id" && k != dateKey && k in e ==> Prop(r, k) == Some(e[k])
    ensures r.JObj? && r.fields.Keys == e.Keys + {"id", dateKey}
  {
    JObj(e["id" := JStr(id)][dateKey := JStr(now)])
  }

  /** `a[i] = {...a[i], ...data}` at the first element whose id is `id`; unchanged when there is none. */
  function MergeById(a: seq<Json>, id: string, data: map<string, Json>): (r: seq<Json>)
    ensures |r| == |a|
    ensures FindIndex(a, "id", Some(JStr(id))) == -1 ==> r == a
    ensures forall j :: 0 <= j < |a| && j != FindIndex(a, "id", Some(JStr(id))) ==> r[j] == a[j]
    ensures var i := FindIndex(a, "id", Some(JStr(id)));
      i >= 0 ==> r[i].JObj? && forall k :: Prop(r[i], k) == if k in data then Some(data[k]) else Prop(a[i], k)
  {
    var i := FindIndex(a, "id", Some(JStr(id)));
    if i == -1 then a else a[i := Spread(a[i], data)]
  }

  /** A merge whose data carries no `id` keeps the element's id. */
  lemma MergeKeepsId(a: seq<Json>, id: string, data: map<string, Json>)
    requires "id" !in data && FindIndex(a, "id", Some(JStr(id))) >= 0
    ensures KeyIs(MergeById(a, id, data)[FindIndex(a, "id", Some(JStr(id)))], "id", id)
  {
  }

  /** One step of `deletePlan`'s `forEach`: unlink a project from the plan and promote `planning`. */
  function Unlinked(p: Json, planId: string): (r: Json)
    ensures KeyIs(p, "planId", planId) ==> KeyIs(r, "planId", "")
    ensures KeyIs(p, "planId", planId) && KeyIs(p, "status", "planning") ==> KeyIs(r, "status", "active")
    ensures !KeyIs(p, "status", "planning") ==> Prop(r, "status") == Prop(p, "status")
    ensures !KeyIs(p, "planId", planId) ==> r == p
    ensures forall k :: k != "planId" && k != "status" ==> Prop(r, k) == Prop(p, k)
  {
    if KeyIs(p, "planId", planId) then
      var q := SetProp(p, "planId", JStr(""));
      if KeyIs(q, "status", "planning") then SetProp(q, "status", JStr("active")) else q
    else p
  }

  /** The four collections a load produces. */
  datatype Loaded = Loaded(plans: seq<Json>, projects: seq<Json>, tasks: seq<Json>, records: seq<Json>)

  /** `loadFromLocalStorage`: the collections it installs, or `None` when it returns false. */
  function FromLocal(stored: StorageItem): (r: Option<Loaded>)
    ensures r.Some? <==> stored.Item? && stored.doc != JNull
    ensures r.Some? ==> r.value == Loaded(AsArray(Prop(stored.doc, "plans")), AsArray(Prop(stored.doc, "projects")),
                                          AsArray(Prop(stored.doc, "tasks")), AsArray(Prop(stored.doc, "records")))
  {
    match stored
    case NoItem => None
    case Garbled => None
    case Item(JNull) => None            // `data.plans` on null throws into the catch
    case Item(d) => Some(Loaded(AsArray(Prop(d, "plans")), AsArray(Prop(d, "projects")),
                                AsArray(Prop(d, "tasks")), AsArray(Prop(d, "records"))))
  }

  /** `s` is what `Array.isArray(v) ? v : []` installs. */
  predicate ArrayOrEmpty(v: Option<Json>, s: seq<Json>)
  {
    (v.Some? && v.value.JArr? ==> s == v.value.items) && (!(v.Some? && v.value.JArr?) ==> s == [])
  }

  /** Each collection of `l` is the document's array of that name, or `[]`. */
  predicate InstallsFrom(d: Json, l: Loaded)
  {
    ArrayOrEmpty(Prop(d, "plans"), l.plans) && ArrayOrEmpty(Prop(d, "projects"), l.projects)
    && ArrayOrEmpty(Prop(d, "tasks"), l.tasks) && ArrayOrEmpty(Prop(d, "records"), l.records)
  }

  /**
   * `loadFromServer`: an object reply installs its array fields, an array
   * reply (also `typeof 'object'`) installs four empty collections, and
   * anything else defers to local storage.
   */
  function FromServer(reply: FetchOutcome, stored: StorageItem): (r: Option<Loaded>)
    ensures !(reply.Reply? && reply.body.Some? && (reply.body.value.JObj? || reply.body.value.JArr?)) ==>
      r == FromLocal(stored)
    ensures reply.Reply? && reply.body.Some? && reply.body.value.JObj? ==>
      r.Some? && InstallsFrom(reply.body.value, r.value)
    ensures reply.Reply? && reply.body.Some? && reply.body.value.JArr? ==> r == Some(Loaded([], [], [], []))
  {
    match reply
    case Reply(Some(d)) =>
      if d.JObj? || d.JArr? then
        Some(Loaded(AsArray(Prop(d, "plans")), AsArray(Prop(d, "projects")),
                    AsArray(Prop(d, "tasks")), AsArray(Prop(d, "records"))))
      else FromLocal(stored)
    case _ => FromLocal(stored)
  }

  /** What a local save writes is what a local load installs. */
  lemma LocalRoundTrip(plans: seq<Json>, projects: seq<Json>, tasks: seq<Json>, records: seq<Json>)
    ensures FromLocal(Item(CollectionsDoc(plans, projects, tasks, records))) == Some(Loaded(plans, projects, tasks, records))
  {
  }

  /** `exportData`'s document: the four collections plus a timestamp and the format version. */
  function ExportDoc(plans: seq<Json>, projects: seq<Json>, tasks: seq<Json>, records: seq<Json>, now: string): (d: Json)
    ensures HasAllCollections(d)
    ensures AsArray(Prop(d, "plans")) == plans && AsArray(Prop(d, "projects")) == projects
    ensures AsArray(Prop(d, "tasks")) == tasks && AsArray(Prop(d, "records")) == records
    ensures KeyIs(d, "version", "1.0.0") && KeyIs(d, "timestamp", now)
  {
    JObj(Fields(CollectionsDoc(plans, projects, tasks, records))["timestamp" := JStr(now)]["version" := JStr("1.0.0")])
  }

  class ServerDataManager {
    var plans: seq<Json>
    var projects: seq<Json>
    var tasks: seq<Json>
    var records: seq<Json>
    /** The browser's `projectManagerData` item, the store's fallback medium. */
    var storage: StorageItem

    constructor (stored: StorageItem)
      ensures plans == [] && projects == [] && tasks == [] && records == [] && storage == stored
    {
      plans, projects, tasks, records := [], [], [], [];
      storage := stored;
    }

    /** The document every save writes. */
    function Snapshot(): Json
      reads this
    {
      CollectionsDoc(plans, projects, tasks, records)
    }

    /** `saveToLocalStorage`: false when `setItem` throws (quota). */
    method SaveToLocalStorage(quotaOk: bool) returns (ok: bool)
      modifies this`storage
      ensures ok == quotaOk
      ensures storage == if quotaOk then Item(Snapshot()) else old(storage)
    {
      ok := quotaOk;
      if quotaOk {
        storage := Item(Snapshot());
      }
    }

    /** `saveToServer`: the size guard, the POST, and the local fallback in the catch. */
    method SaveToServer(env: SaveEnv) returns (ok: bool)
      modifies this`storage
      ensures ok == Saved(env)
      ensures storage == StorageAfter(env, Snapshot(), old(storage))
    {
      var route := RouteOf(env);
      match route {
        case Remote(accepted) =>
          ok := accepted;
        case Fallback =>
          ok := SaveToLocalStorage(env.quotaOk);
      }
    }

    /** `loadFromLocalStorage`. */
    method LoadFromLocalStorage() returns (ok: bool)
      modifies this`plans, this`projects, this`tasks, this`records
      ensures ok == FromLocal(storage).Some?
      ensures ok ==> Loaded(plans, projects, tasks, records) == FromLocal(storage).value
      ensures !ok ==> plans == old(plans) && projects == old(projects) && tasks == old(tasks) && records == old(records)
    {
      ok := false;
      match storage {
        case Item(d) =>
          if d != JNull {
            plans := AsArray(Prop(d, "plans"));
            projects := AsArray(Prop(d, "projects"));
            tasks := AsArray(Prop(d, "tasks"));
            records := AsArray(Prop(d, "records"));
            ok := true;
          }
        case _ =>
      }
    }

    /** `loadFromServer`: array fields of an object reply, else the local-storage load. */
    method LoadFromServer(reply: FetchOutcome) returns (ok: bool)
      modifies this`plans, this`projects, this`tasks, this`records
      ensures ok == FromServer(reply, storage).Some?
      ensures ok ==> Loaded(plans, projects, tasks, records) == FromServer(reply, storage).value
      ensures !ok ==> plans == old(plans) && projects == old(projects) && tasks == old(tasks) && records == old(records)
    {
      if reply.Reply? && reply.body.Some? && (reply.body.value.JObj? || reply.body.value.JArr?) {
        var d := reply.body.value;
        plans := AsArray(Prop(d, "plans"));
        projects := AsArray(Prop(d, "projects"));
        tasks := AsArray(Prop(d, "tasks"));
        records := AsArray(Prop(d, "records"));
        ok := true;
      } else {
        ok := LoadFromLocalStorage();
      }
    }

    method AddPlan(plan: map<string, Json>, id: string, now: string, env: SaveEnv) returns (ok: bool)
      modifies this`plans, this`storage
      ensures plans == old(plans) + [Stamp(plan, id, "createdAt", now)]
      ensures ok == Saved(env) && storage == StorageAfter(env, Snapshot(), old(storage))
    {
      plans := plans + [Stamp(plan, id, "createdAt", now)];
      ok := SaveToServer(env);
    }

    method AddProject(project: map<string, Json>, id: string, now: string, env: SaveEnv) returns (ok: bool)
      modifies this`projects, this`storage
      ensures projects == old(projects) + [Stamp(project, id, "createdAt", now)]
      ensures ok == Saved(env) && storage == StorageAfter(env, Snapshot(), old(storage))
    {
      projects := projects + [Stamp(project, id, "createdAt", now)];
      ok := SaveToServer(env);
    }

    method AddTask(task: map<string, Json>, id: string, now: string, env: SaveEnv) returns (ok: bool)
      modifies this`tasks, this`storage
      ensures tasks == old(tasks) + [Stamp(task, id, "createdAt", now)]
      ensures ok == Saved(env) && storage == StorageAfter(env, Snapshot(), old(storage))
    {
      tasks := tasks + [Stamp(task, id, "createdAt", now)];
      ok := SaveToServer(env);
    }

    /** `addRecord`: the record's own id is overwritten by a fresh one. */
    method AddRecord(record: map<string, Json>, id: string, now: string, env: SaveEnv) returns (ok: bool)
      modifies this`records, this`storage
      ensures records == old(records) + [Stamp(record, id, "uploadDate", now)]
      ensures ok == Saved(env) && storage == StorageAfter(env, Snapshot(), old(storage))
    {
      records := records + [Stamp(record, id, "uploadDate", now)];
      ok := SaveToServer(env);
    }

    method UpdatePlan(planId: string, data: map<string, Json>, env: SaveEnv) returns (ok: bool)
      modifies this`plans, this`storage
      ensures plans == MergeById(old(plans), planId, data)
      ensures FindIndex(old(plans), "id", Some(JStr(planId))) == -1 ==> !ok && storage == old(storage)
      ensures FindIndex(old(plans), "id", Some(JStr(planId))) >= 0 ==>
        ok == Saved(env) && storage == StorageAfter(env, Snapshot(), old(storage))
    {
      var i := FindIndex(plans, "id", Some(JStr(planId)));
      if i != -1 {
        plans := plans[i := Spread(plans[i], data)];
        ok := SaveToServer(env);
      } else {
        ok := false;
      }
    }

    method UpdateProject(projectId: string, data: map<string, Json>, env: SaveEnv) returns (ok: bool)
      modifies this`projects, this`storage
      ensures projects == MergeById(old(projects), projectId, data)
      ensures FindIndex(old(projects), "id", Some(JStr(projectId))) == -1 ==> !ok && storage == old(storage)
      ensures FindIndex(old(projects), "id", Some(JStr(projectId))) >= 0 ==>
        ok == Saved(env) && storage == StorageAfter(env, Snapshot(), old(storage))
    {
      var i := FindIndex(projects, "id", Some(JStr(projectId)));
      if i != -1 {
        projects := projects[i := Spread(projects[i], data)];
        ok := SaveToServer(env);
      } else {
        ok := false;
      }
    }

    method UpdateTask(taskId: string, data: map<string, Json>, env: SaveEnv) returns (ok: bool)
      modifies this`tasks, this`storage
      ensures tasks == MergeById(old(tasks), taskId, data)
      ensures FindIndex(old(tasks), "id", Some(JStr(taskId))) == -1 ==> !ok && storage == old(storage)
      ensures FindIndex(old(tasks), "id", Some(JStr(taskId))) >= 0 ==>
        ok == Saved(env) && storage == StorageAfter(env, Snapshot(), old(storage))
    {
      var i := FindIndex(tasks, "id", Some(JStr(taskId)));
      if i != -1 {
        tasks := tasks[i := Spread(tasks[i], data)];
        ok := SaveToServer(env);
      } else {
        ok := false;
      }
    }

    /** `deletePlan`: removes the first plan with the id and unlinks the projects that referenced it. */
    method DeletePlan(planId: string, env: SaveEnv) returns (ok: bool)
      modifies this`plans, this`projects, this`storage
      ensures var i := FindIndex(old(plans), "id", Some(JStr(planId)));
        if i == -1 then
          !ok && plans == old(plans) && projects == old(projects) && storage == old(storage)
        else
          plans == RemoveAt(old(plans), i)
          && |projects| == |old(projects)|
          && (forall j :: 0 <= j < |projects| ==> projects[j] == Unlinked(old(projects)[j], planId))
          && ok == Saved(env) && storage == StorageAfter(env, Snapshot(), old(storage))
    {
      var i := FindIndex(plans, "id", Some(JStr(planId)));
      if i == -1 {
        return false;
      }
      plans := RemoveAt(plans, i);
      var k := 0;
      while k < |projects|
        invariant 0 <= k <= |projects| == |old(projects)|
        invariant forall j :: 0 <= j < k ==> projects[j] == Unlinked(old(projects)[j], planId)
        invariant forall j :: k <= j < |projects| ==> projects[j] == old(projects)[j]
        invariant plans == RemoveAt(old(plans), i) && storage == old(storage)
      {
        projects := projects[k := Unlinked(projects[k], planId)];
        k := k + 1;
      }
      ok := SaveToServer(env);
    }

    /** `deleteProject`: drops every task of the project, then the first project with the id. */
    method DeleteProject(projectId: string, env: SaveEnv) returns (ok: bool)
      modifies this`projects, this`tasks, this`storage
      ensures var i := FindIndex(old(projects), "id", Some(JStr(projectId)));
        if i == -1 then
          !ok && projects == old(projects) && tasks == old(tasks) && storage == old(storage)
        else
          projects == RemoveAt(old(projects), i)
          && tasks == Filter(old(tasks), (t: Json) => !KeyIs(t, "projectId", projectId))
          && ok == Saved(env) && storage == StorageAfter(env, Snapshot(), old(storage))
    {
      var i := FindIndex(projects, "id", Some(JStr(projectId)));
      if i == -1 {
        return false;
      }
      tasks := Filter(tasks, (t: Json) => !KeyIs(t, "projectId", projectId));
      projects := RemoveAt(projects, i);
      ok := SaveToServer(env);
    }

    method DeleteTask(taskId: string, env: SaveEnv) returns (ok: bool)
      modifies this`tasks, this`storage
      ensures var i := FindIndex(old(tasks), "id", Some(JStr(taskId)));
        if i == -1 then !ok && tasks == old(tasks) && storage == old(storage)
        else tasks == RemoveAt(old(tasks), i) && ok == Saved(env) && storage == StorageAfter(env, Snapshot(), old(storage))
    {
      var i := FindIndex(tasks, "id", Some(JStr(taskId)));
      if i == -1 {
        return false;
      }
      tasks := RemoveAt(tasks, i);
      ok := SaveToServer(env);
    }

    /** `deleteRecord`: splices the record out, and back in at the same index when the save fails. */
    method DeleteRecord(recordId: string, env: SaveEnv) returns (ok: bool)
      modifies this`records, this`storage
      ensures var i := FindIndex(old(records), "id", Some(JStr(recordId)));
        if i == -1 then !ok && records == old(records) && storage == old(storage)
        else
          ok == Saved(env)
          && records == (if ok then RemoveAt(old(records), i) else old(records))
          && storage == StorageAfter(env, CollectionsDoc(plans, projects, tasks, RemoveAt(old(records), i)), old(storage))
    {
      var i := FindIndex(records, "id", Some(JStr(recordId)));
      if i == -1 {
        return false;
      }
      var deleted := records[i];
      records := RemoveAt(records, i);
      ok := SaveToServer(env);
      if !ok {
        InsertRemoved(old(records), i);
        records := InsertAt(records, i, deleted);
      }
    }

    /** `importData`: `parsed` is `None` when reading or `JSON.parse` threw. */
    method ImportData(parsed: Option<Json>, env: SaveEnv) returns (ok: bool)
      modifies this`plans, this`projects, this`tasks, this`records, this`storage
      ensures !(parsed.Some? && HasAllCollections(parsed.value)) ==>
        !ok && plans == old(plans) && projects == old(projects) && tasks == old(tasks)
        && records == old(records) && storage == old(storage)
      ensures parsed.Some? && HasAllCollections(parsed.value) ==>
        var d := parsed.value;
        plans == AsArray(Prop(d, "plans")) && projects == AsArray(Prop(d, "projects"))
        && tasks == AsArray(Prop(d, "tasks")) && records == AsArray(Prop(d, "records"))
        && ok == Saved(env) && storage == StorageAfter(env, Snapshot(), old(storage))
    {
      ok := false;
      if parsed.Some? && HasAllCollections(parsed.value) {
        var d := parsed.value;
        plans := AsArray(Prop(d, "plans"));
        projects := AsArray(Prop(d, "projects"));
        tasks := AsArray(Prop(d, "tasks"));
        records := AsArray(Prop(d, "records"));
        ok := SaveToServer(env);
      }
    }
  }

  // ------------------------------------------------------- page-level loader

  const DefaultNameA: string := "3天一阶段制工作记录表20251005.pdf"
  const DefaultNameB: string := "创意基础与前沿方向20251005.pdf"

  /** The two stock PDF records `addDefaultRecords` offers, in order. */
  function DefaultFiles(now: string): (fs: seq<map<string, Json>>)
    ensures |fs| == 2 && "name" in fs[0] && "name" in fs[1]
    ensures fs[0]["name"] == JStr(DefaultNameA) && fs[1]["name"] == JStr(DefaultNameB)
    ensures forall i :: 0 <= i < |fs| ==> "name" in fs[i] && fs[i]["name"].JStr?
  {
    [ map["id" := JStr("default_3days_record_20251005"), "name" := JStr(DefaultNameA),
          "size" := JNum(107109), "type" := JStr("application/pdf"), "uploadDate" := JStr(now),
          "path" := JStr("./store/" + DefaultNameA), "isDefault" := JBool(true)],
      map["id" := JStr("default_creative_direction_20251005"), "name" := JStr(DefaultNameB),
          "size" := JNum(2750350), "type" := JStr("application/pdf"), "uploadDate" := JStr(now),
          "path" := JStr("./store/" + DefaultNameB), "isDefault" := JBool(true)] ]
  }

  /** `r.name === file.name || r.id === file.id`. */
  predicate Clashes(r: Json, file: map<string, Json>)
  {
    StrictEq(Prop(r, "name"), Prop(JObj(file), "name")) || StrictEq(Prop(r, "id"), Prop(JObj(file), "id"))
  }

  predicate Present(rs: seq<Json>, file: map<string, Json>)
  {
    exists j :: 0 <= j < |rs| && Clashes(rs[j], file)
  }

  /** The records and the storage item after `addDefaultRecords` offered `files` in turn. */
  function SeedRun(other: Loaded, rs: seq<Json>, st: StorageItem, files: seq<map<string, Json>>,
                   ids: seq<string>, envs: seq<SaveEnv>, now: string): (r: (seq<Json>, StorageItem))
    requires |ids| == |files| == |envs|
    ensures StartsWithSeq(r.0, rs)
    decreases |files|
  {
    if files == [] then (rs, st)
    else if Present(rs, files[0]) then SeedRun(other, rs, st, files[1..], ids[1..], envs[1..], now)
    else
      var rs' := rs + [Stamp(files[0], ids[0], "uploadDate", now)];
      var st' := StorageAfter(envs[0], CollectionsDoc(other.plans, other.projects, other.tasks, rs'), st);
      SeedRun(other, rs', st', files[1..], ids[1..], envs[1..], now)
  }

  predicate StartsWithSeq(s: seq<Json>, p: seq<Json>)
  {
    |p| <= |s| && s[..|p|] == p
  }

  /** After a seeding run, every offered file with a string name is present by name. */
  lemma {:induction false} SeedRunCovers(other: Loaded, rs: seq<Json>, st: StorageItem, files: seq<map<string, Json>>,
                                         ids: seq<string>, envs: seq<SaveEnv>, now: string)
    requires |ids| == |files| == |envs|
    requires forall i :: 0 <= i < |files| ==> "name" in files[i] && files[i]["name"].JStr?
    ensures forall i :: 0 <= i < |files| ==> Present(SeedRun(other, rs, st, files, ids, envs, now).0, files[i])
    decreases |files|
  {
    if files != [] {
      var rs' := if Present(rs, files[0]) then rs else rs + [Stamp(files[0], ids[0], "uploadDate", now)];
      var st' := if Present(rs, files[0]) then st
                 else StorageAfter(envs[0], CollectionsDoc(other.plans, other.projects, other.tasks, rs'), st);
      assert SeedRun(other, rs, st, files, ids, envs, now) == SeedRun(other, rs', st', files[1..], ids[1..], envs[1..], now);
      if !Present(rs, files[0]) {
        StampedPresent(rs, files[0], ids[0], now);
      }
      SeedRunCovers(other, rs', st', files[1..], ids[1..], envs[1..], now);
      PresentExtends(rs', SeedRun(other, rs', st', files[1..], ids[1..], envs[1..], now).0, files[0]);
      forall i | 1 <= i < |files|
        ensures Present(SeedRun(other, rs', st', files[1..], ids[1..], envs[1..], now).0, files[i])
      {
        assert files[1..][i - 1] == files[i];
      }
    }
  }

  /** A file with a string name, once appended, is present. */
  lemma StampedPresent(rs: seq<Json>, file: map<string, Json>, id: string, now: string)
    requires "name" in file && file["name"].JStr?
    ensures Present(rs + [Stamp(file, id, "uploadDate", now)], file)
  {
    var rs' := rs + [Stamp(file, id, "uploadDate", now)];
    assert Clashes(rs'[|rs|], file);
  }

  /** A record present in `rs` is present in every run output that extends `rs`. */
  lemma PresentExtends(rs: seq<Json>, out: seq<Json>, file: map<string, Json>)
    requires Present(rs, file) && StartsWithSeq(out, rs)
    ensures Present(out, file)
  {
    var j :| 0 <= j < |rs| && Clashes(rs[j], file);
    assert out[j] == out[..|rs|][j];
  }

  /** A run in which every file is already present adds nothing and saves nothing. */
  lemma {:induction false} SeedRunNoop(other: Loaded, rs: seq<Json>, st: StorageItem, files: seq<map<string, Json>>,
                                       ids: seq<string>, envs: seq<SaveEnv>, now: string)
    requires |ids| == |files| == |envs|
    requires forall i :: 0 <= i < |files| ==> Present(rs, files[i])
    ensures SeedRun(other, rs, st, files, ids, envs, now) == (rs, st)
    decreases |files|
  {
    if files != [] {
      SeedRunNoop(other, rs, st, files[1..], ids[1..], envs[1..], now);
    }
  }

  /** Two offers of the same files (differing, say, in their upload dates) clash with the same records. */
  predicate SameOffers(f1: seq<map<string, Json>>, f2: seq<map<string, Json>>)
  {
    |f1| == |f2|
    && forall i :: 0 <= i < |f1| ==>
         Prop(JObj(f1[i]), "name") == Prop(JObj(f2[i]), "name") && Prop(JObj(f1[i]), "id") == Prop(JObj(f2[i]), "id")
  }

  /** Offering files a second time, after a run that offered the same names, changes nothing. */
  lemma SeedTwice(other: Loaded, rs: seq<Json>, st: StorageItem, f1: seq<map<string, Json>>, f2: seq<map<string, Json>>,
                  ids1: seq<string>, ids2: seq<string>, envs1: seq<SaveEnv>, envs2: seq<SaveEnv>, now1: string, now2: string)
    requires |ids1| == |f1| == |envs1| && |ids2| == |f2| == |envs2|
    requires SameOffers(f1, f2)
    requires forall i :: 0 <= i < |f1| ==> "name" in f1[i] && f1[i]["name"].JStr?
    ensures var first := SeedRun(other, rs, st, f1, ids1, envs1, now1);
      SeedRun(other, first.0, first.1, f2, ids2, envs2, now2) == first
  {
    var first := SeedRun(other, rs, st, f1, ids1, envs1, now1);
    SeedRunCovers(other, rs, st, f1, ids1, envs1, now1);
    forall i | 0 <= i < |f2| ensures Present(first.0, f2[i]) {
      var j :| 0 <= j < |first.0| && Clashes(first.0[j], f1[i]);
      assert Clashes(first.0[j], f2[i]);
    }
    SeedRunNoop(other, first.0, first.1, f2, ids2, envs2, now2);
  }

  /** The defaults offered at two different times are the same offers, so a second page load seeds nothing. */
  lemma DefaultOffersAgree(now1: string, now2: string)
    ensures SameOffers(DefaultFiles(now1), DefaultFiles(now2))
  {
  }

  /** `addDefaultRecords`: offers each default in turn; `ids` and `envs` are the oracles of the two `addRecord` calls. */
  method AddDefaultRecords(dm: ServerDataManager, ids: seq<string>, now: string, envs: seq<SaveEnv>)
    requires |ids| == 2 && |envs| == 2
    modifies dm`records, dm`storage
    ensures (dm.records, dm.storage) ==
      SeedRun(Loaded(dm.plans, dm.projects, dm.tasks, []), old(dm.records), old(dm.storage), DefaultFiles(now), ids, envs, now)
  {
    var files := DefaultFiles(now);
    var other := Loaded(dm.plans, dm.projects, dm.tasks, []);
    var i := 0;
    while i < |files|
      invariant 0 <= i <= |files|
      invariant SeedRun(other, dm.records, dm.storage, files[i..], ids[i..], envs[i..], now)
             == SeedRun(other, old(dm.records), old(dm.storage), files, ids, envs, now)
      invariant dm.plans == other.plans && dm.projects == other.projects && dm.tasks == other.tasks
    {
      if !Present(dm.records, files[i]) {
        var saved := dm.AddRecord(files[i], ids[i], now, envs[i]);   // only logged
      }
      assert files[i..][1..] == files[i + 1..] && ids[i..][1..] == ids[i + 1..] && envs[i..][1..] == envs[i + 1..];
      i := i + 1;
    }
  }

  /**
   * The page's `loadFromLocalStorage`: load from the server, and seed the default
   * records when the loaded records are empty.
   */
  method LoadPage(dm: ServerDataManager, reply: FetchOutcome, ids: seq<string>, now: string, envs: seq<SaveEnv>)
    returns (ok: bool)
    requires |ids| == 2 && |envs| == 2
    modifies dm`plans, dm`projects, dm`tasks, dm`records, dm`storage
    ensures ok == FromServer(reply, old(dm.storage)).Some?
    ensures !ok ==> (dm.plans == old(dm.plans) && dm.projects == old(dm.projects) && dm.tasks == old(dm.tasks)
                     && dm.records == old(dm.records) && dm.storage == old(dm.storage))
    ensures ok ==>
      var l := FromServer(reply, old(dm.storage)).value;
      dm.plans == l.plans && dm.projects == l.projects && dm.tasks == l.tasks
      && (l.records != [] ==> dm.records == l.records && dm.storage == old(dm.storage))
      && (l.records == [] ==>
            (dm.records, dm.storage) == SeedRun(l, [], old(dm.storage), DefaultFiles(now), ids, envs, now))
  {
    ok := dm.LoadFromServer(reply);
    if ok && |dm.records| == 0 {
      AddDefaultRecords(dm, ids, now, envs);
    }
  }
}
