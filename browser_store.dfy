/**
 * The browser-only variant of the store (script.js): the global arrays
 * `plans`, `projects`, `tasks` and `records`, the items the modals are
 * editing or viewing, and the `projectManagerData` local-storage item.
 * Its rules differ from the server-backed variant: deleting a plan removes
 * every plan with that id and only clears `planId`; deleting a project leaves
 * its tasks alone.
 *
 * Oracles are parameters: `quotaOk` says whether `localStorage.setItem`
 * succeeds (when it throws, the handler stops there), `id` is the next
 * `generateId()` and `now` the ISO time of the operation.
 */
module BrowserStore {
  import opened Js

  // ------------------------------------------------------------ form data

  /** The fields the plan form submits. */
  datatype PlanInput = PlanInput(name: string, description: string, category: string, status: string,
                                 startDate: string, endDate: string, image: Json)
  {
    function Fields(): (m: map<string, Json>)
      ensures "id" !in m && "createdAt" !in m
      ensures m.Keys == {"name", "description", "category", "status", "startDate", "endDate", "image"}
    {
      map["name" := JStr(name), "description" := JStr(description), "category" := JStr(category),
          "status" := JStr(status), "startDate" := JStr(startDate), "endDate" := JStr(endDate),
          "image" := image]
    }
  }

  /** The fields the project form submits. */
  datatype ProjectInput = ProjectInput(name: string, planId: string, description: string, category: string,
                                       status: string, priority: string, deadline: string, image: Json)
  {
    function Fields(): (m: map<string, Json>)
      ensures "id" !in m && "createdAt" !in m
      ensures m.Keys == {"name", "planId", "description", "category", "status", "priority", "deadline", "image"}
    {
      map["name" := JStr(name), "planId" := JStr(planId), "description" := JStr(description),
          "category" := JStr(category), "status" := JStr(status), "priority" := JStr(priority),
          "deadline" := JStr(deadline), "image" := image]
    }
  }

  /**
   * The fields a task's form submits; `projectId` comes from the project
   * being viewed. A viewed project without an `id` would make the source
   * spread `projectId: undefined` over an edited task, where this keeps the
   * old one; the page only views projects it found by their string `id`,
   * so that case does not arise.
   */
  datatype TaskInput = TaskInput(name: string, description: string, status: string, priority: string)
  {
    function Fields(viewing: Json): (m: map<string, Json>)
      ensures "id" !in m && "createdAt" !in m
      ensures "projectId" in m <==> Prop(viewing, "id").Some?
      ensures "projectId" in m ==> Some(m["projectId"]) == Prop(viewing, "id")
    {
      var base := map["name" := JStr(name), "description" := JStr(description),
                      "status" := JStr(status), "priority" := JStr(priority)];
      match Prop(viewing, "id")
      case Some(v) => base["projectId" := v]
      case None => base
    }
  }

  // -------------------------------------------------- merge-or-append rule

  /** `{ id: generateId(), ...form, createdAt: now }`. */
  function Created(form: map<string, Json>, id: string, now: string): (r: Json)
    ensures KeyIs(r, "createdAt", now)
    ensures "id" !in form ==> KeyIs(r, "id", id)
    ensures forall k :: k in form && k != "createdAt" ==> Prop(r, k) == Some(form[k])
    ensures forall k :: k !in form && k != "id" && k != "createdAt" ==> Prop(r, k).None?
  {
    JObj(map["id" := JStr(id)] + form + map["createdAt" := JStr(now)])
  }

  /**
   * What a submit handler does to its array: with an item being edited, the
   * first element with the same `id` becomes `{...editing, ...form}` (an
   * assignment to index -1 touches no element); otherwise one new element is
   * appended.
   */
  function Submitted(a: seq<Json>, editing: Option<Json>, form: map<string, Json>, id: string, now: string): (r: seq<Json>)
    ensures editing.None? ==> |r| == |a| + 1 && r[..|a|] == a && r[|a|] == Created(form, id, now)
    ensures editing.Some? ==> |r| == |a|
    ensures editing.Some? && (forall j :: 0 <= j < |a| ==> !Matches(a[j], "id", Prop(editing.value, "id"))) ==> r == a
    ensures editing.Some? && FindIndex(a, "id", Prop(editing.value, "id")) >= 0 ==>
      (var i := FindIndex(a, "id", Prop(editing.value, "id"));
       (forall j :: 0 <= j < |a| && j != i ==> r[j] == a[j])
       && (forall k :: k in form ==> Prop(r[i], k) == Some(form[k]))
       && (forall k :: k !in form ==> Prop(r[i], k) == Prop(editing.value, k)))
  {
    match editing
    case None => a + [Created(form, id, now)]
    case Some(e) =>
      var i := FindIndex(a, "id", Prop(e, "id"));
      if i == -1 then a else a[i := Spread(e, form)]
  }

  /** An edit keeps the `id` of the element it replaces, and the `createdAt` of the item edited. */
  lemma EditKeepsIdentity(a: seq<Json>, e: Json, form: map<string, Json>, id: string, now: string)
    requires "id" !in form && "createdAt" !in form
    requires FindIndex(a, "id", Prop(e, "id")) >= 0
    ensures var i := FindIndex(a, "id", Prop(e, "id"));
            var r := Submitted(a, Some(e), form, id, now);
            Prop(r[i], "id") == Prop(a[i], "id") && Prop(r[i], "createdAt") == Prop(e, "createdAt")
  {
    var i := FindIndex(a, "id", Prop(e, "id"));
    assert StrictEq(Prop(a[i], "id"), Prop(e, "id"));
  }

  // ----------------------------------------------------------- plan delete

  /** `if (project.planId === planId) project.planId = ''`. */
  function Cleared(p: Json, planId: string): (r: Json)
    ensures KeyIs(p, "planId", planId) ==> KeyIs(r, "planId", "")
    ensures !KeyIs(p, "planId", planId) ==> r == p
    ensures forall k :: k != "planId" ==> Prop(r, k) == Prop(p, k)
  {
    if KeyIs(p, "planId", planId) then SetProp(p, "planId", JStr("")) else p
  }

  /** Unlike the server-backed store, a cleared project keeps a `planning` status. */
  lemma ClearedKeepsStatus(p: Json, planId: string)
    requires KeyIs(p, "planId", planId) && KeyIs(p, "status", "planning")
    ensures KeyIs(Cleared(p, planId), "status", "planning")
    ensures KeyIs(Cleared(p, planId), "planId", "")
  {
  }

  // ----------------------------------------------------------- task status

  const StatusCycle: seq<string> := ["pending", "in-progress", "completed", "blocked"]

  /** `statusCycle.indexOf(status)`. */
  function CycleIndex(v: Option<Json>): (i: int)
    ensures -1 <= i < |StatusCycle|
    ensures i >= 0 ==> v == Some(JStr(StatusCycle[i]))
    ensures i == -1 <==> forall j :: 0 <= j < |StatusCycle| ==> v != Some(JStr(StatusCycle[j]))
  {
    if v == Some(JStr("pending")) then 0
    else if v == Some(JStr("in-progress")) then 1
    else if v == Some(JStr("completed")) then 2
    else if v == Some(JStr("blocked")) then 3
    else -1
  }

  /** `statusCycle[(currentIndex + 1) % statusCycle.length]`. */
  function NextStatus(v: Option<Json>): (r: string)
    ensures r in StatusCycle
  {
    StatusCycle[(CycleIndex(v) + 1) % |StatusCycle|]
  }

  /** The cycle is pending → in-progress → completed → blocked → pending; anything else becomes pending. */
  lemma NextStatusSteps(v: Option<Json>)
    ensures v == Some(JStr("pending")) ==> NextStatus(v) == "in-progress"
    ensures v == Some(JStr("in-progress")) ==> NextStatus(v) == "completed"
    ensures v == Some(JStr("completed")) ==> NextStatus(v) == "blocked"
    ensures v == Some(JStr("blocked")) ==> NextStatus(v) == "pending"
    ensures (forall j :: 0 <= j < |StatusCycle| ==> v != Some(JStr(StatusCycle[j]))) ==> NextStatus(v) == "pending"
  {
  }

  /** Four steps from any listed status come back to it. */
  lemma CycleOfFour(i: nat)
    requires i < |StatusCycle|
    ensures var s1 := NextStatus(Some(JStr(StatusCycle[i])));
            var s2 := NextStatus(Some(JStr(s1)));
            var s3 := NextStatus(Some(JStr(s2)));
            NextStatus(Some(JStr(s3))) == StatusCycle[i]
  {
    var p, g, c, b := Some(JStr("pending")), Some(JStr("in-progress")), Some(JStr("completed")), Some(JStr("blocked"));
    NextStatusSteps(p);
    NextStatusSteps(g);
    NextStatusSteps(c);
    NextStatusSteps(b);
  }

  // ------------------------------------------------------- existing records

  const ExistingNameA: string := "3天一阶段制工作记录表20251005.pdf"
  const ExistingNameB: string := "创意基础与前沿方向20251005.pdf"

  /** One of the two PDF records `addExistingRecords` offers. */
  function ExistingFile(id: string, name: string, size: int, now: string): (f: Json)
    ensures KeyIs(f, "name", name)
  {
    JObj(map["id" := JStr(id), "name" := JStr(name), "size" := JNum(size), "type" := JStr("application/pdf"),
             "uploadDate" := JStr(now), "path" := JStr("./store/" + name)])
  }

  function ExistingFiles(ids: seq<string>, now: string): (fs: seq<Json>)
    requires |ids| == 2
    ensures |fs| == 2 && KeyIs(fs[0], "name", ExistingNameA) && KeyIs(fs[1], "name", ExistingNameB)
  {
    [ExistingFile(ids[0], ExistingNameA, 107109, now), ExistingFile(ids[1], ExistingNameB, 2750350, now)]
  }

  /** `records.find(r => r.name === file.name)` finds something. */
  predicate NameTaken(rs: seq<Json>, f: Json)
  {
    exists j :: 0 <= j < |rs| && Matches(rs[j], "name", Prop(f, "name"))
  }

  /** `files.forEach(f => { if (!records.find(...)) records.push(f) })`. */
  function AppendMissing(rs: seq<Json>, fs: seq<Json>): (r: seq<Json>)
    ensures |rs| <= |r| <= |rs| + |fs| && r[..|rs|] == rs
    ensures forall j :: |rs| <= j < |r| ==> r[j] in fs
    decreases |fs|
  {
    if fs == [] then rs
    else if NameTaken(rs, fs[0]) then AppendMissing(rs, fs[1..])
    else AppendMissing(rs + [fs[0]], fs[1..])
  }

  lemma NameTakenGrows(rs: seq<Json>, more: seq<Json>, f: Json)
    requires NameTaken(rs, f)
    ensures NameTaken(rs + more, f)
  {
    var j :| 0 <= j < |rs| && Matches(rs[j], "name", Prop(f, "name"));
    assert (rs + more)[j] == rs[j];
  }

  /** After `AppendMissing`, every offered name is taken. */
  lemma {:induction false} AppendMissingCovers(rs: seq<Json>, fs: seq<Json>)
    requires forall i :: 0 <= i < |fs| ==> Prop(fs[i], "name").Some? && Prop(fs[i], "name").value.JStr?
    ensures forall i :: 0 <= i < |fs| ==> NameTaken(AppendMissing(rs, fs), fs[i])
    decreases |fs|
  {
    if fs != [] {
      var r := AppendMissing(rs, fs);
      var next := if NameTaken(rs, fs[0]) then rs else rs + [fs[0]];
      assert r == AppendMissing(next, fs[1..]);
      AppendMissingCovers(next, fs[1..]);
      assert NameTaken(next, fs[0]) by {
        if !NameTaken(rs, fs[0]) {
          assert next[|rs|] == fs[0];
        }
      }
      assert r == next + r[|next|..];
      NameTakenGrows(next, r[|next|..], fs[0]);
      forall i | 1 <= i < |fs| ensures NameTaken(r, fs[i]) {
        assert fs[i] == fs[1..][i - 1];
      }
    }
  }

  lemma {:induction false} AppendMissingNoop(rs: seq<Json>, fs: seq<Json>)
    requires forall i :: 0 <= i < |fs| ==> NameTaken(rs, fs[i])
    ensures AppendMissing(rs, fs) == rs
    decreases |fs|
  {
    if fs != [] {
      AppendMissingNoop(rs, fs[1..]);
    }
  }

  /** Running `addExistingRecords` a second time (with fresh ids and time) adds nothing. */
  lemma ExistingTwice(rs: seq<Json>, ids1: seq<string>, ids2: seq<string>, now1: string, now2: string)
    requires |ids1| == 2 && |ids2| == 2
    ensures var once := AppendMissing(rs, ExistingFiles(ids1, now1));
            AppendMissing(once, ExistingFiles(ids2, now2)) == once
  {
    var f1 := ExistingFiles(ids1, now1);
    var f2 := ExistingFiles(ids2, now2);
    AppendMissingCovers(rs, f1);
    var once := AppendMissing(rs, f1);
    forall i | 0 <= i < 2 ensures NameTaken(once, f2[i]) {
      assert Prop(f2[i], "name") == Prop(f1[i], "name");
    }
    AppendMissingNoop(once, f2);
  }

  // ---------------------------------------------------------------- export

  const ExportKeys: set<string> := {"id", "name", "size", "type", "uploadDate"}

  /** `({id, name, size, type, uploadDate})` of a record; an undefined field is not written. */
  function ExportRecord(r: Json): (x: Json)
    ensures x.JObj?
    ensures forall k :: Prop(x, k) == (if k in ExportKeys then Prop(r, k) else None)
  {
    JObj(map k | k in ExportKeys && Prop(r, k).Some? :: Prop(r, k).value)
  }

  /** `records.map(...)`: one projection per record, in order. */
  function ExportRecords(rs: seq<Json>): (xs: seq<Json>)
    ensures |xs| == |rs|
    ensures forall i :: 0 <= i < |rs| ==> xs[i] == ExportRecord(rs[i])
  {
    seq(|rs|, i requires 0 <= i < |rs| => ExportRecord(rs[i]))
  }

  /** The `exportData` document. */
  function ExportDoc(plans: seq<Json>, projects: seq<Json>, tasks: seq<Json>, records: seq<Json>, now: string): (d: Json)
    ensures HasAllCollections(d)
    ensures AsArray(Prop(d, "plans")) == plans && AsArray(Prop(d, "projects")) == projects
    ensures AsArray(Prop(d, "tasks")) == tasks && AsArray(Prop(d, "records")) == ExportRecords(records)
    ensures KeyIs(d, "exportDate", now)
  {
    JObj(map["plans" := JArr(plans), "projects" := JArr(projects), "tasks" := JArr(tasks),
             "records" := JArr(ExportRecords(records)), "exportDate" := JStr(now)])
  }

  /** `plans.length > 0 || projects.length > 0`: a restore then needs confirmation. */
  predicate NeedsConfirm(plans: seq<Json>, projects: seq<Json>)
  {
    |plans| > 0 || |projects| > 0
  }

  // ----------------------------------------------------------- sample data

  /** The sample plan. */
  function SamplePlan(id: string, now: string): (p: Json)
    ensures KeyIs(p, "id", id)
  {
    JObj(map["id" := JStr(id), "name" := JStr("前端技能提升计划"),
             "description" := JStr("系统学习现代前端开发技术栈，提升个人技术能力"),
             "category" := JStr("skill"), "status" := JStr("active"),
             "startDate" := JStr("2024-01-01"), "endDate" := JStr("2024-12-31"),
             "createdAt" := JStr(now)])
  }

  /** A sample project of the plan `planId`. */
  function SampleProject(id: string, planId: string, name: string, description: string, category: string,
                         priority: string, deadline: string, created: string): (p: Json)
    ensures KeyIs(p, "id", id) && KeyIs(p, "planId", planId)
  {
    JObj(map["id" := JStr(id), "planId" := JStr(planId), "name" := JStr(name),
             "description" := JStr(description), "category" := JStr(category), "status" := JStr("active"),
             "priority" := JStr(priority), "deadline" := JStr(deadline), "createdAt" := JStr(created)])
  }

  /** A sample task of the project `projectId`. */
  function SampleTask(id: string, projectId: string, name: string, description: string, status: string,
                      priority: string, now: string): (t: Json)
    ensures KeyIs(t, "id", id) && KeyIs(t, "projectId", projectId)
  {
    JObj(map["id" := JStr(id), "projectId" := JStr(projectId), "name" := JStr(name),
             "description" := JStr(description), "status" := JStr(status), "priority" := JStr(priority),
             "createdAt" := JStr(now)])
  }

  /** The sample collections a first visit starts with; `ids` are the five generated ids, in creation order. */
  function SampleData(ids: seq<string>, now: string, yesterday: string): (r: (seq<Json>, seq<Json>, seq<Json>))
    requires |ids| == 5
    ensures |r.0| == 1 && |r.1| == 2 && |r.2| == 2
    ensures KeyIs(r.0[0], "id", ids[0]) && KeyIs(r.1[0], "id", ids[1]) && KeyIs(r.1[1], "id", ids[2])
    ensures forall j :: 0 <= j < |r.1| ==> KeyIs(r.1[j], "planId", ids[0])
    ensures forall j :: 0 <= j < |r.2| ==> KeyIs(r.2[j], "projectId", ids[1])
  {
    var plan := SamplePlan(ids[0], now);
    var p1 := SampleProject(ids[1], ids[0], "个人网站重构", "使用现代前端框架重构个人网站，提升用户体验和性能",
                            "personal", "high", "2024-12-31", now);
    var p2 := SampleProject(ids[2], ids[0], "学习React框架", "深入学习React生态系统，包括Hooks、Redux等",
                            "study", "medium", "2024-11-30", yesterday);
    var t1 := SampleTask(ids[3], ids[1], "设计页面原型", "使用Figma设计新版本的页面原型", "completed", "high", now);
    var t2 := SampleTask(ids[4], ids[1], "实现响应式布局", "确保网站在各种设备上都能正常显示", "in-progress", "medium", now);
    ([plan], [p1, p2], [t1, t2])
  }

  /** In the sample data every project names an existing plan and every task an existing project. */
  lemma SampleLinked(ids: seq<string>, now: string, yesterday: string)
    requires |ids| == 5
    ensures var r := SampleData(ids, now, yesterday);
            (forall j :: 0 <= j < |r.1| ==> exists i :: 0 <= i < |r.0| && Prop(r.1[j], "planId") == Prop(r.0[i], "id"))
            && (forall j :: 0 <= j < |r.2| ==> exists i :: 0 <= i < |r.1| && Prop(r.2[j], "projectId") == Prop(r.1[i], "id"))
  {
    var r := SampleData(ids, now, yesterday);
    forall j | 0 <= j < |r.1| ensures exists i :: 0 <= i < |r.0| && Prop(r.1[j], "planId") == Prop(r.0[i], "id") {
      assert Prop(r.1[j], "planId") == Prop(r.0[0], "id");
    }
    forall j | 0 <= j < |r.2| ensures exists i :: 0 <= i < |r.1| && Prop(r.2[j], "projectId") == Prop(r.1[i], "id") {
      assert Prop(r.2[j], "projectId") == Prop(r.1[0], "id");
    }
  }

  // ------------------------------------------------------------ the globals

  class BrowserApp {
    var plans: seq<Json>
    var projects: seq<Json>
    var tasks: seq<Json>
    var records: seq<Json>
    var editingPlan: Option<Json>
    var editingProject: Option<Json>
    var editingTask: Option<Json>
    var viewingProject: Option<Json>
    var storage: StorageItem

    constructor (stored: StorageItem)
      ensures plans == [] && projects == [] && tasks == [] && records == []
      ensures editingPlan.None? && editingProject.None? && editingTask.None? && viewingProject.None?
      ensures storage == stored
    {
      plans, projects, tasks, records := [], [], [], [];
      editingPlan, editingProject, editingTask, viewingProject := None, None, None, None;
      storage := stored;
    }

    function Snapshot(): Json
      reads this
    {
      CollectionsDoc(plans, projects, tasks, records)
    }

    /** `saveToLocalStorage()`: `saved` is false when `setItem` throws, and the item is then unchanged. */
    method SaveToLocalStorage(quotaOk: bool) returns (saved: bool)
      modifies this`storage
      ensures saved == quotaOk
      ensures storage == if quotaOk then Item(Snapshot()) else old(storage)
    {
      saved := quotaOk;
      if quotaOk {
        storage := Item(Snapshot());
      }
    }

    /** `handlePlanSubmit`; the plan being edited is forgotten only after a successful save. */
    method SubmitPlan(input: PlanInput, id: string, now: string, quotaOk: bool) returns (saved: bool)
      modifies this`plans, this`storage, this`editingPlan
      ensures plans == Submitted(old(plans), old(editingPlan), input.Fields(), id, now)
      ensures saved == quotaOk
      ensures storage == if quotaOk then Item(Snapshot()) else old(storage)
      ensures editingPlan == if quotaOk then None else old(editingPlan)
    {
      plans := Submitted(plans, editingPlan, input.Fields(), id, now);
      saved := SaveToLocalStorage(quotaOk);
      if saved {
        editingPlan := None;
      }
    }

    /** `handleProjectSubmit`. */
    method SubmitProject(input: ProjectInput, id: string, now: string, quotaOk: bool) returns (saved: bool)
      modifies this`projects, this`storage, this`editingProject
      ensures projects == Submitted(old(projects), old(editingProject), input.Fields(), id, now)
      ensures saved == quotaOk
      ensures storage == if quotaOk then Item(Snapshot()) else old(storage)
      ensures editingProject == if quotaOk then None else old(editingProject)
    {
      projects := Submitted(projects, editingProject, input.Fields(), id, now);
      saved := SaveToLocalStorage(quotaOk);
      if saved {
        editingProject := None;
      }
    }

    /** `handleTaskSubmit`: nothing happens unless a project is being viewed. */
    method SubmitTask(input: TaskInput, id: string, now: string, quotaOk: bool) returns (saved: bool)
      modifies this`tasks, this`storage, this`editingTask
      ensures old(viewingProject).None? ==> !saved && tasks == old(tasks) && storage == old(storage)
      ensures old(viewingProject).None? ==> editingTask == old(editingTask)
      ensures old(viewingProject).Some? ==>
        (tasks == Submitted(old(tasks), old(editingTask), input.Fields(viewingProject.value), id, now)
         && saved == quotaOk
         && storage == (if quotaOk then Item(Snapshot()) else old(storage))
         && editingTask == (if quotaOk then None else old(editingTask)))
    {
      if viewingProject.None? {
        return false;
      }
      tasks := Submitted(tasks, editingTask, input.Fields(viewingProject.value), id, now);
      saved := SaveToLocalStorage(quotaOk);
      if saved {
        editingTask := None;
      }
    }

    /**
     * `deletePlan` once confirmed: every plan with the id goes, and the
     * projects that referenced it get an empty `planId` in place.
     */
    method DeletePlan(planId: string, confirmed: bool, quotaOk: bool) returns (saved: bool)
      modifies this`plans, this`projects, this`storage
      ensures !confirmed ==> !saved && plans == old(plans) && projects == old(projects) && storage == old(storage)
      ensures confirmed ==> plans == Filter(old(plans), (p: Json) => !KeyIs(p, "id", planId))
      ensures |projects| == |old(projects)|
      ensures confirmed ==> forall j :: 0 <= j < |projects| ==> projects[j] == Cleared(old(projects)[j], planId)
      ensures confirmed ==> saved == quotaOk && storage == (if quotaOk then Item(Snapshot()) else old(storage))
    {
      if !confirmed {
        return false;
      }
      plans := Filter(plans, (p: Json) => !KeyIs(p, "id", planId));
      var i := 0;
      while i < |projects|
        invariant 0 <= i <= |projects| == |old(projects)|
        invariant forall j :: 0 <= j < i ==> projects[j] == Cleared(old(projects)[j], planId)
        invariant forall j :: i <= j < |projects| ==> projects[j] == old(projects)[j]
        invariant plans == Filter(old(plans), (p: Json) => !KeyIs(p, "id", planId))
        invariant storage == old(storage)
      {
        if KeyIs(projects[i], "planId", planId) {
          projects := projects[i := SetProp(projects[i], "planId", JStr(""))];
        }
        i := i + 1;
      }
      saved := SaveToLocalStorage(quotaOk);
    }

    /** `deleteProject`: no task is removed with its project. */
    method DeleteProject(projectId: string, confirmed: bool, quotaOk: bool) returns (saved: bool)
      modifies this`projects, this`storage
      ensures !confirmed ==> !saved && projects == old(projects) && storage == old(storage)
      ensures confirmed ==> projects == Filter(old(projects), (p: Json) => !KeyIs(p, "id", projectId))
      ensures confirmed ==> saved == quotaOk && storage == (if quotaOk then Item(Snapshot()) else old(storage))
    {
      if !confirmed {
        return false;
      }
      projects := Filter(projects, (p: Json) => !KeyIs(p, "id", projectId));
      saved := SaveToLocalStorage(quotaOk);
    }

    /** `deleteTask`. */
    method DeleteTask(taskId: string, confirmed: bool, quotaOk: bool) returns (saved: bool)
      modifies this`tasks, this`storage
      ensures !confirmed ==> !saved && tasks == old(tasks) && storage == old(storage)
      ensures confirmed ==> tasks == Filter(old(tasks), (t: Json) => !KeyIs(t, "id", taskId))
      ensures confirmed ==> saved == quotaOk && storage == (if quotaOk then Item(Snapshot()) else old(storage))
    {
      if !confirmed {
        return false;
      }
      tasks := Filter(tasks, (t: Json) => !KeyIs(t, "id", taskId));
      saved := SaveToLocalStorage(quotaOk);
    }

    /** `deleteRecord`. */
    method DeleteRecord(recordId: string, confirmed: bool, quotaOk: bool) returns (saved: bool)
      modifies this`records, this`storage
      ensures !confirmed ==> !saved && records == old(records) && storage == old(storage)
      ensures confirmed ==> records == Filter(old(records), (r: Json) => !KeyIs(r, "id", recordId))
      ensures confirmed ==> saved == quotaOk && storage == (if quotaOk then Item(Snapshot()) else old(storage))
    {
      if !confirmed {
        return false;
      }
      records := Filter(records, (r: Json) => !KeyIs(r, "id", recordId));
      saved := SaveToLocalStorage(quotaOk);
    }

    /** `cycleTaskStatus`: the first task with the id moves to the next status. */
    method CycleTaskStatus(taskId: string, quotaOk: bool) returns (found: bool, saved: bool)
      modifies this`tasks, this`storage
      ensures found <==> exists j :: 0 <= j < |old(tasks)| && KeyIs(old(tasks)[j], "id", taskId)
      ensures !found ==> !saved && tasks == old(tasks) && storage == old(storage)
      ensures found ==>
        (var i := FindIndex(old(tasks), "id", Some(JStr(taskId)));
         tasks == old(tasks)[i := SetProp(old(tasks)[i], "status", JStr(NextStatus(Prop(old(tasks)[i], "status"))))]
         && saved == quotaOk && storage == (if quotaOk then Item(Snapshot()) else old(storage)))
    {
      var i := FindIndex(tasks, "id", Some(JStr(taskId)));
      if i == -1 {
        return false, false;
      }
      found := true;
      tasks := tasks[i := SetProp(tasks[i], "status", JStr(NextStatus(Prop(tasks[i], "status"))))];
      saved := SaveToLocalStorage(quotaOk);
    }

    /** `addExistingRecords`: each offered PDF is pushed unless a record already has its name. */
    method AddExistingRecords(ids: seq<string>, now: string, quotaOk: bool) returns (saved: bool)
      requires |ids| == 2
      modifies this`records, this`storage
      ensures records == AppendMissing(old(records), ExistingFiles(ids, now))
      ensures saved == quotaOk && storage == (if quotaOk then Item(Snapshot()) else old(storage))
    {
      var files := ExistingFiles(ids, now);
      var k := 0;
      while k < |files|
        invariant 0 <= k <= |files|
        invariant AppendMissing(records, files[k..]) == AppendMissing(old(records), files)
        invariant storage == old(storage)
      {
        assert files[k..][1..] == files[k + 1..];
        if !NameTaken(records, files[k]) {
          records := records + [files[k]];
        }
        k := k + 1;
      }
      saved := SaveToLocalStorage(quotaOk);
    }

    /**
     * `restoreFromFile` on the parsed file (`None`: unreadable or not JSON):
     * the four collections are replaced only when all four are present; a
     * failing save then reports false with the collections already replaced.
     */
    method RestoreFromFile(parsed: Option<Json>, quotaOk: bool) returns (ok: bool)
      modifies this`plans, this`projects, this`tasks, this`records, this`storage
      ensures !(parsed.Some? && HasAllCollections(parsed.value)) ==>
        !ok && plans == old(plans) && projects == old(projects) && tasks == old(tasks)
        && records == old(records) && storage == old(storage)
      ensures parsed.Some? && HasAllCollections(parsed.value) ==>
        (plans == AsArray(Prop(parsed.value, "plans")) && projects == AsArray(Prop(parsed.value, "projects"))
         && tasks == AsArray(Prop(parsed.value, "tasks")) && records == AsArray(Prop(parsed.value, "records"))
         && ok == quotaOk && storage == (if quotaOk then Item(Snapshot()) else old(storage)))
    {
      if !(parsed.Some? && HasAllCollections(parsed.value)) {
        return false;
      }
      var d := parsed.value;
      plans := AsArray(Prop(d, "plans"));
      projects := AsArray(Prop(d, "projects"));
      tasks := AsArray(Prop(d, "tasks"));
      records := AsArray(Prop(d, "records"));
      ok := SaveToLocalStorage(quotaOk);
    }

    /** `handleBackupFileUpload`: a restore over existing plans or projects needs the user's confirmation. */
    method BackupFileUpload(hasFile: bool, confirmed: bool, parsed: Option<Json>, quotaOk: bool) returns (ok: bool)
      modifies this`plans, this`projects, this`tasks, this`records, this`storage
      ensures (!hasFile || (NeedsConfirm(old(plans), old(projects)) && !confirmed)) ==>
        !ok && plans == old(plans) && projects == old(projects) && tasks == old(tasks)
        && records == old(records) && storage == old(storage)
      ensures hasFile && !(NeedsConfirm(old(plans), old(projects)) && !confirmed)
              && !(parsed.Some? && HasAllCollections(parsed.value)) ==>
        !ok && plans == old(plans) && projects == old(projects) && tasks == old(tasks)
        && records == old(records) && storage == old(storage)
      ensures hasFile && !(NeedsConfirm(old(plans), old(projects)) && !confirmed)
              && parsed.Some? && HasAllCollections(parsed.value) ==>
        (plans == AsArray(Prop(parsed.value, "plans")) && projects == AsArray(Prop(parsed.value, "projects"))
         && tasks == AsArray(Prop(parsed.value, "tasks")) && records == AsArray(Prop(parsed.value, "records"))
         && ok == quotaOk && storage == (if quotaOk then Item(Snapshot()) else old(storage)))
      ensures ok ==> parsed.Some? && HasAllCollections(parsed.value)
    {
      if !hasFile || (NeedsConfirm(plans, projects) && !confirmed) {
        return false;
      }
      ok := RestoreFromFile(parsed, quotaOk);
    }

    /**
     * `loadFromLocalStorage`: no item seeds the sample data (records stay as
     * they are); an unparsable item, or one parsing to `null`, empties all
     * four; otherwise each collection is the stored array, or empty.
     */
    method LoadFromLocalStorage(ids: seq<string>, now: string, yesterday: string)
      requires |ids| == 5
      modifies this`plans, this`projects, this`tasks, this`records
      ensures storage.NoItem? ==>
        (var s := SampleData(ids, now, yesterday);
         plans == s.0 && projects == s.1 && tasks == s.2 && records == old(records))
      ensures storage.Garbled? || storage == Item(JNull) ==> plans == [] && projects == [] && tasks == [] && records == []
      ensures storage.Item? && storage.doc != JNull ==>
        (plans == AsArray(Prop(storage.doc, "plans")) && projects == AsArray(Prop(storage.doc, "projects"))
         && tasks == AsArray(Prop(storage.doc, "tasks")) && records == AsArray(Prop(storage.doc, "records")))
    {
      match storage
      case NoItem =>
        var s := SampleData(ids, now, yesterday);
        plans, projects, tasks := s.0, s.1, s.2;
      case Garbled =>
        plans, projects, tasks, records := [], [], [], [];
      case Item(d) =>
        if d == JNull {
          plans, projects, tasks, records := [], [], [], [];
        } else {
          plans := AsArray(Prop(d, "plans"));
          projects := AsArray(Prop(d, "projects"));
          tasks := AsArray(Prop(d, "tasks"));
          records := AsArray(Prop(d, "records"));
        }
    }
  }
}
