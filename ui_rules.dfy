/**
 * The small rules ui_functions.js applies while rendering: the recent-items
 * selection, completion percentages, the deadline urgency ladder, which plan
 * the project form keeps selected, the image-upload guards, and the filter
 * functions that swap the global arrays for a render and put them back.
 */
module UiRules {
  import opened Js
  import opened Text
  import Search

  // ---------------------------------------------------------------- recent

  function Reverse<T>(s: seq<T>): (r: seq<T>)
    ensures |r| == |s|
    ensures forall i :: 0 <= i < |s| ==> r[i] == s[|s| - 1 - i]
  {
    if s == [] then [] else Reverse(s[1..]) + [s[0]]
  }

  /** `s.slice(-3).reverse()`. */
  function Recent<T>(s: seq<T>): seq<T>
  {
    var n := if |s| < 3 then |s| else 3;
    Reverse(s[|s| - n..])
  }

  /** At most three items, the newest first, and none exactly when there are none. */
  lemma RecentMeaning<T>(s: seq<T>)
    ensures |Recent(s)| == if |s| < 3 then |s| else 3
    ensures forall i :: 0 <= i < |Recent(s)| ==> Recent(s)[i] == s[|s| - 1 - i]
    ensures Recent(s) == [] <==> s == []
  {
    var n := if |s| < 3 then |s| else 3;
    var tail := s[|s| - n..];
    forall i | 0 <= i < n ensures Recent(s)[i] == s[|s| - 1 - i] {
      assert Recent(s)[i] == tail[n - 1 - i];
    }
  }

  // -------------------------------------------------------------- progress

  /** `a / b` rounded down, by repeated subtraction. */
  function Quot(a: nat, b: nat): nat
    requires b > 0
    decreases a
  {
    if a < b then 0 else 1 + Quot(a - b, b)
  }

  lemma {:induction false} QuotOf(q: nat, r: nat, b: nat)
    requires 0 <= r < b
    ensures Quot(b * q + r, b) == q
    decreases q
  {
    if q > 0 {
      assert b * q + r - b == b * (q - 1) + r;
      QuotOf(q - 1, r, b);
    }
  }

  lemma {:induction false} QuotMonotone(a1: nat, a2: nat, b: nat)
    requires a1 <= a2 && b > 0
    ensures Quot(a1, b) <= Quot(a2, b)
    decreases a2
  {
    if a1 >= b {
      QuotMonotone(a1 - b, a2 - b, b);
    }
  }

  /**
   * `Math.round(c / t * 100)` for `t > 0` (half rounds up), computed exactly as
   * the floor of `(200c + t) / 2t`; 0 when `t == 0`.
   */
  function RoundPercent(c: nat, t: nat): nat
  {
    if t == 0 then 0 else Quot(200 * c + t, 2 * t)
  }

  lemma RoundPercentBounds(c: nat, t: nat)
    requires c <= t
    ensures RoundPercent(c, t) <= 100
    ensures c == 0 ==> RoundPercent(c, t) == 0
    ensures c == t ==> RoundPercent(c, t) == (if t == 0 then 0 else 100)
  {
    if t > 0 {
      QuotOf(100, t, 2 * t);
      assert 2 * t * 100 + t == 201 * t;
      QuotMonotone(200 * c + t, 201 * t, 2 * t);
      QuotOf(0, t, 2 * t);
    }
  }

  /** `items.filter(x => x.status === 'completed')`. */
  function Completed(items: seq<Json>): (r: seq<Json>)
    ensures |r| <= |items|
  {
    Filter(items, (x: Json) => KeyIs(x, "status", "completed"))
  }

  /** `projects.filter(p => p.planId === plan.id)`. */
  function RelatedProjects(plan: Json, projects: seq<Json>): seq<Json>
  {
    Filter(projects, (p: Json) => Matches(p, "planId", Prop(plan, "id")))
  }

  /** `tasks.filter(t => t.projectId === project.id)`. */
  function ProjectTasks(project: Json, tasks: seq<Json>): seq<Json>
  {
    Filter(tasks, (t: Json) => Matches(t, "projectId", Prop(project, "id")))
  }

  /** The plan card's progress: the share of its projects that are completed. */
  function PlanProgress(plan: Json, projects: seq<Json>): (p: nat)
    ensures p <= 100
    ensures RelatedProjects(plan, projects) == [] ==> p == 0
    ensures RelatedProjects(plan, projects) != [] && Completed(RelatedProjects(plan, projects)) == RelatedProjects(plan, projects) ==> p == 100
    ensures Completed(RelatedProjects(plan, projects)) == [] ==> p == 0
  {
    var related := RelatedProjects(plan, projects);
    var done := Completed(related);
    RoundPercentBounds(|done|, |related|);
    RoundPercent(|done|, |related|)
  }

  /** The project card's progress: the share of its tasks that are completed. */
  function TaskProgress(project: Json, tasks: seq<Json>): (p: nat)
    ensures p <= 100
    ensures ProjectTasks(project, tasks) == [] ==> p == 0
    ensures ProjectTasks(project, tasks) != [] && Completed(ProjectTasks(project, tasks)) == ProjectTasks(project, tasks) ==> p == 100
    ensures Completed(ProjectTasks(project, tasks)) == [] ==> p == 0
  {
    var own := ProjectTasks(project, tasks);
    var done := Completed(own);
    RoundPercentBounds(|done|, |own|);
    RoundPercent(|done|, |own|)
  }

  /** When every task of a project is completed its progress is 100, and never more than 100. */
  lemma AllTasksDone(project: Json, tasks: seq<Json>)
    requires forall i :: 0 <= i < |tasks| ==> KeyIs(tasks[i], "status", "completed")
    requires exists i :: 0 <= i < |tasks| && Matches(tasks[i], "projectId", Prop(project, "id"))
    ensures TaskProgress(project, tasks) == 100
    ensures |Completed(ProjectTasks(project, tasks))| <= |ProjectTasks(project, tasks)|
  {
    var own := ProjectTasks(project, tasks);
    var i :| 0 <= i < |tasks| && Matches(tasks[i], "projectId", Prop(project, "id"));
    assert tasks[i] in own;
    forall j | 0 <= j < |own| ensures KeyIs(own[j], "status", "completed") {
      assert own[j] in tasks;
    }
    FilterAll(own, (x: Json) => KeyIs(x, "status", "completed"));
  }

  // -------------------------------------------------------------- deadline

  /** The card's deadline class from the day count (`None`: no deadline). */
  function DeadlineClass(days: Option<int>): (c: string)
    ensures days.None? ==> c == ""
    ensures days.Some? && days.value < 0 ==> c == "overdue"
    ensures days.Some? && 0 <= days.value <= 3 ==> c == "urgent"
    ensures days.Some? && 4 <= days.value <= 7 ==> c == "warning"
    ensures days.Some? && days.value > 7 ==> c == ""
  {
    if days.None? then ""
    else if days.value < 0 then "overdue"
    else if days.value <= 3 then "urgent"
    else if days.value <= 7 then "warning"
    else ""
  }

  function Severity(c: string): nat
  {
    if c == "overdue" then 3 else if c == "urgent" then 2 else if c == "warning" then 1 else 0
  }

  /** A nearer deadline is never shown as less urgent. */
  lemma DeadlineMonotone(d1: int, d2: int)
    requires d1 <= d2
    ensures Severity(DeadlineClass(Some(d1))) >= Severity(DeadlineClass(Some(d2)))
  {
  }

  // ----------------------------------------------------------- plan select

  /** `updateProjectPlanOptions`: the value the plan select ends with. */
  function SelectedPlan(current: string, plans: seq<Json>): string
  {
    var valid := Filter(plans, (p: Json) => Truthy(Prop(p, "id")));
    if current != "" && exists i :: 0 <= i < |valid| && KeyIs(valid[i], "id", current) then current else ""
  }

  /** The selection is kept exactly when it is non-empty and some plan has it as its id; otherwise it is cleared. */
  lemma SelectedPlanMeaning(current: string, plans: seq<Json>)
    ensures SelectedPlan(current, plans) == current || SelectedPlan(current, plans) == ""
    ensures SelectedPlan(current, plans) != "" <==>
      current != "" && exists i :: 0 <= i < |plans| && KeyIs(plans[i], "id", current)
  {
    var valid := Filter(plans, (p: Json) => Truthy(Prop(p, "id")));
    if current != "" {
      if i :| 0 <= i < |plans| && KeyIs(plans[i], "id", current) {
        assert plans[i] in valid;
        var k :| 0 <= k < |valid| && valid[k] == plans[i];
        assert KeyIs(valid[k], "id", current);
      }
      if k :| 0 <= k < |valid| && KeyIs(valid[k], "id", current) {
        assert valid[k] in plans;
        var i :| 0 <= i < |plans| && plans[i] == valid[k];
        assert KeyIs(plans[i], "id", current);
      }
    }
  }

  // ---------------------------------------------------------- image upload

  /** The picked file: its MIME type and size in bytes. */
  datatype PickedFile = PickedFile(mime: string, size: int)

  datatype ImageVerdict = NoFile | NotAnImage | TooLarge | Accept

  const MaxImage: nat := 10 * MiB

  /** The guards of `handlePlanImageUpload`/`handleProjectImageUpload`, in their order. */
  function ImageCheck(f: Option<PickedFile>): (v: ImageVerdict)
    ensures v == Accept <==> f.Some? && StartsWith(f.value.mime, "image/") && f.value.size <= MaxImage
    ensures f.Some? && !StartsWith(f.value.mime, "image/") ==> v == NotAnImage
    ensures v == TooLarge ==> f.Some? && StartsWith(f.value.mime, "image/") && f.value.size > MaxImage
  {
    match f
    case None => NoFile
    case Some(file) =>
      if !StartsWith(file.mime, "image/") then NotAnImage
      else if file.size > MaxImage then TooLarge
      else Accept
  }

  /**
   * The image data after an upload. `compressed` is what `compressImage`
   * hands to its callback, `None` when the image never loads and the
   * callback never runs. Only an accepted file whose callback runs replaces
   * the old data.
   */
  function ImageAfter(current: Json, f: Option<PickedFile>, compressed: Option<string>): (r: Json)
    ensures ImageCheck(f) != Accept || compressed.None? ==> r == current
    ensures ImageCheck(f) == Accept && compressed.Some? ==> r == JStr(compressed.value)
  {
    if ImageCheck(f) == Accept && compressed.Some? then JStr(compressed.value) else current
  }

  // ------------------------------------------------------------------ page

  /** What a grid shows: the empty message, the no-match message, or cards with their progress. */
  datatype Grid = NoData | NoMatch | Cards(items: seq<Json>, progress: seq<nat>)

  class Page {
    var plans: seq<Json>
    var projects: seq<Json>
    var tasks: seq<Json>
    var planGrid: Grid
    var projectGrid: Grid
    var planSelect: string
    var planImage: Json
    var projectImage: Json

    constructor (plans0: seq<Json>, projects0: seq<Json>, tasks0: seq<Json>)
      ensures plans == plans0 && projects == projects0 && tasks == tasks0
      ensures planGrid == NoData && projectGrid == NoData && planSelect == ""
      ensures planImage == JNull && projectImage == JNull
    {
      plans, projects, tasks := plans0, projects0, tasks0;
      planGrid, projectGrid, planSelect := NoData, NoData, "";
      planImage, projectImage := JNull, JNull;
    }

    /** What `renderPlans()` draws from the current globals. */
    function PlanCards(): (g: Grid)
      reads this
      ensures g.Cards? ==> |g.items| == |g.progress| && forall i :: 0 <= i < |g.progress| ==> g.progress[i] <= 100
    {
      if plans == [] then NoData
      else Cards(plans, seq(|plans|, i requires 0 <= i < |plans| reads this => PlanProgress(plans[i], projects)))
    }

    /** What `renderProjects()` draws from the current globals. */
    function ProjectCards(): (g: Grid)
      reads this
      ensures g.Cards? ==> |g.items| == |g.progress| && forall i :: 0 <= i < |g.progress| ==> g.progress[i] <= 100
    {
      if projects == [] then NoData
      else Cards(projects, seq(|projects|, i requires 0 <= i < |projects| reads this => TaskProgress(projects[i], tasks)))
    }

    /**
     * `filterPlans`: the matching plans are drawn by swapping them into the
     * global for one render; the global is the same afterwards. `threw` is
     * set when the filter throws, and then nothing is drawn.
     */
    method FilterPlans(typed: string, status: string) returns (threw: bool)
      modifies this`plans, this`planGrid
      ensures plans == old(plans)
      ensures threw <==> Search.FilterPlans(old(plans), typed, status).None?
      ensures threw ==> planGrid == old(planGrid)
      ensures !threw ==>
        (var r := Search.FilterPlans(old(plans), typed, status).value;
         planGrid == if r == [] then NoMatch
                     else Cards(r, seq(|r|, i requires 0 <= i < |r| reads this => PlanProgress(r[i], projects))))
    {
      var found := Search.FilterPlans(plans, typed, status);
      if found.None? {
        return true;
      }
      threw := false;
      if found.value == [] {
        planGrid := NoMatch;
        return;
      }
      var originalPlans := plans;
      plans := found.value;
      planGrid := PlanCards();
      plans := originalPlans;
    }

    /** `filterProjects`, with the same swap of the global `projects`. */
    method FilterProjects(typed: string, status: string, category: string) returns (threw: bool)
      modifies this`projects, this`projectGrid
      ensures projects == old(projects)
      ensures threw <==> Search.FilterProjects(old(projects), typed, status, category).None?
      ensures threw ==> projectGrid == old(projectGrid)
      ensures !threw ==>
        (var r := Search.FilterProjects(old(projects), typed, status, category).value;
         projectGrid == if r == [] then NoMatch
                        else Cards(r, seq(|r|, i requires 0 <= i < |r| reads this => TaskProgress(r[i], tasks))))
    {
      var found := Search.FilterProjects(projects, typed, status, category);
      if found.None? {
        return true;
      }
      threw := false;
      if found.value == [] {
        projectGrid := NoMatch;
        return;
      }
      var originalProjects := projects;
      projects := found.value;
      projectGrid := ProjectCards();
      projects := originalProjects;
    }

    /**
     * `updateProjectPlanOptions`: the selection survives only while some plan
     * still has it as its id (`SelectedPlanMeaning`).
     */
    method UpdateProjectPlanOptions()
      modifies this`planSelect
      ensures planSelect == SelectedPlan(old(planSelect), plans)
    {
      planSelect := SelectedPlan(planSelect, plans);
    }

    /** `handlePlanImageUpload`; `compressed` is as for `ImageAfter`. */
    method HandlePlanImageUpload(f: Option<PickedFile>, compressed: Option<string>) returns (v: ImageVerdict)
      modifies this`planImage
      ensures v == ImageCheck(f)
      ensures v != Accept || compressed.None? ==> planImage == old(planImage)
      ensures v == Accept && compressed.Some? ==> planImage == JStr(compressed.value)
    {
      v := ImageCheck(f);
      planImage := ImageAfter(planImage, f, compressed);
    }

    /** `handleProjectImageUpload`. */
    method HandleProjectImageUpload(f: Option<PickedFile>, compressed: Option<string>) returns (v: ImageVerdict)
      modifies this`projectImage
      ensures v == ImageCheck(f)
      ensures v != Accept || compressed.None? ==> projectImage == old(projectImage)
      ensures v == Accept && compressed.Some? ==> projectImage == JStr(compressed.value)
    {
      v := ImageCheck(f);
      projectImage := ImageAfter(projectImage, f, compressed);
    }
  }
}
