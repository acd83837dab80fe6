/**
 * The two-table store behind the DAO: `projects` and `steps`, with AUTOINCREMENT
 * primary keys and a foreign key from `steps.projectOwnerId` to
 * `projects.projectId` declared ON DELETE CASCADE.
 *
 * `Tables` is the store's state as a value. Each table is kept in insertion
 * order; since AUTOINCREMENT hands out ever larger ids, that is ascending id
 * order, which is what `Valid` records. The queries and the effect of every
 * insert, update and delete are functions of `Tables`; the class
 * `ChecklistDao` holds the state in fields and performs them in place.
 */
module Dao {
  import opened Wrappers
  import opened Seqs
  import opened Entities

  // Row conditions used by the SQL `WHERE` clauses below.

  function OwnedBy(projectId: int): StepEntity -> bool {
    (s: StepEntity) => s.projectOwnerId == projectId
  }

  function NotOwnedBy(projectId: int): StepEntity -> bool {
    (s: StepEntity) => s.projectOwnerId != projectId
  }

  function OwnerNotIn(ids: set<int>): StepEntity -> bool {
    (s: StepEntity) => s.projectOwnerId !in ids
  }

  function NotStepId(stepId: int): StepEntity -> bool {
    (s: StepEntity) => s.stepId != stepId
  }

  function NotProjectId(projectId: int): ProjectEntity -> bool {
    (p: ProjectEntity) => p.projectId != projectId
  }

  function NamedTemplate(name: string): ProjectEntity -> bool {
    (p: ProjectEntity) => p.isTemplate && p.name == name
  }

  function NotNamedTemplate(name: string): ProjectEntity -> bool {
    (p: ProjectEntity) => !(p.isTemplate && p.name == name)
  }

  /** The rows of a batch insert with the ids AUTOINCREMENT gives them: `first`, `first + 1`, … in list order. */
  function Assigned(es: seq<StepEntity>, first: int): (r: seq<StepEntity>)
    ensures |r| == |es|
    ensures forall i :: 0 <= i < |es| ==> r[i] == es[i].(stepId := first + i)
  {
    seq(|es|, i requires 0 <= i < |es| => es[i].(stepId := first + i))
  }

  /** Replacing a row by one whose owner exists keeps every owner existing. */
  lemma ReplacedOwners(steps: seq<StepEntity>, e: StepEntity, ids: set<int>)
    requires forall s :: s in steps ==> s.projectOwnerId in ids
    requires FirstWithKey(steps, StepKey, StepKey(e)).Some? ==> e.projectOwnerId in ids
    ensures forall s :: s in ReplaceKey(steps, StepKey, e) ==> s.projectOwnerId in ids
  {
  }

  /** A batch owned by one project: its numbered rows all belong to that project, none to another. */
  lemma AssignedOwned(es: seq<StepEntity>, first: int, owner: int)
    requires forall x :: x in es ==> x.projectOwnerId == owner
    ensures Filter(Assigned(es, first), OwnedBy(owner)) == Assigned(es, first)
    ensures forall q :: q != owner ==> Filter(Assigned(es, first), OwnedBy(q)) == []
    ensures forall s :: s in Assigned(es, first) ==> first <= s.stepId
  {
    var added := Assigned(es, first);
    forall x | x in added ensures x.projectOwnerId == owner && first <= x.stepId {
      var i :| 0 <= i < |added| && added[i] == x;
      assert es[i] in es;
    }
    FilterAll(added, OwnedBy(owner));
    forall q | q != owner ensures Filter(added, OwnedBy(q)) == [] {
      FilterNone(added, OwnedBy(q));
    }
  }

  /** The state of a freshly created database: empty tables; AUTOINCREMENT starts at 1. */
  const EmptyTables := Tables([], [], 1, 1)

  datatype Tables = Tables(
    projects: seq<ProjectEntity>,
    steps: seq<StepEntity>,
    nextProjectId: int,
    nextStepId: int)
  {
    function ProjectIds(): set<int> {
      Keys(projects, ProjectKey)
    }

    function StepIds(): set<int> {
      Keys(steps, StepKey)
    }

    /**
     * The store invariant: primary keys are unique (each table ascends by id),
     * assigned (never 0) and below the next id AUTOINCREMENT will hand out
     * (itself never 0), and
     * every step's owner names an existing project (the foreign key).
     */
    predicate Valid() {
      && Unassigned < nextProjectId && Unassigned < nextStepId
      && StrictlyIncreasing(projects, ProjectKey) && KeysBetween(projects, ProjectKey, Unassigned, nextProjectId)
      && StrictlyIncreasing(steps, StepKey) && KeysBetween(steps, StepKey, Unassigned, nextStepId)
      && OwnersExist()
    }

    /** The foreign key: every step's owner is a stored project. */
    predicate OwnersExist() {
      forall s :: s in steps ==> s.projectOwnerId in ProjectIds()
    }

    // ----- queries -----

    /** `getAllProjects`: `SELECT * FROM projects ORDER BY projectId DESC`. */
    function AllProjects(): (r: seq<ProjectEntity>)
      ensures multiset(r) == multiset(projects)
      ensures Valid() ==> StrictlyDecreasing(r, ProjectKey)
    {
      Reverse(projects)
    }

    /** `getStepsForProject(p)`: `SELECT * FROM steps WHERE projectOwnerId = :p ORDER BY stepId ASC`. */
    function StepsForProject(projectId: int): (r: seq<StepEntity>)
      ensures forall s :: s in r <==> s in steps && s.projectOwnerId == projectId
      ensures Valid() ==> StrictlyIncreasing(r, StepKey)
    {
      FilterIncreasing(steps, OwnedBy(projectId), StepKey);
      Filter(steps, OwnedBy(projectId))
    }

    /** `getProjectById(id)`: the row with that primary key, or null. */
    function ProjectById(projectId: int): (r: Option<ProjectEntity>)
      ensures r.None? <==> projectId !in ProjectIds()
      ensures r.Some? ==> r.value in projects && r.value.projectId == projectId
    {
      FirstWithKey(projects, ProjectKey, projectId)
    }

    /** `getStepById(id)`: the row with that primary key, or null. */
    function StepById(stepId: int): (r: Option<StepEntity>)
      ensures r.None? <==> stepId !in StepIds()
      ensures r.Some? ==> r.value in steps && r.value.stepId == stepId
    {
      FirstWithKey(steps, StepKey, stepId)
    }

    /**
     * `getAllTemplates`: `SELECT * FROM projects WHERE isTemplate = 1`. The query
     * names no order; SQLite scans a rowid table in ascending id order.
     */
    function AllTemplates(): (r: seq<ProjectEntity>)
      ensures forall p :: p in r <==> p in projects && p.isTemplate
      ensures Valid() ==> StrictlyIncreasing(r, ProjectKey)
    {
      FilterIncreasing(projects, IsTemplateRow, ProjectKey);
      Filter(projects, IsTemplateRow)
    }

    /**
     * `getProjectWithStepsById(id)`: the project row joined with the steps it
     * owns (the `@Relation` query names no order; rowid order is ascending id).
     */
    function ProjectWithStepsById(projectId: int): (r: Option<ProjectWithSteps>)
      ensures r.None? <==> projectId !in ProjectIds()
      ensures r.Some? ==> r.value.project in projects && r.value.project.projectId == projectId
      ensures r.Some? ==> r.value.steps == StepsForProject(projectId)
    {
      match ProjectById(projectId)
      case None => None
      case Some(p) => Some(ProjectWithSteps(p, StepsForProject(projectId)))
    }

    /** Primary keys are unique: looking up a stored row's id finds that row. */
    lemma ProjectByIdFinds(p: ProjectEntity)
      requires Valid() && p in projects
      ensures ProjectById(p.projectId) == Some(p)
    {
      FirstWithKeyUnique(projects, ProjectKey, p);
    }

    lemma StepByIdFinds(s: StepEntity)
      requires Valid() && s in steps
      ensures StepById(s.stepId) == Some(s)
    {
      FirstWithKeyUnique(steps, StepKey, s);
    }

    /** A project that is not stored owns no steps (the foreign key). */
    lemma AbsentOwnsNothing(projectId: int)
      requires Valid() && projectId !in ProjectIds()
      ensures StepsForProject(projectId) == []
    {
      FilterNone(steps, OwnedBy(projectId));
    }

    /** Ids from the counter on are unused. */
    lemma CounterIsFresh()
      requires Valid()
      ensures forall k :: k >= nextStepId ==> k !in StepIds()
      ensures forall k :: k >= nextProjectId ==> k !in ProjectIds()
    {
    }

    // ----- inserts -----

    /**
     * `insertProject(e)` for a row whose id is unassigned: the row is stored
     * under the next AUTOINCREMENT id, which is returned.
     */
    function InsertProject(e: ProjectEntity): (r: (Tables, int))
      requires e.projectId == Unassigned
      ensures r.1 == nextProjectId
      ensures r.0.steps == steps && r.0.nextStepId == nextStepId && r.0.nextProjectId == r.1 + 1
      ensures forall p :: p in r.0.projects <==> p in projects || p == e.(projectId := r.1)
      ensures r.0.ProjectIds() == ProjectIds() + {r.1}
      ensures Valid() ==> r.0.Valid() && r.1 !in ProjectIds() && r.1 != Unassigned
      ensures Valid() ==> r.0.ProjectById(r.1) == Some(e.(projectId := r.1))
    {
      var id := nextProjectId;
      var row := e.(projectId := id);
      var t := this.(projects := projects + [row], nextProjectId := id + 1);
      KeysAppend(projects, row, ProjectKey);
      if Valid() then
        AppendIncreasing(projects, row, ProjectKey);
        assert t.Valid();
        t.ProjectByIdFinds(row);
        (t, id)
      else (t, id)
    }

    /**
     * `insertStep(e)` for a row whose id is unassigned: stored under the next
     * AUTOINCREMENT id. The foreign key holds afterwards when the owner exists.
     */
    function InsertStep(e: StepEntity): (r: (Tables, int))
      requires e.stepId == Unassigned
      ensures r.1 == nextStepId
      ensures r.0.projects == projects && r.0.nextProjectId == nextProjectId && r.0.nextStepId == r.1 + 1
      ensures forall s :: s in r.0.steps <==> s in steps || s == e.(stepId := r.1)
      ensures r.0.StepIds() == StepIds() + {r.1}
      ensures Valid() ==> r.1 !in StepIds() && r.1 != Unassigned
      ensures Valid() && e.projectOwnerId in ProjectIds() ==> r.0.Valid()
    {
      var id := nextStepId;
      var row := e.(stepId := id);
      var t := this.(steps := steps + [row], nextStepId := id + 1);
      KeysAppend(steps, row, StepKey);
      if Valid() && e.projectOwnerId in ProjectIds() then
        AppendIncreasing(steps, row, StepKey);
        assert t.Valid();
        (t, id)
      else (t, id)
    }

    /**
     * `insertSteps(es)` for rows whose ids are unassigned: they are appended in
     * list order, each under the next AUTOINCREMENT id.
     */
    function InsertSteps(es: seq<StepEntity>): (r: Tables)
      requires forall e :: e in es ==> e.stepId == Unassigned
      ensures r.projects == projects && r.nextProjectId == nextProjectId
      ensures r.nextStepId == nextStepId + |es|
      ensures |r.steps| == |steps| + |es| && r.steps[..|steps|] == steps
      ensures forall i :: 0 <= i < |es| ==> r.steps[|steps| + i] == es[i].(stepId := nextStepId + i)
      ensures Valid() && (forall e :: e in es ==> e.projectOwnerId in ProjectIds()) ==> r.Valid()
    {
      var t := this.(steps := steps + Assigned(es, nextStepId), nextStepId := nextStepId + |es|);
      assert t.steps[..|steps|] == steps;
      InsertStepsValid(es, t);
      t
    }

    lemma InsertStepsValid(es: seq<StepEntity>, t: Tables)
      requires t == this.(steps := steps + Assigned(es, nextStepId), nextStepId := nextStepId + |es|)
      ensures Valid() && (forall e :: e in es ==> e.projectOwnerId in ProjectIds()) ==> t.Valid()
    {
      if Valid() && (forall e :: e in es ==> e.projectOwnerId in ProjectIds()) {
        var added := Assigned(es, nextStepId);
        forall s | s in added
          ensures nextStepId <= s.stepId < nextStepId + |es| && s.projectOwnerId in ProjectIds()
        {
          var i :| 0 <= i < |added| && added[i] == s;
          assert es[i] in es;
        }
        ConcatIncreasing(steps, added, StepKey);
        assert t.Valid();
      }
    }

    /** Inserting a batch is inserting its prefix and then its next row. */
    lemma InsertStepsSnoc(es: seq<StepEntity>, e: StepEntity)
      requires forall x :: x in es ==> x.stepId == Unassigned
      requires e.stepId == Unassigned
      ensures InsertSteps(es + [e]) == InsertSteps(es).InsertStep(e).0
    {
      var a := InsertSteps(es + [e]);
      var b := InsertSteps(es).InsertStep(e).0;
      assert a.steps == b.steps by {
        forall i | 0 <= i < |a.steps| ensures a.steps[i] == b.steps[i] {
          if i < |steps| {
            assert a.steps[..|steps|][i] == InsertSteps(es).steps[..|steps|][i];
          } else if i < |steps| + |es| {
            assert (es + [e])[i - |steps|] == es[i - |steps|];
          }
        }
      }
    }

    /** After a batch insert, a project's steps are its earlier steps followed by its new ones, in batch order. */
    lemma InsertStepsQuery(es: seq<StepEntity>, projectId: int)
      requires forall e :: e in es ==> e.stepId == Unassigned
      ensures InsertSteps(es).StepsForProject(projectId)
        == StepsForProject(projectId) + Filter(Assigned(es, nextStepId), OwnedBy(projectId))
    {
      var r := InsertSteps(es);
      assert r.steps == steps + Assigned(es, nextStepId);
      FilterConcat(steps, Assigned(es, nextStepId), OwnedBy(projectId));
    }

    lemma InsertStepsPrefix(es: seq<StepEntity>, i: int)
      requires forall x :: x in es ==> x.stepId == Unassigned
      requires 0 <= i < |es|
      ensures forall x :: x in es[..i] ==> x.stepId == Unassigned
      ensures InsertSteps(es[..i + 1]) == InsertSteps(es[..i]).InsertStep(es[i]).0
    {
      assert es[i] in es;
      assert es[..i + 1] == es[..i] + [es[i]];
      InsertStepsSnoc(es[..i], es[i]);
    }

    // ----- updates -----

    /**
     * `updateProject(e)`: the row whose primary key is `e.projectId` takes
     * `e`'s values; when no row matches, nothing changes.
     */
    function UpdateProject(e: ProjectEntity): (r: Tables)
      ensures r.steps == steps && r.nextProjectId == nextProjectId && r.nextStepId == nextStepId
      ensures e.projectId !in ProjectIds() ==> r == this
      ensures forall p :: p in r.projects <==>
        (p in projects && p.projectId != e.projectId) || (p == e && e.projectId in ProjectIds())
      ensures r.ProjectIds() == ProjectIds()
      ensures Valid() ==> r.Valid()
    {
      var t := this.(projects := ReplaceKey(projects, ProjectKey, e));
      assert ProjectById(e.projectId) == FirstWithKey(projects, ProjectKey, ProjectKey(e));
      SameKeys(projects, t.projects, ProjectKey);
      if Valid() then
        UpdateProjectValid(e, t);
        t
      else t
    }

    lemma UpdateProjectValid(e: ProjectEntity, t: Tables)
      requires Valid() && t == this.(projects := ReplaceKey(projects, ProjectKey, e))
      ensures t.Valid()
    {
      ReplaceKeyOrdered(projects, ProjectKey, e, Unassigned, nextProjectId);
      SameKeys(projects, t.projects, ProjectKey);
    }

    /**
     * `updateStep(e)`: the row whose primary key is `e.stepId` takes `e`'s
     * values, its owner included; when no row matches, nothing changes.
     */
    function UpdateStep(e: StepEntity): (r: Tables)
      ensures r.projects == projects && r.nextProjectId == nextProjectId && r.nextStepId == nextStepId
      ensures e.stepId !in StepIds() ==> r == this
      ensures forall s :: s in r.steps <==>
        (s in steps && s.stepId != e.stepId) || (s == e && e.stepId in StepIds())
      ensures r.StepIds() == StepIds()
      ensures Valid() && (e.stepId in StepIds() ==> e.projectOwnerId in ProjectIds()) ==> r.Valid()
    {
      var t := this.(steps := ReplaceKey(steps, StepKey, e));
      assert StepById(e.stepId) == FirstWithKey(steps, StepKey, StepKey(e));
      SameKeys(steps, t.steps, StepKey);
      if Valid() && (e.stepId in StepIds() ==> e.projectOwnerId in ProjectIds()) then
        UpdateStepValid(e, t);
        t
      else t
    }

    lemma UpdateStepValid(e: StepEntity, t: Tables)
      requires Valid() && (e.stepId in StepIds() ==> e.projectOwnerId in ProjectIds())
      requires t == this.(steps := ReplaceKey(steps, StepKey, e))
      ensures t.Valid()
    {
      UpdateStepOwners(e);
      ReplaceKeyOrdered(steps, StepKey, e, Unassigned, nextStepId);
    }

    lemma UpdateStepOwners(e: StepEntity)
      requires Valid()
      requires e.stepId in StepIds() ==> e.projectOwnerId in ProjectIds()
      ensures forall s :: s in ReplaceKey(steps, StepKey, e) ==> s.projectOwnerId in ProjectIds()
    {
      assert StepById(e.stepId) == FirstWithKey(steps, StepKey, StepKey(e));
      ReplacedOwners(steps, e, ProjectIds());
    }

    // ----- deletes -----

    /**
     * `deleteProject(e)` (by primary key) and `deleteProjectWithStepsById(id)`:
     * the project row goes, and ON DELETE CASCADE takes the steps it owned.
     */
    function DeleteProject(projectId: int): (r: Tables)
      ensures r.nextProjectId == nextProjectId && r.nextStepId == nextStepId
      ensures forall p :: p in r.projects <==> p in projects && p.projectId != projectId
      ensures forall s :: s in r.steps <==> s in steps && s.projectOwnerId != projectId
      ensures r.ProjectById(projectId).None? && r.StepsForProject(projectId) == []
      ensures Valid() ==> r.Valid()
      ensures Valid() && projectId !in ProjectIds() ==> r == this
    {
      var t := this.(projects := Filter(projects, NotProjectId(projectId)),
                     steps := Filter(steps, NotOwnedBy(projectId)));
      FilterNone(t.steps, OwnedBy(projectId));
      if Valid() then
        DeleteProjectValid(projectId, t);
        if projectId !in ProjectIds() then
          FilterAll(projects, NotProjectId(projectId));
          FilterAll(steps, NotOwnedBy(projectId));
          t
        else t
      else t
    }

    lemma DeleteProjectValid(projectId: int, t: Tables)
      requires Valid()
      requires t == this.(projects := Filter(projects, NotProjectId(projectId)),
                          steps := Filter(steps, NotOwnedBy(projectId)))
      ensures t.Valid()
    {
      FilterIncreasing(projects, NotProjectId(projectId), ProjectKey);
      FilterIncreasing(steps, NotOwnedBy(projectId), StepKey);
      forall s | s in t.steps ensures s.projectOwnerId in t.ProjectIds() {
        var p :| p in projects && p.projectId == s.projectOwnerId;
        assert p in t.projects;
      }
    }

    /** `deleteStepsByProjectId(p)`: `DELETE FROM steps WHERE projectOwnerId = :p`. */
    function DeleteStepsByProjectId(projectId: int): (r: Tables)
      ensures r.projects == projects && r.nextProjectId == nextProjectId && r.nextStepId == nextStepId
      ensures forall s :: s in r.steps <==> s in steps && s.projectOwnerId != projectId
      ensures r.StepsForProject(projectId) == []
      ensures forall q :: q != projectId ==> r.StepsForProject(q) == StepsForProject(q)
      ensures Valid() ==> r.Valid()
    {
      var t := this.(steps := Filter(steps, NotOwnedBy(projectId)));
      FilterIncreasing(steps, NotOwnedBy(projectId), StepKey);
      FilterNone(t.steps, OwnedBy(projectId));
      assert forall q :: q != projectId ==> t.StepsForProject(q) == StepsForProject(q) by {
        forall q | q != projectId ensures t.StepsForProject(q) == StepsForProject(q) {
          FilterFilter(steps, NotOwnedBy(projectId), OwnedBy(q));
        }
      }
      t
    }

    /** `deleteStep(id)`: `DELETE FROM steps WHERE stepId = :id`; ids are unique, so at most one row goes. */
    function DeleteStep(stepId: int): (r: Tables)
      ensures r.projects == projects && r.nextProjectId == nextProjectId && r.nextStepId == nextStepId
      ensures forall s :: s in r.steps <==> s in steps && s.stepId != stepId
      ensures r.StepById(stepId).None?
      ensures Valid() ==> r.Valid()
      ensures stepId !in StepIds() ==> r == this
    {
      var t := this.(steps := Filter(steps, NotStepId(stepId)));
      FilterIncreasing(steps, NotStepId(stepId), StepKey);
      if stepId !in StepIds() then
        FilterAll(steps, NotStepId(stepId));
        t
      else t
    }

    /** The ids of the templates named exactly `name`. */
    function TemplateIdsNamed(name: string): set<int> {
      set p | p in projects && p.isTemplate && p.name == name :: p.projectId
    }

    /**
     * `deleteTemplateByName(n)`: `DELETE FROM projects WHERE isTemplate = 1 AND name = :n`.
     * Every template with exactly that name goes, with its steps by cascade;
     * live projects are never touched.
     */
    function DeleteTemplateByName(name: string): (r: Tables)
      ensures r.nextProjectId == nextProjectId && r.nextStepId == nextStepId
      ensures forall p :: p in r.projects <==> p in projects && !(p.isTemplate && p.name == name)
      ensures forall s :: s in r.steps <==> s in steps && s.projectOwnerId !in TemplateIdsNamed(name)
      ensures Valid() ==> r.Valid()
      ensures Valid() ==> forall s :: s in r.steps <==> s in steps && s.projectOwnerId in r.ProjectIds()
      ensures (forall p :: p in projects ==> !(p.isTemplate && p.name == name)) ==> r == this
    {
      var gone := TemplateIdsNamed(name);
      var t := this.(projects := Filter(projects, NotNamedTemplate(name)),
                     steps := Filter(steps, OwnerNotIn(gone)));
      if (forall p :: p in projects ==> !(p.isTemplate && p.name == name)) then
        FilterAll(projects, NotNamedTemplate(name));
        assert gone == {};
        FilterAll(steps, OwnerNotIn(gone));
        t
      else if Valid() then
        DeleteTemplateCascade(name, t);
        t
      else t
    }

    lemma DeleteTemplateCascade(name: string, t: Tables)
      requires Valid()
      requires t == this.(projects := Filter(projects, NotNamedTemplate(name)),
                          steps := Filter(steps, OwnerNotIn(TemplateIdsNamed(name))))
      ensures t.Valid()
      ensures forall s :: s in t.steps <==> s in steps && s.projectOwnerId in t.ProjectIds()
    {
      var gone := TemplateIdsNamed(name);
      FilterIncreasing(projects, NotNamedTemplate(name), ProjectKey);
      FilterIncreasing(steps, OwnerNotIn(gone), StepKey);
      forall s | s in steps
        ensures s.projectOwnerId !in gone <==> s.projectOwnerId in t.ProjectIds()
      {
        var p :| p in projects && p.projectId == s.projectOwnerId;
        if s.projectOwnerId in gone {
          var q :| q in projects && q.isTemplate && q.name == name && q.projectId == s.projectOwnerId;
          if s.projectOwnerId in t.ProjectIds() {
            var p' :| p' in t.projects && p'.projectId == s.projectOwnerId;
            UniqueKeys(projects, ProjectKey, p', q);
          }
        } else {
          UniqueKeys(projects, ProjectKey, p, p);
          assert p in t.projects;
        }
      }
    }
  }

  /**
   * The store: the two tables and the AUTOINCREMENT counters as fields that
   * each DAO operation updates in place.
   */
  class ChecklistDao {
    var projects: seq<ProjectEntity>
    var steps: seq<StepEntity>
    var nextProjectId: int
    var nextStepId: int

    function State(): Tables
      reads this
    {
      Tables(projects, steps, nextProjectId, nextStepId)
    }

    predicate Valid()
      reads this
    {
      State().Valid()
    }

    /** A new, empty database. */
    constructor ()
      ensures Valid() && State() == EmptyTables
    {
      projects, steps := [], [];
      nextProjectId, nextStepId := 1, 1;
    }

    method InsertProject(project: ProjectEntity) returns (id: int)
      requires Valid() && project.projectId == Unassigned
      modifies this
      ensures Valid() && (State(), id) == old(State()).InsertProject(project)
    {
      var after := State().InsertProject(project);
      projects, nextProjectId, id := after.0.projects, after.0.nextProjectId, after.1;
    }

    /** A step whose owner does not exist violates the foreign key; callers never insert one. */
    method InsertStep(step: StepEntity) returns (id: int)
      requires Valid() && step.stepId == Unassigned && step.projectOwnerId in State().ProjectIds()
      modifies this
      ensures Valid() && (State(), id) == old(State()).InsertStep(step)
    {
      var after := State().InsertStep(step);
      steps, nextStepId, id := after.0.steps, after.0.nextStepId, after.1;
    }

    /** Inserts the rows one after another, in list order. */
    method InsertSteps(batch: seq<StepEntity>)
      requires Valid()
      requires forall e :: e in batch ==> e.stepId == Unassigned && e.projectOwnerId in State().ProjectIds()
      modifies this
      ensures Valid() && State() == old(State()).InsertSteps(batch)
    {
      for i := 0 to |batch|
        invariant Valid() && projects == old(projects)
        invariant State() == old(State()).InsertSteps(batch[..i])
      {
        old(State()).InsertStepsPrefix(batch, i);
        var _ := InsertStep(batch[i]);
      }
      assert batch[..|batch|] == batch;
    }

    method UpdateProject(project: ProjectEntity)
      requires Valid()
      modifies this
      ensures Valid() && State() == old(State()).UpdateProject(project)
    {
      projects := State().UpdateProject(project).projects;
    }

    /** Moving a step to an owner that does not exist violates the foreign key; callers never do. */
    method UpdateStep(step: StepEntity)
      requires Valid()
      requires step.stepId in State().StepIds() ==> step.projectOwnerId in State().ProjectIds()
      modifies this
      ensures Valid() && State() == old(State()).UpdateStep(step)
    {
      steps := State().UpdateStep(step).steps;
    }

    method DeleteProject(project: ProjectEntity)
      requires Valid()
      modifies this
      ensures Valid() && State() == old(State()).DeleteProject(project.projectId)
    {
      DeleteProjectWithStepsById(project.projectId);
    }

    method DeleteStepsByProjectId(projectId: int)
      requires Valid()
      modifies this
      ensures Valid() && State() == old(State()).DeleteStepsByProjectId(projectId)
    {
      steps := State().DeleteStepsByProjectId(projectId).steps;
    }

    method DeleteTemplateByName(name: string)
      requires Valid()
      modifies this
      ensures Valid() && State() == old(State()).DeleteTemplateByName(name)
    {
      var after := State().DeleteTemplateByName(name);
      projects, steps := after.projects, after.steps;
    }

    method DeleteProjectWithStepsById(projectId: int)
      requires Valid()
      modifies this
      ensures Valid() && State() == old(State()).DeleteProject(projectId)
    {
      var after := State().DeleteProject(projectId);
      projects, steps := after.projects, after.steps;
    }

    method DeleteStep(stepId: int)
      requires Valid()
      modifies this
      ensures Valid() && State() == old(State()).DeleteStep(stepId)
    {
      steps := State().DeleteStep(stepId).steps;
    }
  }
}
