/**
 * The repository: one-call delegations to the DAO, and three compound
 * operations that issue several store mutations in sequence, threading the id
 * the first insert generates into the rows that follow.
 *
 * Each compound operation's effect on the store is a function of `Tables`
 * (`AfterInsertProjectWithSteps`, `AfterUpdateProjectWithSteps`,
 * `AfterSaveTemplate`); the lemmas state what those effects guarantee, and
 * the class `ChecklistRepository` performs them on a `ChecklistDao`.
 */
module Repository {
  import opened Wrappers
  import opened Seqs
  import opened Entities
  import opened Domain
  import opened Mappers
  import opened Dao

  /** `steps.map { it.copy(stepId = 0, projectOwnerId = owner) }`: copies of rows, ready to insert under `owner`. */
  function Reowned(es: seq<StepEntity>, owner: int): (r: seq<StepEntity>)
    ensures |r| == |es|
    ensures forall i :: 0 <= i < |es| ==> r[i] == es[i].(stepId := Unassigned, projectOwnerId := owner)
  {
    seq(|es|, i requires 0 <= i < |es| => es[i].(stepId := Unassigned, projectOwnerId := owner))
  }

  /** The project row `insertProjectWithSteps` and `updateProjectWithSteps` write. */
  function ProjectRow(projectId: int, name: string, description: string, isTemplate: bool): ProjectEntity {
    ProjectEntity(projectId, name, description, isTemplate)
  }

  /** `insertProjectWithSteps`: insert the project, then its steps under the id it received. */
  function AfterInsertProjectWithSteps(t: Tables, name: string, description: string, steps: seq<Step>, isTemplate: bool): Tables {
    var (t1, id) := t.InsertProject(ProjectRow(Unassigned, name, description, isTemplate));
    t1.InsertSteps(StepsToEntities(steps, id))
  }

  /** `updateProjectWithSteps`: overwrite the project row, delete all its steps, insert the new list. */
  function AfterUpdateProjectWithSteps(t: Tables, projectId: int, name: string, description: string, steps: seq<Step>, isTemplate: bool): Tables {
    t.UpdateProject(ProjectRow(projectId, name, description, isTemplate))
     .DeleteStepsByProjectId(projectId)
     .InsertSteps(StepsToEntities(steps, projectId))
  }

  /** `saveTemplateProjectWithSteps`: insert a template with the source's name and description, then copies of its steps. */
  function AfterSaveTemplate(t: Tables, source: ProjectWithSteps): Tables {
    var (t1, id) := t.InsertProject(ProjectRow(Unassigned, source.project.name, source.project.description, true));
    t1.InsertSteps(Reowned(source.steps, id))
  }

  /**
   * The shape shared by the inserting operations: a new project row `e`, then
   * the rows `es`, all owned by the id the project receives. The store stays
   * valid, the new project owns exactly `es` (freshly numbered, in order), and
   * every other project keeps the steps it had.
   */
  lemma InsertWithSteps(t: Tables, e: ProjectEntity, es: seq<StepEntity>)
    requires t.Valid() && e.projectId == Unassigned
    requires forall x :: x in es ==> x.stepId == Unassigned && x.projectOwnerId == t.nextProjectId
    ensures var (t1, id) := t.InsertProject(e);
      var r := t1.InsertSteps(es);
      && r.Valid()
      && (forall p :: p in r.projects <==> p in t.projects || p == e.(projectId := id))
      && r.StepsForProject(id) == Assigned(es, t.nextStepId)
      && (forall s :: s in r.StepsForProject(id) ==> s.stepId !in t.StepIds())
      && (forall q :: q != id ==> r.StepsForProject(q) == t.StepsForProject(q))
  {
    NewProjectOwnsBatch(t, e, es);
    OtherProjectsKeepSteps(t, e, es);
  }

  lemma NewProjectOwnsBatch(t: Tables, e: ProjectEntity, es: seq<StepEntity>)
    requires t.Valid() && e.projectId == Unassigned
    requires forall x :: x in es ==> x.stepId == Unassigned && x.projectOwnerId == t.nextProjectId
    ensures var (t1, id) := t.InsertProject(e);
      && t1.InsertSteps(es).StepsForProject(id) == Assigned(es, t.nextStepId)
      && (forall s :: s in Assigned(es, t.nextStepId) ==> s.stepId !in t.StepIds())
  {
    var (t1, id) := t.InsertProject(e);
    t1.InsertStepsQuery(es, id);
    AssignedOwned(es, t.nextStepId, id);
    t.CounterIsFresh();
    t.AbsentOwnsNothing(id);
  }

  lemma OtherProjectsKeepSteps(t: Tables, e: ProjectEntity, es: seq<StepEntity>)
    requires t.Valid() && e.projectId == Unassigned
    requires forall x :: x in es ==> x.stepId == Unassigned && x.projectOwnerId == t.nextProjectId
    ensures var (t1, id) := t.InsertProject(e);
      forall q :: q != id ==> t1.InsertSteps(es).StepsForProject(q) == t.StepsForProject(q)
  {
    var (t1, id) := t.InsertProject(e);
    AssignedOwned(es, t.nextStepId, id);
    forall q | q != id ensures t1.InsertSteps(es).StepsForProject(q) == t.StepsForProject(q) {
      t1.InsertStepsQuery(es, q);
    }
  }

  /**
   * `insertProjectWithSteps` adds exactly one project, with a fresh id and the
   * given name, description and flag; that project owns one new step per
   * input step, with the same names and descriptions in the same order and
   * with fresh ids (the domain ids are ignored); no other project's steps change.
   */
  lemma InsertProjectWithStepsAdds(t: Tables, name: string, description: string, steps: seq<Step>, isTemplate: bool)
    requires t.Valid()
    ensures var r := AfterInsertProjectWithSteps(t, name, description, steps, isTemplate);
      var id := t.nextProjectId;
      && r.Valid()
      && id !in t.ProjectIds()
      && (forall p :: p in r.projects <==> p in t.projects || p == ProjectRow(id, name, description, isTemplate))
      && SameContents(StepsToDomain(r.StepsForProject(id)), steps)
      && (forall s :: s in r.StepsForProject(id) ==> s.stepId !in t.StepIds())
      && (forall q :: q != id ==> r.StepsForProject(q) == t.StepsForProject(q))
  {
    var es := StepsToEntities(steps, t.nextProjectId);
    InsertWithSteps(t, ProjectRow(Unassigned, name, description, isTemplate), es);
  }

  /**
   * `saveTemplateProjectWithSteps(source)` adds one template row, with a fresh
   * id and the source's name and description unchanged; it owns copies of the
   * source's steps, freshly numbered, in order. Every row that existed stays as
   * it was, so the source project and its steps are untouched.
   */
  lemma SaveTemplateClones(t: Tables, source: ProjectWithSteps)
    requires t.Valid()
    ensures var r := AfterSaveTemplate(t, source);
      var id := t.nextProjectId;
      && r.Valid()
      && id !in t.ProjectIds()
      && (forall p :: p in r.projects <==>
            p in t.projects || p == ProjectRow(id, source.project.name, source.project.description, true))
      && SameContents(StepsToDomain(r.StepsForProject(id)), StepsToDomain(source.steps))
      && (forall s :: s in r.StepsForProject(id) ==> s.stepId !in t.StepIds())
      && (forall q :: q != id ==> r.StepsForProject(q) == t.StepsForProject(q))
  {
    var es := Reowned(source.steps, t.nextProjectId);
    InsertWithSteps(t, ProjectRow(Unassigned, source.project.name, source.project.description, true), es);
  }

  /**
   * `updateProjectWithSteps(id, …, steps, isTemplate)` on a stored project:
   * the row now holds the given name, description and flag; its steps are the
   * given list by name and description, in order, every one freshly numbered
   * (none of the project's earlier step ids survives); every other project and
   * every other project's steps are unchanged.
   */
  lemma UpdateProjectWithStepsReplaces(t: Tables, projectId: int, name: string, description: string, steps: seq<Step>, isTemplate: bool)
    requires t.Valid() && projectId in t.ProjectIds()
    ensures var r := AfterUpdateProjectWithSteps(t, projectId, name, description, steps, isTemplate);
      && r.Valid()
      && r.ProjectIds() == t.ProjectIds()
      && r.ProjectById(projectId) == Some(ProjectRow(projectId, name, description, isTemplate))
      && (forall p: ProjectEntity :: p.projectId != projectId ==> (p in r.projects <==> p in t.projects))
      && SameContents(StepsToDomain(r.StepsForProject(projectId)), steps)
      && (forall s :: s in r.StepsForProject(projectId) ==> s.stepId !in t.StepIds())
      && (forall q :: q != projectId ==> r.StepsForProject(q) == t.StepsForProject(q))
  {
    UpdatedRow(t, projectId, name, description, steps, isTemplate);
    UpdatedSteps(t, projectId, name, description, steps, isTemplate);
    BatchContents(steps, projectId, t.nextStepId);
  }

  /** Numbering a batch of converted domain steps keeps their names and descriptions, in order. */
  lemma BatchContents(steps: seq<Step>, owner: int, first: int)
    ensures SameContents(StepsToDomain(Assigned(StepsToEntities(steps, owner), first)), steps)
  {
  }

  lemma UpdatedRow(t: Tables, projectId: int, name: string, description: string, steps: seq<Step>, isTemplate: bool)
    requires t.Valid() && projectId in t.ProjectIds()
    ensures var r := AfterUpdateProjectWithSteps(t, projectId, name, description, steps, isTemplate);
      && r.Valid()
      && r.ProjectIds() == t.ProjectIds()
      && r.ProjectById(projectId) == Some(ProjectRow(projectId, name, description, isTemplate))
      && (forall p: ProjectEntity :: p.projectId != projectId ==> (p in r.projects <==> p in t.projects))
  {
    var row := ProjectRow(projectId, name, description, isTemplate);
    var r := AfterUpdateProjectWithSteps(t, projectId, name, description, steps, isTemplate);
    assert row in r.projects;
    r.ProjectByIdFinds(row);
  }

  lemma UpdatedSteps(t: Tables, projectId: int, name: string, description: string, steps: seq<Step>, isTemplate: bool)
    requires t.Valid() && projectId in t.ProjectIds()
    ensures var r := AfterUpdateProjectWithSteps(t, projectId, name, description, steps, isTemplate);
      && r.StepsForProject(projectId) == Assigned(StepsToEntities(steps, projectId), t.nextStepId)
      && (forall s :: s in r.StepsForProject(projectId) ==> s.stepId !in t.StepIds())
      && (forall q :: q != projectId ==> r.StepsForProject(q) == t.StepsForProject(q))
  {
    var t2 := t.UpdateProject(ProjectRow(projectId, name, description, isTemplate)).DeleteStepsByProjectId(projectId);
    var es := StepsToEntities(steps, projectId);
    AssignedOwned(es, t2.nextStepId, projectId);
    t2.InsertStepsQuery(es, projectId);
    forall q | q != projectId
      ensures t2.InsertSteps(es).StepsForProject(q) == t.StepsForProject(q)
    {
      t2.InsertStepsQuery(es, q);
    }
    t.CounterIsFresh();
  }

  /**
   * `updateProjectWithSteps` on an id no row carries, with no steps to insert,
   * changes nothing (`@Update` matches no row; nothing is owned by the id).
   */
  lemma UpdateAbsentProjectIsNoOp(t: Tables, projectId: int, name: string, description: string, isTemplate: bool)
    requires t.Valid() && projectId !in t.ProjectIds()
    ensures AfterUpdateProjectWithSteps(t, projectId, name, description, [], isTemplate) == t
  {
    var t2 := t.UpdateProject(ProjectRow(projectId, name, description, isTemplate)).DeleteStepsByProjectId(projectId);
    FilterAll(t.steps, NotOwnedBy(projectId));
    assert t2 == t;
    assert t2.InsertSteps([]).steps == t2.steps + [];
  }

  /**
   * Without an explicit `isTemplate`, `updateProjectWithSteps` writes `false`:
   * updating a template row this way turns it into a live project.
   */
  lemma UpdateClearsTemplateFlag(t: Tables, template: ProjectEntity, name: string, description: string, steps: seq<Step>)
    requires t.Valid() && template in t.projects && template.isTemplate
    ensures var r := AfterUpdateProjectWithSteps(t, template.projectId, name, description, steps, false);
      && r.ProjectById(template.projectId).Some?
      && !r.ProjectById(template.projectId).value.isTemplate
      && template !in r.projects
      && r.AllTemplates() != t.AllTemplates()
  {
    var r := AfterUpdateProjectWithSteps(t, template.projectId, name, description, steps, false);
    UpdateProjectWithStepsReplaces(t, template.projectId, name, description, steps, false);
    var got := r.ProjectById(template.projectId).value;
    if template in r.projects {
      UniqueKeys(r.projects, ProjectKey, template, got);
    }
    assert template in t.AllTemplates();
  }

  /**
   * The repository over one DAO. Every method is one launched coroutine run to
   * completion: the DAO calls it makes happen in order, with nothing in between.
   */
  class ChecklistRepository {
    const dao: ChecklistDao

    constructor (dao: ChecklistDao)
      ensures this.dao == dao
    {
      this.dao := dao;
    }

    predicate Valid()
      reads dao
    {
      dao.Valid()
    }

    // ----- one-call delegations -----

    method InsertProject(project: ProjectEntity) returns (id: int)
      requires Valid() && project.projectId == Unassigned
      modifies dao
      ensures Valid() && (dao.State(), id) == old(dao.State()).InsertProject(project)
    {
      id := dao.InsertProject(project);
    }

    method DeleteProject(project: ProjectEntity)
      requires Valid()
      modifies dao
      ensures Valid() && dao.State() == old(dao.State()).DeleteProject(project.projectId)
    {
      dao.DeleteProject(project);
    }

    method InsertSteps(steps: seq<StepEntity>)
      requires Valid()
      requires forall e :: e in steps ==> e.stepId == Unassigned && e.projectOwnerId in dao.State().ProjectIds()
      modifies dao
      ensures Valid() && dao.State() == old(dao.State()).InsertSteps(steps)
    {
      dao.InsertSteps(steps);
    }

    method DeleteStepsByProjectId(projectId: int)
      requires Valid()
      modifies dao
      ensures Valid() && dao.State() == old(dao.State()).DeleteStepsByProjectId(projectId)
    {
      dao.DeleteStepsByProjectId(projectId);
    }

    method DeleteStep(stepId: int)
      requires Valid()
      modifies dao
      ensures Valid() && dao.State() == old(dao.State()).DeleteStep(stepId)
    {
      dao.DeleteStep(stepId);
    }

    method DeleteTemplateByName(name: string)
      requires Valid()
      modifies dao
      ensures Valid() && dao.State() == old(dao.State()).DeleteTemplateByName(name)
    {
      dao.DeleteTemplateByName(name);
    }

    /** Relies on the cascade for the steps. */
    method DeleteProjectWithSteps(projectId: int)
      requires Valid()
      modifies dao
      ensures Valid() && dao.State() == old(dao.State()).DeleteProject(projectId)
    {
      dao.DeleteProjectWithStepsById(projectId);
    }

    // ----- compound operations -----

    method SaveTemplateProjectWithSteps(source: ProjectWithSteps)
      requires Valid()
      modifies dao
      ensures Valid() && dao.State() == AfterSaveTemplate(old(dao.State()), source)
    {
      var cloned := ProjectEntity(name := source.project.name, description := source.project.description, isTemplate := true);
      var newProjectId := dao.InsertProject(cloned);
      var clonedSteps := Reowned(source.steps, newProjectId);
      dao.InsertSteps(clonedSteps);
    }

    method InsertProjectWithSteps(name: string, description: string, steps: seq<Step>, isTemplate: bool)
      requires Valid()
      modifies dao
      ensures Valid() && dao.State() == AfterInsertProjectWithSteps(old(dao.State()), name, description, steps, isTemplate)
    {
      var projectEntity := ProjectEntity(name := name, description := description, isTemplate := isTemplate);
      var projectId := dao.InsertProject(projectEntity);
      var stepEntities := StepsToEntities(steps, projectId);
      dao.InsertSteps(stepEntities);
    }

    /**
     * Steps can only be inserted under a stored project: on an absent id with a
     * non-empty list the final insert breaks the foreign key, so callers pass a
     * stored id or no steps.
     */
    method UpdateProjectWithSteps(projectId: int, name: string, description: string, steps: seq<Step>, isTemplate: bool)
      requires Valid()
      requires projectId in dao.State().ProjectIds() || steps == []
      modifies dao
      ensures Valid() && dao.State() == AfterUpdateProjectWithSteps(old(dao.State()), projectId, name, description, steps, isTemplate)
    {
      var updatedProject := ProjectEntity(projectId := projectId, name := name, description := description, isTemplate := isTemplate);
      dao.UpdateProject(updatedProject);
      dao.DeleteStepsByProjectId(projectId);
      var newSteps := StepsToEntities(steps, projectId);
      dao.InsertSteps(newSteps);
    }
  }
}
