/**
 * The project detail screen: the project it was opened on, read once with its
 * steps, and the actions offered there (save as template, delete a step,
 * delete the project).
 */
module DetailViewModel {
  import opened Wrappers
  import opened Seqs
  import opened Entities
  import opened Domain
  import opened Mappers
  import opened Dao
  import opened Repository

  /** The screen's own conversion of a project with its steps into a domain project. */
  function ToDomainModel(pws: ProjectWithSteps): (r: Project)
    ensures r.projectId == pws.project.projectId && r.name == pws.project.name
    ensures r.description == pws.project.description
    ensures |r.steps| == |pws.steps|
    ensures forall i :: 0 <= i < |r.steps| ==> r.steps[i] == Step(pws.steps[i].stepId, pws.steps[i].name, pws.steps[i].description)
  {
    Project(
      name := pws.project.name,
      description := pws.project.description,
      steps := seq(|pws.steps|, i requires 0 <= i < |pws.steps| =>
        Step(pws.steps[i].stepId, pws.steps[i].name, pws.steps[i].description)),
      projectId := pws.project.projectId)
  }

  /** The screen's conversion and the data layer's mapper give the same project. */
  lemma ToDomainModelIsMapper(pws: ProjectWithSteps)
    ensures ToDomainModel(pws) == ProjectToDomain(pws.project, pws.steps)
  {
    var a := ToDomainModel(pws).steps;
    var b := StepsToDomain(pws.steps);
    assert a == b by {
      forall i | 0 <= i < |a| ensures a[i] == b[i] {
      }
    }
  }

  /** `loadProject`: the first value of the project-with-steps query, converted; null when the project is gone. */
  function LoadedProject(t: Tables, projectId: int): Option<Project> {
    match t.ProjectWithStepsById(projectId)
    case None => None
    case Some(pws) => Some(ToDomainModel(pws))
  }

  /**
   * On a consistent store the screen shows the stored project exactly when it
   * exists, with its name and description, and its steps are the steps it
   * owns, each with id, name and description, in ascending id order.
   */
  lemma LoadedProjectShowsStore(t: Tables, projectId: int)
    requires t.Valid()
    ensures LoadedProject(t, projectId).Some? <==> projectId in t.ProjectIds()
    ensures LoadedProject(t, projectId).Some? ==>
      var p := LoadedProject(t, projectId).value;
      && Some(ProjectEntity(p.projectId, p.name, p.description, t.ProjectById(projectId).value.isTemplate)) == t.ProjectById(projectId)
      && p.steps == StepsToDomain(t.StepsForProject(projectId))
      && StrictlyIncreasing(p.steps, StepIdOf)
      && (forall s :: s in t.steps && s.projectOwnerId == projectId ==> StepToDomain(s) in p.steps)
  {
    if t.ProjectWithStepsById(projectId).Some? {
      var pws := t.ProjectWithStepsById(projectId).value;
      ToDomainModelIsMapper(pws);
      t.ProjectByIdFinds(pws.project);
      var rows := t.StepsForProject(projectId);
      StepsToDomainOrdered(rows);
      forall s | s in t.steps && s.projectOwnerId == projectId ensures StepToDomain(s) in StepsToDomain(rows) {
        var i :| 0 <= i < |rows| && rows[i] == s;
        assert StepsToDomain(rows)[i] == StepToDomain(s);
      }
    }
  }

  /** After deleting a step and reloading, the screen no longer lists a step with that id. */
  lemma ReloadAfterStepDeleteDropsStep(t: Tables, projectId: int, stepId: int)
    requires t.Valid()
    ensures LoadedProject(t.DeleteStep(stepId), projectId).Some? ==>
      forall s :: s in LoadedProject(t.DeleteStep(stepId), projectId).value.steps ==> s.stepId != stepId
  {
    var r := t.DeleteStep(stepId);
    if LoadedProject(r, projectId).Some? {
      LoadedProjectShowsStore(r, projectId);
      var rows := r.StepsForProject(projectId);
      forall s | s in LoadedProject(r, projectId).value.steps ensures s.stepId != stepId {
        var ss := StepsToDomain(rows);
        var i :| 0 <= i < |ss| && ss[i] == s;
        assert rows[i] in rows;
      }
    }
  }

  /**
   * Saving from the detail screen clones the stored project as a template under
   * its own name (no suffix is added here), with copies of its steps; when the
   * project is gone nothing happens.
   */
  function AfterDetailSaveTemplate(t: Tables, projectId: int): Tables {
    match t.ProjectWithStepsById(projectId)
    case None => t
    case Some(pws) => AfterSaveTemplate(t, pws)
  }

  /** The detail screen's template keeps the project's own name, and the project and its steps stay. */
  lemma DetailSaveKeepsName(t: Tables, p: ProjectEntity)
    requires t.Valid() && p in t.projects
    ensures var r := AfterDetailSaveTemplate(t, p.projectId);
      var id := t.nextProjectId;
      && r.Valid()
      && (forall q :: q in r.projects <==> q in t.projects || q == ProjectEntity(id, p.name, p.description, true))
      && SameContents(StepsToDomain(r.StepsForProject(id)), StepsToDomain(t.StepsForProject(p.projectId)))
      && r.StepsForProject(p.projectId) == t.StepsForProject(p.projectId)
  {
    t.ProjectByIdFinds(p);
    var pws := t.ProjectWithStepsById(p.projectId).value;
    SaveTemplateClones(t, pws);
  }

  /** The detail screen's state, for one project id. */
  class ProjectDetailViewModel {
    const repository: ChecklistRepository
    const projectId: int
    var project: Option<Project>
    var isProjectDeleted: bool

    /** Opening the screen, which loads the project. */
    constructor (repository: ChecklistRepository, projectId: int)
      ensures this.repository == repository && this.projectId == projectId
      ensures project == LoadedProject(repository.dao.State(), projectId)
      ensures !isProjectDeleted
    {
      this.repository := repository;
      this.projectId := projectId;
      isProjectDeleted := false;
      var projectWithSteps := repository.dao.State().ProjectWithStepsById(projectId);
      project := if projectWithSteps.Some? then Some(ToDomainModel(projectWithSteps.value)) else None;
    }

    method LoadProject()
      modifies this
      ensures project == LoadedProject(repository.dao.State(), projectId)
      ensures isProjectDeleted == old(isProjectDeleted)
    {
      var projectWithSteps := repository.dao.State().ProjectWithStepsById(projectId);
      project := if projectWithSteps.Some? then Some(ToDomainModel(projectWithSteps.value)) else None;
    }

    method SaveProjectAsTemplate()
      requires repository.Valid()
      modifies repository.dao
      ensures repository.Valid()
      ensures repository.dao.State() == AfterDetailSaveTemplate(old(repository.dao.State()), projectId)
    {
      var projectWithSteps := repository.dao.State().ProjectWithStepsById(projectId);
      if projectWithSteps.None? {
        return;
      }
      repository.SaveTemplateProjectWithSteps(projectWithSteps.value);
    }

    /** Deletes the step, then reloads the project. */
    method DeleteStep(stepId: int)
      requires repository.Valid()
      modifies this, repository.dao
      ensures repository.Valid()
      ensures repository.dao.State() == old(repository.dao.State()).DeleteStep(stepId)
      ensures project == LoadedProject(repository.dao.State(), projectId)
      ensures isProjectDeleted == old(isProjectDeleted)
    {
      repository.DeleteStep(stepId);
      LoadProject();
    }

    /** Deletes the project with its steps and raises the flag the screen navigates away on; the shown project is left as it was. */
    method DeleteProject()
      requires repository.Valid()
      modifies this, repository.dao
      ensures repository.Valid()
      ensures repository.dao.State() == old(repository.dao.State()).DeleteProject(projectId)
      ensures isProjectDeleted && project == old(project)
    {
      repository.DeleteProjectWithSteps(projectId);
      isProjectDeleted := true;
    }
  }
}
