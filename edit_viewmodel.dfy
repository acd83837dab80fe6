/**
 * The project editor: a form state (`ProjectEditUiState`) that the setters and
 * the step-list operations rewrite, a load from the store when the editor is
 * opened on an existing id, and a save that either inserts a new project or
 * replaces the stored one.
 */
module EditViewModel {
  import opened Wrappers
  import opened Seqs
  import opened Entities
  import opened Domain
  import opened Mappers
  import opened Dao
  import opened Repository

  /** The editor's form; a fresh form is all defaults: empty texts, hidden fields, no steps. */
  datatype ProjectEditUiState = ProjectEditUiState(
    projectName: string := "",
    projectDesc: string := "",
    showProjectDescField: bool := false,
    stepName: string := "",
    stepDesc: string := "",
    showStepDescField: bool := false,
    steps: seq<Step> := [],
    showStepForm: bool := false)

  /**
   * One emission of the load: the stored project's name and description and
   * its steps (in the order the steps query returns them) replace those of
   * the form; an absent project leaves the form as it is.
   */
  function LoadedUiState(t: Tables, ui: ProjectEditUiState, projectId: int): ProjectEditUiState {
    match t.ProjectById(projectId)
    case None => ui
    case Some(p) => ui.(projectName := p.name, projectDesc := p.description,
                        steps := StepsToDomain(t.StepsForProject(projectId)))
  }

  /** The form once the editor has opened: blank for a new project, loaded for an existing id. */
  function InitialUiState(t: Tables, projectId: Option<int>): ProjectEditUiState {
    match projectId
    case None => ProjectEditUiState()
    case Some(id) => LoadedUiState(t, ProjectEditUiState(), id)
  }

  /** `saveProject`: update the opened id (flag written as `false`), or insert a new live project. */
  function SaveEffect(t: Tables, projectId: Option<int>, ui: ProjectEditUiState): Tables {
    match projectId
    case Some(id) => AfterUpdateProjectWithSteps(t, id, ui.projectName, ui.projectDesc, ui.steps, false)
    case None => AfterInsertProjectWithSteps(t, ui.projectName, ui.projectDesc, ui.steps, false)
  }

  /** The steps with every id reset to 0, the rest kept. */
  function WithoutStepIds(steps: seq<Step>): (r: seq<Step>)
    ensures SameContents(r, steps)
    ensures forall s :: s in r ==> s.stepId == Unassigned
  {
    var r := seq(|steps|, i requires 0 <= i < |steps| => steps[i].(stepId := Unassigned));
    assert forall s :: s in r ==> s.stepId == Unassigned by {
      forall s | s in r ensures s.stepId == Unassigned {
        var i :| 0 <= i < |r| && r[i] == s;
      }
    }
    r
  }

  /** A fresh editor's form: empty name, description and drafts, hidden fields, no steps. */
  lemma InitialFormIsBlank(t: Tables)
    ensures var ui := InitialUiState(t, None);
      ui.projectName == "" && ui.projectDesc == "" && ui.stepName == "" && ui.stepDesc == ""
      && ui.steps == [] && !ui.showProjectDescField && !ui.showStepDescField && !ui.showStepForm
  {
  }

  /**
   * Opening the editor on a stored project copies its name and description,
   * and lists exactly the steps it owns, each with its id, name and
   * description, in ascending id order.
   */
  lemma LoadCopiesProject(t: Tables, p: ProjectEntity)
    requires t.Valid() && p in t.projects
    ensures var ui := InitialUiState(t, Some(p.projectId));
      && ui.projectName == p.name && ui.projectDesc == p.description
      && StrictlyIncreasing(ui.steps, StepIdOf)
      && (forall s :: s in t.steps && s.projectOwnerId == p.projectId ==> StepToDomain(s) in ui.steps)
      && (forall d :: d in ui.steps ==>
            t.StepById(d.stepId).Some? && t.StepById(d.stepId).value.projectOwnerId == p.projectId
            && StepToDomain(t.StepById(d.stepId).value) == d)
  {
    t.ProjectByIdFinds(p);
    var rows := t.StepsForProject(p.projectId);
    var ui := InitialUiState(t, Some(p.projectId));
    StepsToDomainOrdered(rows);
    forall s | s in t.steps && s.projectOwnerId == p.projectId ensures StepToDomain(s) in ui.steps {
      var i :| 0 <= i < |rows| && rows[i] == s;
      assert ui.steps[i] == StepToDomain(s);
    }
    forall d | d in ui.steps
      ensures t.StepById(d.stepId).Some? && t.StepById(d.stepId).value.projectOwnerId == p.projectId
      && StepToDomain(t.StepById(d.stepId).value) == d
    {
      var i :| 0 <= i < |ui.steps| && ui.steps[i] == d;
      assert rows[i] in rows;
      t.StepByIdFinds(rows[i]);
    }
  }

  /** Opening the editor on an id no row carries leaves the form blank. */
  lemma LoadAbsentIsBlank(t: Tables, projectId: int)
    requires projectId !in t.ProjectIds()
    ensures InitialUiState(t, Some(projectId)) == ProjectEditUiState()
  {
  }

  /**
   * What a save stores depends on the form's name, description and step
   * contents only: the step ids held in the form never reach the store.
   */
  lemma SaveIgnoresStepIds(t: Tables, projectId: Option<int>, a: ProjectEditUiState, b: ProjectEditUiState)
    requires a.projectName == b.projectName && a.projectDesc == b.projectDesc
    requires SameContents(a.steps, b.steps)
    ensures SaveEffect(t, projectId, a) == SaveEffect(t, projectId, b)
  {
    match projectId
    case Some(id) => StepsToEntitiesIgnoresIds(a.steps, b.steps, id);
    case None => StepsToEntitiesIgnoresIds(a.steps, b.steps, t.nextProjectId);
  }

  /** Resetting the form's step ids (the template-copy branch of the load) changes nothing a save stores. */
  lemma ResetIdsDoesNotChangeSave(t: Tables, projectId: Option<int>, ui: ProjectEditUiState)
    ensures SaveEffect(t, projectId, ui.(steps := WithoutStepIds(ui.steps))) == SaveEffect(t, projectId, ui)
  {
    SaveIgnoresStepIds(t, projectId, ui.(steps := WithoutStepIds(ui.steps)), ui);
  }

  /**
   * Saving a new project stores one new live project with the form's name and
   * description, owning steps with the form's step contents in order under
   * fresh ids, and leaves every earlier project and every other project's
   * steps in place.
   */
  lemma SaveNewInserts(t: Tables, ui: ProjectEditUiState)
    requires t.Valid()
    ensures var r := SaveEffect(t, None, ui);
      var id := t.nextProjectId;
      && r.Valid()
      && id !in t.ProjectIds()
      && (forall p :: p in r.projects <==> p in t.projects || p == ProjectEntity(id, ui.projectName, ui.projectDesc, false))
      && SameContents(StepsToDomain(r.StepsForProject(id)), ui.steps)
      && (forall s :: s in r.StepsForProject(id) ==> s.stepId !in t.StepIds())
      && (forall q :: q != id ==> r.StepsForProject(q) == t.StepsForProject(q))
  {
    InsertProjectWithStepsAdds(t, ui.projectName, ui.projectDesc, ui.steps, false);
  }

  /**
   * Saving an opened project rewrites that row with the form's name and
   * description as a live project and replaces its steps by the form's; no
   * project is added or removed.
   */
  lemma SaveExistingReplaces(t: Tables, projectId: int, ui: ProjectEditUiState)
    requires t.Valid() && projectId in t.ProjectIds()
    ensures var r := SaveEffect(t, Some(projectId), ui);
      && r.Valid()
      && r.ProjectIds() == t.ProjectIds()
      && r.ProjectById(projectId) == Some(ProjectEntity(projectId, ui.projectName, ui.projectDesc, false))
      && SameContents(StepsToDomain(r.StepsForProject(projectId)), ui.steps)
  {
    UpdateProjectWithStepsReplaces(t, projectId, ui.projectName, ui.projectDesc, ui.steps, false);
  }

  /**
   * "Use this template" opens the editor on the template's own id, so saving
   * updates the template row: no project is created, and the template is
   * turned into a live project, so it leaves the template list.
   */
  lemma UseTemplateOverwritesTemplate(t: Tables, template: ProjectEntity, ui: ProjectEditUiState)
    requires t.Valid() && template in t.projects && template.isTemplate
    ensures var r := SaveEffect(t, Some(template.projectId), ui);
      && r.ProjectIds() == t.ProjectIds()
      && template !in r.projects
      && !r.ProjectById(template.projectId).value.isTemplate
      && r.AllTemplates() != t.AllTemplates()
  {
    UpdateProjectWithStepsReplaces(t, template.projectId, ui.projectName, ui.projectDesc, ui.steps, false);
    UpdateClearsTemplateFlag(t, template, ui.projectName, ui.projectDesc, ui.steps);
  }

  /** The save a template copy calls for: a new project from the form; any other editor saves as before. */
  function IntendedSaveEffect(t: Tables, projectId: Option<int>, isTemplateCopy: bool, ui: ProjectEditUiState): Tables {
    if isTemplateCopy then AfterInsertProjectWithSteps(t, ui.projectName, ui.projectDesc, ui.steps, false)
    else SaveEffect(t, projectId, ui)
  }

  /**
   * Saving a template copy the intended way leaves the template row and its
   * steps as they were and adds a new live project holding the form's
   * contents.
   */
  lemma IntendedSaveKeepsTemplate(t: Tables, template: ProjectEntity, ui: ProjectEditUiState)
    requires t.Valid() && template in t.projects && template.isTemplate
    ensures var r := IntendedSaveEffect(t, Some(template.projectId), true, ui);
      var id := t.nextProjectId;
      && r.Valid()
      && template in r.projects
      && r.StepsForProject(template.projectId) == t.StepsForProject(template.projectId)
      && ProjectEntity(id, ui.projectName, ui.projectDesc, false) in r.projects
      && id != template.projectId
      && SameContents(StepsToDomain(r.StepsForProject(id)), ui.steps)
      && (forall s :: s in r.StepsForProject(id) ==> s.stepId !in t.StepIds())
      && (forall q :: q != id ==> r.StepsForProject(q) == t.StepsForProject(q))
  {
    InsertProjectWithStepsAdds(t, ui.projectName, ui.projectDesc, ui.steps, false);
  }

  /**
   * The editor. `loaded` is the project row read when the editor opened; each
   * later emission of its steps re-applies that row's name and description.
   */
  class ProjectEditViewModel {
    const repository: ChecklistRepository
    const projectId: Option<int>
    const isTemplateCopy: bool
    var uiState: ProjectEditUiState
    var loaded: Option<ProjectEntity>

    /** Opening the editor, with the load run to its first emission. */
    constructor (repository: ChecklistRepository, projectId: Option<int>, isTemplateCopy: bool)
      ensures this.repository == repository && this.projectId == projectId && this.isTemplateCopy == isTemplateCopy
      ensures loaded == (if projectId.Some? then repository.dao.State().ProjectById(projectId.value) else None)
      ensures uiState == InitialUiState(repository.dao.State(), projectId)
    {
      this.repository := repository;
      this.projectId := projectId;
      this.isTemplateCopy := isTemplateCopy;
      var ui := ProjectEditUiState();
      var found: Option<ProjectEntity> := None;
      if projectId.Some? {
        found := repository.dao.State().ProjectById(projectId.value);
        if found.Some? {
          var rows := repository.dao.State().StepsForProject(projectId.value);
          ui := ui.(projectName := found.value.name, projectDesc := found.value.description,
                    steps := StepsToDomain(rows));
        }
      }
      uiState := ui;
      loaded := found;
    }

    /** A later emission of the steps query: the captured row's texts and the current steps. */
    method OnStepsEmitted()
      requires projectId.Some? && loaded.Some?
      modifies this
      ensures loaded == old(loaded)
      ensures uiState == old(uiState).(projectName := loaded.value.name, projectDesc := loaded.value.description,
                                       steps := StepsToDomain(repository.dao.State().StepsForProject(projectId.value)))
    {
      var rows := repository.dao.State().StepsForProject(projectId.value);
      uiState := uiState.(projectName := loaded.value.name, projectDesc := loaded.value.description,
                          steps := StepsToDomain(rows));
    }

    /**
     * The template-copy branch after the load; it follows a collection that
     * never finishes, so it never runs in the app.
     */
    method ResetStepIdsForTemplateCopy()
      requires isTemplateCopy
      modifies this
      ensures loaded == old(loaded)
      ensures uiState == old(uiState).(steps := WithoutStepIds(old(uiState).steps))
    {
      uiState := uiState.(steps := WithoutStepIds(uiState.steps));
    }

    method UpdateProjectName(name: string)
      modifies this
      ensures loaded == old(loaded) && uiState == old(uiState).(projectName := name)
    {
      uiState := uiState.(projectName := name);
    }

    method UpdateProjectDesc(desc: string)
      modifies this
      ensures loaded == old(loaded) && uiState == old(uiState).(projectDesc := desc)
    {
      uiState := uiState.(projectDesc := desc);
    }

    method UpdateStepName(name: string)
      modifies this
      ensures loaded == old(loaded) && uiState == old(uiState).(stepName := name)
    {
      uiState := uiState.(stepName := name);
    }

    method UpdateStepDesc(desc: string)
      modifies this
      ensures loaded == old(loaded) && uiState == old(uiState).(stepDesc := desc)
    {
      uiState := uiState.(stepDesc := desc);
    }

    /** Appends the draft as a step with id 0 and clears the draft. */
    method AddStep()
      modifies this
      ensures loaded == old(loaded)
      ensures uiState.steps == old(uiState.steps) + [Step(Unassigned, old(uiState.stepName), old(uiState.stepDesc))]
      ensures uiState == old(uiState).(steps := uiState.steps, stepName := "", stepDesc := "", showStepDescField := false)
    {
      var newStep := Step(Unassigned, uiState.stepName, uiState.stepDesc);
      uiState := uiState.(steps := uiState.steps + [newStep], stepName := "", stepDesc := "", showStepDescField := false);
    }

    /** Renames the step at `index`, keeping its id and position; an index out of range throws in the app. */
    method UpdateStep(index: int, newName: string, newDesc: string)
      requires 0 <= index < |uiState.steps|
      modifies this
      ensures loaded == old(loaded)
      ensures |uiState.steps| == |old(uiState.steps)|
      ensures uiState.steps[index] == Step(old(uiState.steps[index].stepId), newName, newDesc)
      ensures forall i :: 0 <= i < |uiState.steps| && i != index ==> uiState.steps[i] == old(uiState.steps[i])
      ensures uiState == old(uiState).(steps := uiState.steps)
    {
      var updatedSteps := uiState.steps;
      updatedSteps := updatedSteps[index := updatedSteps[index].(name := newName, description := newDesc)];
      uiState := uiState.(steps := updatedSteps);
    }

    /** Removes the step at `index` when there is one; otherwise nothing changes. */
    method DeleteStep(index: int)
      modifies this
      ensures loaded == old(loaded)
      ensures 0 <= index < |old(uiState.steps)| ==> uiState == old(uiState).(steps := RemoveAt(old(uiState.steps), index))
      ensures !(0 <= index < |old(uiState.steps)|) ==> uiState == old(uiState)
    {
      var updatedSteps := uiState.steps;
      if 0 <= index < |updatedSteps| {
        updatedSteps := RemoveAt(updatedSteps, index);
        uiState := uiState.(steps := updatedSteps);
      }
    }

    /**
     * Stores the form: an update of the opened id, or an insert when the
     * editor was opened without one. Updating an id that is no longer stored
     * with steps in the form breaks the foreign key, so that case is excluded.
     */
    method SaveProject()
      requires repository.Valid()
      requires projectId.Some? ==> projectId.value in repository.dao.State().ProjectIds() || uiState.steps == []
      modifies repository.dao
      ensures repository.Valid()
      ensures repository.dao.State() == SaveEffect(old(repository.dao.State()), projectId, uiState)
    {
      var current := uiState;
      if projectId.Some? {
        repository.UpdateProjectWithSteps(projectId.value, current.projectName, current.projectDesc, current.steps, false);
      } else {
        repository.InsertProjectWithSteps(current.projectName, current.projectDesc, current.steps, false);
      }
    }
  }
}
