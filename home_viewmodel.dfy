/**
 * The home screen: one tab per live project (templates are filtered out),
 * a selected tab, a flag saying whether the selected project has been saved
 * as a template, and the set of step indices whose description is expanded.
 */
module HomeViewModel {
  import opened Wrappers
  import opened Seqs
  import opened Entities
  import opened Domain
  import opened Mappers
  import opened Dao
  import opened Repository

  /** What the list observer makes of an emission of `getAllProjects`: the live rows, sorted by id. */
  function LiveProjects(all: seq<ProjectEntity>): (r: seq<ProjectEntity>)
    ensures forall p :: p in r <==> p in all && !p.isTemplate
    ensures Ascending(r, ProjectKey)
  {
    var live := Filter(all, IsLiveRow);
    var r := SortBy(live, ProjectKey);
    assert forall p :: p in r <==> p in live by {
      forall p ensures p in r <==> p in live {
        assert p in r <==> p in multiset(r);
        assert p in live <==> p in multiset(live);
      }
    }
    r
  }

  /**
   * On a consistent store the home list is the stored live projects in
   * ascending id order: sorting undoes the query's descending order and
   * nothing is lost or duplicated.
   */
  lemma HomeListIsLiveInIdOrder(t: Tables)
    requires t.Valid()
    ensures LiveProjects(t.AllProjects()) == Filter(t.projects, IsLiveRow)
    ensures StrictlyIncreasing(LiveProjects(t.AllProjects()), ProjectKey)
    ensures forall p :: p in LiveProjects(t.AllProjects()) <==> p in t.projects && !p.isTemplate
  {
    FilterIncreasing(t.projects, IsLiveRow, ProjectKey);
    FilterSameElements(t.AllProjects(), t.projects, IsLiveRow);
    SortedUnique(Filter(t.projects, IsLiveRow), LiveProjects(t.AllProjects()), ProjectKey);
  }

  /** The `selectedProject` getter: the row at the selected tab, if that tab exists. */
  function SelectedProject(projects: seq<ProjectEntity>, index: int): (r: Option<ProjectEntity>)
    ensures r.Some? <==> 0 <= index < |projects|
    ensures r.Some? ==> r.value == projects[index]
  {
    GetOrNull(projects, index)
  }

  /** `checkIfCurrentIsSaved`: the flag is the selected row's own `isTemplate`. */
  function CheckedSaved(projects: seq<ProjectEntity>, index: int): (r: bool)
    ensures r <==> 0 <= index < |projects| && projects[index].isTemplate
  {
    match SelectedProject(projects, index)
    case None => false
    case Some(p) => p.isTemplate
  }

  /**
   * The home list holds live rows only, so the check reports "not saved" for
   * every tab, whatever templates exist.
   */
  lemma CheckNeverReportsSaved(t: Tables, index: int)
    requires t.Valid()
    ensures !CheckedSaved(LiveProjects(t.AllProjects()), index)
  {
    HomeListIsLiveInIdOrder(t);
    var list := LiveProjects(t.AllProjects());
    if 0 <= index < |list| {
      assert list[index] in list;
    }
  }

  /** `toggleStepExpanded`: `i` leaves the set when present and joins it otherwise. */
  function Toggled(expanded: set<int>, i: int): (r: set<int>)
    ensures i in r <==> i !in expanded
    ensures forall j :: j != i ==> (j in r <==> j in expanded)
  {
    if i in expanded then expanded - {i} else expanded + {i}
  }

  /** Toggling the same index twice restores the set. */
  lemma ToggleTwice(expanded: set<int>, i: int)
    ensures Toggled(Toggled(expanded, i), i) == expanded
  {
  }

  /** The row `saveSelectedProjectAsTemplate` inserts: a copy of `p` renamed with the suffix, marked as template. */
  function HomeTemplateRow(p: ProjectEntity): (r: ProjectEntity)
    ensures r.projectId == Unassigned && r.isTemplate && r.description == p.description
    ensures RemoveSuffix(r.name, TemplateSuffix) == p.name
  {
    RemoveAppendedSuffix(p.name, TemplateSuffix);
    p.(projectId := Unassigned, name := p.name + TemplateSuffix, isTemplate := true)
  }

  /**
   * The store after `saveSelectedProjectAsTemplate` for `p`: the template row,
   * then copies of the steps `p` owns, read after the insert, under the new id.
   */
  function AfterHomeSaveTemplate(t: Tables, p: ProjectEntity): Tables {
    var (t1, id) := t.InsertProject(HomeTemplateRow(p));
    t1.InsertSteps(Reowned(t1.StepsForProject(p.projectId), id))
  }

  /**
   * Saving from the home screen is the repository's template save applied to
   * the selected row renamed with the suffix: so it adds one template named
   * `p.name + " (Template)"` with `p`'s description, owning copies of `p`'s
   * steps in order, and leaves every existing row, `p` included, as it was.
   */
  lemma HomeSaveAddsSuffixedTemplate(t: Tables, p: ProjectEntity)
    requires t.Valid()
    ensures var r := AfterHomeSaveTemplate(t, p);
      var id := t.nextProjectId;
      && AfterHomeSaveTemplate(t, p) == AfterSaveTemplate(t, ProjectWithSteps(p.(name := p.name + TemplateSuffix), t.StepsForProject(p.projectId)))
      && r.Valid()
      && (forall q :: q in r.projects <==> q in t.projects || q == ProjectEntity(id, p.name + TemplateSuffix, p.description, true))
      && SameContents(StepsToDomain(r.StepsForProject(id)), StepsToDomain(t.StepsForProject(p.projectId)))
      && (forall q :: q != id ==> r.StepsForProject(q) == t.StepsForProject(q))
  {
    SaveTemplateClones(t, ProjectWithSteps(p.(name := p.name + TemplateSuffix), t.StepsForProject(p.projectId)));
  }

  /**
   * `deleteSelectedProject`: the project goes (its steps with it, by cascade),
   * then the steps it owned are deleted again; the second delete finds none.
   */
  function AfterDeleteSelected(t: Tables, projectId: int): Tables {
    t.DeleteProject(projectId).DeleteStepsByProjectId(projectId)
  }

  /** The explicit step delete after the project delete changes nothing. */
  lemma DeleteSelectedIsProjectDelete(t: Tables, projectId: int)
    ensures AfterDeleteSelected(t, projectId) == t.DeleteProject(projectId)
  {
    var r := t.DeleteProject(projectId);
    FilterAll(r.steps, NotOwnedBy(projectId));
  }

  /**
   * Whether a template saved from the home screen for `p` exists: one with
   * the suffixed name. This is what the flag is documented to track.
   */
  predicate HomeTemplateExists(t: Tables, p: ProjectEntity) {
    exists q :: q in t.AllTemplates() && q.name == p.name + TemplateSuffix
  }

  /**
   * With the flag computed as `HomeTemplateExists`, a second save of the same
   * project is refused: once saved, the flag stays set on the following emission.
   */
  lemma IntendedFlagSetAfterSave(t: Tables, p: ProjectEntity)
    requires t.Valid()
    ensures HomeTemplateExists(AfterHomeSaveTemplate(t, p), p)
  {
    HomeSaveAddsSuffixedTemplate(t, p);
    var r := AfterHomeSaveTemplate(t, p);
    assert ProjectEntity(t.nextProjectId, p.name + TemplateSuffix, p.description, true) in r.AllTemplates();
  }

  /**
   * As written, the flag set by a save is recomputed from the selected row on
   * the next recomputation (a tab switch or a later list emission), and comes
   * back false: the "already saved" guard lets the same project be saved again.
   */
  lemma SavedFlagResetByNextEmission(t: Tables, p: ProjectEntity, index: int)
    requires t.Valid()
    ensures !CheckedSaved(LiveProjects(AfterHomeSaveTemplate(t, p).AllProjects()), index)
    ensures HomeTemplateExists(AfterHomeSaveTemplate(t, p), p)
  {
    HomeSaveAddsSuffixedTemplate(t, p);
    CheckNeverReportsSaved(AfterHomeSaveTemplate(t, p), index);
    IntendedFlagSetAfterSave(t, p);
  }

  /** The home screen's state, over the repository it reads and writes. */
  class HomeViewModel {
    const repository: ChecklistRepository
    var projects: seq<ProjectEntity>
    var selectedProjectIndex: int
    var isTemplateSaved: bool
    var expandedSteps: set<int>

    constructor (repository: ChecklistRepository)
      ensures this.repository == repository
      ensures projects == [] && selectedProjectIndex == 0 && !isTemplateSaved && expandedSteps == {}
    {
      this.repository := repository;
      projects := [];
      selectedProjectIndex := 0;
      isTemplateSaved := false;
      expandedSteps := {};
    }

    /** One emission of the observed project list, followed by the saved-check. */
    method OnProjectsChanged()
      modifies this
      ensures projects == LiveProjects(repository.dao.State().AllProjects())
      ensures isTemplateSaved == CheckedSaved(projects, selectedProjectIndex)
      ensures selectedProjectIndex == old(selectedProjectIndex) && expandedSteps == old(expandedSteps)
    {
      var list := Filter(repository.dao.State().AllProjects(), IsLiveRow);
      projects := SortBy(list, ProjectKey);
      CheckIfCurrentIsSaved();
    }

    method OnProjectSelected(index: int)
      modifies this
      ensures selectedProjectIndex == index
      ensures isTemplateSaved == CheckedSaved(projects, index)
      ensures projects == old(projects) && expandedSteps == old(expandedSteps)
    {
      selectedProjectIndex := index;
      CheckIfCurrentIsSaved();
    }

    method CheckIfCurrentIsSaved()
      modifies this
      ensures isTemplateSaved == CheckedSaved(projects, selectedProjectIndex)
      ensures projects == old(projects) && selectedProjectIndex == old(selectedProjectIndex)
      ensures expandedSteps == old(expandedSteps)
    {
      var project := SelectedProject(projects, selectedProjectIndex);
      isTemplateSaved := project.Some? && project.value.isTemplate;
    }

    /** Does nothing without a selected tab or when the flag is set; otherwise clones the selected row as a template. */
    method SaveSelectedProjectAsTemplate()
      requires repository.Valid()
      modifies this, repository.dao
      ensures repository.Valid()
      ensures var project := SelectedProject(old(projects), old(selectedProjectIndex));
        if project.None? || old(isTemplateSaved) then
          repository.dao.State() == old(repository.dao.State()) && isTemplateSaved == old(isTemplateSaved)
        else
          repository.dao.State() == AfterHomeSaveTemplate(old(repository.dao.State()), project.value) && isTemplateSaved
      ensures projects == old(projects) && selectedProjectIndex == old(selectedProjectIndex)
      ensures expandedSteps == old(expandedSteps)
    {
      var project := SelectedProject(projects, selectedProjectIndex);
      if project.None? {
        return;
      }
      if isTemplateSaved {
        return;
      }
      var template := HomeTemplateRow(project.value);
      var newProjectId := repository.InsertProject(template);
      var originalSteps := repository.dao.State().StepsForProject(project.value.projectId);
      var clonedSteps := Reowned(originalSteps, newProjectId);
      repository.InsertSteps(clonedSteps);
      isTemplateSaved := true;
    }

    method ToggleStepExpanded(index: int)
      modifies this
      ensures expandedSteps == Toggled(old(expandedSteps), index)
      ensures projects == old(projects) && selectedProjectIndex == old(selectedProjectIndex)
      ensures isTemplateSaved == old(isTemplateSaved)
    {
      if index in expandedSteps {
        expandedSteps := expandedSteps - {index};
      } else {
        expandedSteps := expandedSteps + {index};
      }
    }

    /** Deletes the selected project and its steps and goes back to the first tab; nothing without a selection. */
    method DeleteSelectedProject()
      requires repository.Valid()
      modifies this, repository.dao
      ensures repository.Valid()
      ensures var project := SelectedProject(old(projects), old(selectedProjectIndex));
        if project.None? then
          repository.dao.State() == old(repository.dao.State()) && selectedProjectIndex == old(selectedProjectIndex)
        else
          repository.dao.State() == AfterDeleteSelected(old(repository.dao.State()), project.value.projectId)
          && selectedProjectIndex == 0
      ensures projects == old(projects) && isTemplateSaved == old(isTemplateSaved)
      ensures expandedSteps == old(expandedSteps)
    {
      var project := SelectedProject(projects, selectedProjectIndex);
      if project.None? {
        return;
      }
      repository.DeleteProject(project.value);
      repository.DeleteStepsByProjectId(project.value.projectId);
      selectedProjectIndex := 0;
    }

    method DeleteStep(stepId: int)
      requires repository.Valid()
      modifies repository.dao
      ensures repository.Valid()
      ensures repository.dao.State() == old(repository.dao.State()).DeleteStep(stepId)
    {
      repository.DeleteStep(stepId);
    }
  }
}
