# Checklist: a verified model of the data layer and screen logic

Checklist is an Android app for projects made of ordered steps. A project can
be saved as a template, and a template can be used to start a new project.
This Dafny project models the app's core:

- the Room store: two tables, `projects` and `steps`. A foreign key ties each
  step to its owner project, and deleting a project deletes its steps by cascade;
- the DAO queries and updates on that store;
- the entity/domain mappers;
- the repository's compound operations;
- the logic of the four screens that change data: home, project detail,
  project editor and saved templates.

Layout, one module per file:

| file | module | models |
|---|---|---|
| `wrappers.dfy` | `Wrappers` | `Option` (Kotlin's nullable results) |
| `seqs.dfy` | `Seqs` | the list operations the code uses: `filter`, `sortedBy`, `getOrNull`, `removeAt`, `removeSuffix`, SQL ordering and lookup by key |
| `entities.dfy` | `Entities` | `ProjectEntity`, `StepEntity`, `ProjectWithSteps` |
| `domain.dfy` | `Domain` | `Project`, `Step`, `ProjectHeader` |
| `mappers.dfy` | `Mappers` | the conversions between entities and domain objects |
| `dao.dfy` | `Dao` | the store (`Tables`, a value) and `ChecklistDao` (a class whose fields are the tables) |
| `repository.dfy` | `Repository` | `ChecklistRepository` and the effect of each compound operation |
| `edit_viewmodel.dfy` | `EditViewModel` | `ProjectEditViewModel` and its `ProjectEditUiState` |
| `home_viewmodel.dfy` | `HomeViewModel` | `HomeViewModel` |
| `templates_viewmodel.dfy` | `TemplatesViewModel` | `SavedTemplatesViewModel` |
| `detail_viewmodel.dfy` | `DetailViewModel` | `ProjectDetailViewModel` |

**The store.** The store is a value of type `Dao.Tables`. It holds:

- each table as a sequence of rows in insertion order;
- the two AUTOINCREMENT counters.

Ids are handed out in increasing order, so insertion order is ascending-id
order. SQLite returns a rowid table in that order when a query names none.
This order is used for `getAllTemplates` and for the steps of the
`@Relation`.

`Tables.Valid()` is the database's integrity:

- ids are unique, increasing, non-zero and below the counter;
- every step's owner is a stored project.

Every DAO operation is a `Tables` function, and each is proved to keep
`Valid()`; a step insert or update keeps it when the step's owner exists.
The class `ChecklistDao` holds the tables as fields. Each of its methods
updates the fields in place and promises `State() == old(State()).Op(…)`.
`ChecklistRepository` and the view-model classes call these methods. Each
compound repository operation and each screen action promises that the new
store is a named function of the old one (`AfterUpdateProjectWithSteps`,
`AfterHomeSaveTemplate`, …). What those functions guarantee is proved as
lemmas:

- fresh ids;
- the given contents, in order;
- the rows that are left alone.

**The screens.** The reactive streams (`Flow`, `collect`, `collectLatest`) are
modelled emission by emission. One emission is one method call:

- `OnProjectsChanged` on the home screen;
- `OnStepsEmitted` in the editor;
- `LoadTemplates` on the templates screen.

Each such call reads the store at that moment. The one-shot reads in
`viewModelScope.launch { … }` blocks are done by the method that launches
them. That method runs to completion with nothing in between.

## Model

| member | source | states |
|---|---|---|
| `Entities.NewRowDefaults` | app/src/main/java/com/example/checklist/data/model/ProjectEntities.kt:11-35 | a row built from name and description only has id 0 (unassigned) and is not a template |
| `Mappers.ProjectToEntity` | app/src/main/java/com/example/checklist/data/model/ProjectMappers.kt:4-9 | the row keeps name and description, has no id yet and is a live project |
| `Mappers.StepToEntity` | app/src/main/java/com/example/checklist/data/model/ProjectMappers.kt:12-18 | the row keeps name and description, is owned by the given project and has no id yet |
| `Mappers.ProjectToDomain` | app/src/main/java/com/example/checklist/data/model/ProjectMappers.kt:21-28 | the domain project keeps id, name and description, and has one step per row with the same id, name and description, in order |
| `Mappers.StepToDomain` | app/src/main/java/com/example/checklist/data/model/ProjectMappers.kt:31-37 | the domain step keeps id, name and description |
| `Mappers.StepsToDomain` | app/src/main/java/com/example/checklist/data/model/ProjectMappers.kt:25 | one domain step per row, position by position, with the row's id, name and description |
| `Mappers.StepsToDomainOrdered` | app/src/main/java/com/example/checklist/data/model/ProjectMappers.kt:25 | mapping rows in ascending id order gives steps in ascending id order |
| `Mappers.StepRoundTrip` | app/src/main/java/com/example/checklist/data/model/ProjectMappers.kt:12-37 | step to row and back gives the step with its id reset to 0 |
| `Mappers.StepEntityRoundTrip` | app/src/main/java/com/example/checklist/data/model/ProjectMappers.kt:12-37 | row to step and back, under the same owner, gives the row with its id reset to 0 |
| `Mappers.StepsRoundTrip` | app/src/main/java/com/example/checklist/data/model/ProjectMappers.kt:12-37 | a step list to rows and back keeps every name and description in order; every id becomes 0 |
| `Mappers.ProjectEntityRoundTrip` | app/src/main/java/com/example/checklist/data/model/ProjectMappers.kt:4-28 | project row to domain and back gives the row with id 0 and the template flag cleared |
| `Mappers.ProjectRoundTrip` | app/src/main/java/com/example/checklist/data/model/ProjectMappers.kt:4-28 | a domain project to rows and back keeps name, description and step contents |
| `Mappers.StepsToEntities` | app/src/main/java/com/example/checklist/data/repository/ChecklistRepository.kt:85-91 | one unassigned row per step, all owned by the given project, with the same names and descriptions in order |
| `Mappers.StepsToEntitiesIgnoresIds` | app/src/main/java/com/example/checklist/data/repository/ChecklistRepository.kt:115-121 | the rows written for a step list depend only on names and descriptions, never on the steps' ids |
| `Seqs.Filter` | app/src/main/java/com/example/checklist/ui/screens/home/HomeViewModel.kt:49 | an element is in the result exactly when it is in the input and satisfies the condition; the result is no longer than the input |
| `Seqs.FilterCount` | app/src/main/java/com/example/checklist/ui/screens/home/HomeViewModel.kt:49 | every kept element occurs as often as in the input, and a dropped one not at all |
| `Seqs.FilterConcat` | app/src/main/java/com/example/checklist/ui/screens/home/HomeViewModel.kt:49 | filtering a concatenation filters each part and keeps the parts in order, so the filter never reorders |
| `Seqs.SortBy` | app/src/main/java/com/example/checklist/ui/screens/home/HomeViewModel.kt:50 | ordered by ascending key, and a permutation of the input |
| `Seqs.SortedUnique` | app/src/main/java/com/example/checklist/ui/screens/home/HomeViewModel.kt:50 | when the keys are unique, there is only one ordering by key of the same elements |
| `Seqs.GetOrNull` | app/src/main/java/com/example/checklist/ui/screens/home/HomeViewModel.kt:30 | the element at the index exactly when the index is in range, otherwise null |
| `Seqs.RemoveAt` | app/src/main/java/com/example/checklist/ui/screens/editproject/ProjectEditViewModel.kt:110 | one element shorter; elements before the index stay in place and later ones move up by one |
| `Seqs.RemoveSuffix` | app/src/main/java/com/example/checklist/ui/screens/savedtemplates/SavedTemplatesViewModel.kt:30 | drops the suffix when the string ends with it; any other string is returned unchanged |
| `Seqs.RemoveAppendedSuffix` | app/src/main/java/com/example/checklist/ui/screens/savedtemplates/SavedTemplatesViewModel.kt:30 | removing a suffix that was appended gives back the original string |
| `Seqs.Reverse` | app/src/main/java/com/example/checklist/data/dao/ChecklistDao.kt:46 | the elements back to front, a permutation of the input |
| `Dao.Tables.AllProjects` | app/src/main/java/com/example/checklist/data/dao/ChecklistDao.kt:46-47 | every stored project exactly once, in strictly descending id order |
| `Dao.Tables.StepsForProject` | app/src/main/java/com/example/checklist/data/dao/ChecklistDao.kt:50-51 | exactly the steps the project owns, in strictly ascending id order |
| `Dao.Tables.ProjectById` | app/src/main/java/com/example/checklist/data/dao/ChecklistDao.kt:54-55 | null exactly when no project has the id; otherwise a stored row with that id |
| `Dao.Tables.StepById` | app/src/main/java/com/example/checklist/data/dao/ChecklistDao.kt:58-59 | null exactly when no step has the id; otherwise a stored row with that id |
| `Dao.Tables.AllTemplates` | app/src/main/java/com/example/checklist/data/dao/ChecklistDao.kt:62-63 | exactly the stored template rows, in ascending id order |
| `Dao.Tables.ProjectWithStepsById` | app/src/main/java/com/example/checklist/data/dao/ChecklistDao.kt:70-71 | null exactly when the project is absent; otherwise the row joined with exactly the steps it owns |
| `Dao.Tables.ProjectByIdFinds` | app/src/main/java/com/example/checklist/data/model/ProjectEntities.kt:12 | project ids are a primary key: looking up a stored row's id finds that row |
| `Dao.Tables.StepByIdFinds` | app/src/main/java/com/example/checklist/data/model/ProjectEntities.kt:31 | step ids are a primary key: looking up a stored row's id finds that row |
| `Dao.Tables.AbsentOwnsNothing` | app/src/main/java/com/example/checklist/data/model/ProjectEntities.kt:21-28 | under the foreign key, a project that is not stored owns no steps |
| `Dao.Tables.CounterIsFresh` | app/src/main/java/com/example/checklist/data/model/ProjectEntities.kt:12 | no stored id is at or above the AUTOINCREMENT counter |
| `Dao.Tables.InsertProject` | app/src/main/java/com/example/checklist/data/dao/ChecklistDao.kt:18-19 | the row is stored under the next id, which is returned, is fresh and non-zero, and finds the row; nothing else changes; integrity is kept |
| `Dao.Tables.InsertStep` | app/src/main/java/com/example/checklist/data/dao/ChecklistDao.kt:22-23 | the row is stored under a fresh id, which is returned; the foreign key holds when the owner exists |
| `Dao.Tables.InsertSteps` | app/src/main/java/com/example/checklist/data/dao/ChecklistDao.kt:26-27 | the rows are appended in list order with consecutive fresh ids; integrity is kept when every owner exists |
| `Dao.Tables.InsertStepsQuery` | app/src/main/java/com/example/checklist/data/dao/ChecklistDao.kt:26-27 | after a batch insert, each project's steps are its old steps followed by its rows from the batch, in order |
| `Dao.Assigned` | app/src/main/java/com/example/checklist/data/dao/ChecklistDao.kt:26-27 | a batch takes consecutive AUTOINCREMENT ids from the counter, one per row in list order, and keeps the rest of each row |
| `Dao.Tables.UpdateProject` | app/src/main/java/com/example/checklist/data/dao/ChecklistDao.kt:30-31 | the row with the same id is replaced; with no such row nothing changes; the set of ids is the same |
| `Dao.Tables.UpdateStep` | app/src/main/java/com/example/checklist/data/dao/ChecklistDao.kt:34-35 | the row with the same id is replaced; with no such row nothing changes; the set of ids is the same |
| `Dao.Tables.DeleteProject` | app/src/main/java/com/example/checklist/data/dao/ChecklistDao.kt:74-75 | the project and every step it owned are gone (cascade), all other rows stay, integrity is kept, and an absent id changes nothing |
| `Dao.Tables.DeleteStepsByProjectId` | app/src/main/java/com/example/checklist/data/dao/ChecklistDao.kt:42-43 | the project owns no steps afterwards, and every other project's steps are unchanged |
| `Dao.Tables.DeleteStep` | app/src/main/java/com/example/checklist/data/dao/ChecklistDao.kt:78-79 | exactly the step with that id is gone, and an absent id changes nothing |
| `Dao.Tables.DeleteTemplateByName` | app/src/main/java/com/example/checklist/data/dao/ChecklistDao.kt:66-67 | exactly the templates with that exact name are gone, with their steps; live projects are untouched; no match changes nothing |
| `Dao.Tables.DeleteTemplateCascade` | app/src/main/java/com/example/checklist/data/model/ProjectEntities.kt:26 | after the delete by name, the steps left are exactly those whose owner is still stored |
| `Dao.ChecklistDao.constructor` | app/src/main/java/com/example/checklist/data/database/ChecklistDatabase.kt:27-31 | a new database: both tables empty, counters at 1 |
| `Dao.ChecklistDao.InsertProject` | app/src/main/java/com/example/checklist/data/dao/ChecklistDao.kt:18-19 | in place, the effect of `Tables.InsertProject`, returning the new id |
| `Dao.ChecklistDao.InsertStep` | app/src/main/java/com/example/checklist/data/dao/ChecklistDao.kt:22-23 | in place, the effect of `Tables.InsertStep`, returning the new id |
| `Dao.ChecklistDao.InsertSteps` | app/src/main/java/com/example/checklist/data/dao/ChecklistDao.kt:26-27 | one insert per row in list order, which in total is `Tables.InsertSteps` |
| `Dao.ChecklistDao.UpdateProject` | app/src/main/java/com/example/checklist/data/dao/ChecklistDao.kt:30-31 | in place, the effect of `Tables.UpdateProject` |
| `Dao.ChecklistDao.UpdateStep` | app/src/main/java/com/example/checklist/data/dao/ChecklistDao.kt:34-35 | in place, the effect of `Tables.UpdateStep` |
| `Dao.ChecklistDao.DeleteProject` | app/src/main/java/com/example/checklist/data/dao/ChecklistDao.kt:38-39 | a delete by primary key: the cascade delete of the entity's id |
| `Dao.ChecklistDao.DeleteStepsByProjectId` | app/src/main/java/com/example/checklist/data/dao/ChecklistDao.kt:42-43 | in place, the effect of `Tables.DeleteStepsByProjectId` |
| `Dao.ChecklistDao.DeleteTemplateByName` | app/src/main/java/com/example/checklist/data/dao/ChecklistDao.kt:66-67 | in place, the effect of `Tables.DeleteTemplateByName` |
| `Dao.ChecklistDao.DeleteProjectWithStepsById` | app/src/main/java/com/example/checklist/data/dao/ChecklistDao.kt:74-75 | in place, the cascade delete of the id |
| `Dao.ChecklistDao.DeleteStep` | app/src/main/java/com/example/checklist/data/dao/ChecklistDao.kt:78-79 | in place, the effect of `Tables.DeleteStep` |
| `Repository.Reowned` | app/src/main/java/com/example/checklist/data/repository/ChecklistRepository.kt:73-75 | one copy per row, in order, with the id reset and the new owner |
| `Repository.AfterInsertProjectWithSteps` | app/src/main/java/com/example/checklist/data/repository/ChecklistRepository.kt:81-94 | the store after `insertProjectWithSteps`: the new row, then its steps under the returned id; what this adds and keeps is proved in `InsertProjectWithStepsAdds` |
| `Repository.AfterUpdateProjectWithSteps` | app/src/main/java/com/example/checklist/data/repository/ChecklistRepository.kt:98-124 | the store after `updateProjectWithSteps`: the row overwritten, its steps deleted, the new list inserted; its effect is proved in `UpdateProjectWithStepsReplaces` |
| `Repository.AfterSaveTemplate` | app/src/main/java/com/example/checklist/data/repository/ChecklistRepository.kt:65-77 | the store after `saveTemplateProjectWithSteps`: a template row, then copies of the steps under its id; its effect is proved in `SaveTemplateClones` |
| `Repository.InsertWithSteps` | app/src/main/java/com/example/checklist/data/repository/ChecklistRepository.kt:81-94 | a project insert followed by its rows keeps integrity; the new project owns exactly those rows, freshly numbered and in order; other projects keep their steps |
| `Repository.InsertProjectWithStepsAdds` | app/src/main/java/com/example/checklist/data/repository/ChecklistRepository.kt:81-94 | adds one project with a fresh id and the given name, description and flag; it owns the given steps by content, in order, under fresh ids; other projects' steps are unchanged |
| `Repository.SaveTemplateClones` | app/src/main/java/com/example/checklist/data/repository/ChecklistRepository.kt:65-77 | adds one template with the source's name and description and copies of its steps in order; every existing row stays |
| `Repository.UpdateProjectWithStepsReplaces` | app/src/main/java/com/example/checklist/data/repository/ChecklistRepository.kt:98-124 | for a stored id: the row holds the new values, its steps are the given list by content under fresh ids, and no other project or step changes |
| `Repository.UpdateAbsentProjectIsNoOp` | app/src/main/java/com/example/checklist/data/repository/ChecklistRepository.kt:98-124 | for an id that is not stored, with no steps, nothing changes |
| `Repository.UpdateClearsTemplateFlag` | app/src/main/java/com/example/checklist/data/repository/ChecklistRepository.kt:103-112 | with the default flag, updating a template turns it into a live project, so the template list changes |
| `Repository.ChecklistRepository.constructor` | app/src/main/java/com/example/checklist/data/repository/ChecklistRepository.kt:10 | the repository over the given DAO |
| `Repository.ChecklistRepository.InsertProject` | app/src/main/java/com/example/checklist/data/repository/ChecklistRepository.kt:15 | delegates to the DAO insert |
| `Repository.ChecklistRepository.DeleteProject` | app/src/main/java/com/example/checklist/data/repository/ChecklistRepository.kt:18 | delegates to the DAO delete by entity |
| `Repository.ChecklistRepository.InsertSteps` | app/src/main/java/com/example/checklist/data/repository/ChecklistRepository.kt:30 | delegates to the DAO batch insert |
| `Repository.ChecklistRepository.DeleteStepsByProjectId` | app/src/main/java/com/example/checklist/data/repository/ChecklistRepository.kt:33 | delegates to the DAO |
| `Repository.ChecklistRepository.DeleteStep` | app/src/main/java/com/example/checklist/data/repository/ChecklistRepository.kt:39-41 | delegates to the DAO |
| `Repository.ChecklistRepository.DeleteTemplateByName` | app/src/main/java/com/example/checklist/data/repository/ChecklistRepository.kt:50-52 | delegates to the DAO |
| `Repository.ChecklistRepository.DeleteProjectWithSteps` | app/src/main/java/com/example/checklist/data/repository/ChecklistRepository.kt:60-62 | a delete by id, whose steps go by cascade |
| `Repository.ChecklistRepository.SaveTemplateProjectWithSteps` | app/src/main/java/com/example/checklist/data/repository/ChecklistRepository.kt:65-77 | the store afterwards is `AfterSaveTemplate` of the store before |
| `Repository.ChecklistRepository.InsertProjectWithSteps` | app/src/main/java/com/example/checklist/data/repository/ChecklistRepository.kt:81-94 | the store afterwards is `AfterInsertProjectWithSteps` of the store before |
| `Repository.ChecklistRepository.UpdateProjectWithSteps` | app/src/main/java/com/example/checklist/data/repository/ChecklistRepository.kt:98-124 | the store afterwards is `AfterUpdateProjectWithSteps` of the store before |
| `EditViewModel.InitialFormIsBlank` | app/src/main/java/com/example/checklist/ui/screens/editproject/ProjectEditViewModel.kt:117-126 | a new editor's form has empty texts, hidden fields and no steps |
| `EditViewModel.LoadedUiState` | app/src/main/java/com/example/checklist/ui/screens/editproject/ProjectEditViewModel.kt:28-35 | one emission of the load: the stored row's texts and its current steps replace the form's; an absent row leaves the form (proved in `LoadCopiesProject`, `LoadAbsentIsBlank`) |
| `EditViewModel.InitialUiState` | app/src/main/java/com/example/checklist/ui/screens/editproject/ProjectEditViewModel.kt:18-35 | the form once the editor has opened: blank without an id, loaded otherwise |
| `EditViewModel.SaveEffect` | app/src/main/java/com/example/checklist/ui/screens/editproject/ProjectEditViewModel.kt:78-99 | the store after `saveProject`: an update with the flag written false for an opened id, else an insert (proved in `SaveNewInserts`, `SaveExistingReplaces`) |
| `EditViewModel.LoadCopiesProject` | app/src/main/java/com/example/checklist/ui/screens/editproject/ProjectEditViewModel.kt:23-35 | opening a stored project copies its name and description; the form lists exactly its steps, with their stored ids and contents, in ascending id order |
| `EditViewModel.LoadAbsentIsBlank` | app/src/main/java/com/example/checklist/ui/screens/editproject/ProjectEditViewModel.kt:25-28 | opening an id that is not stored leaves the form blank |
| `EditViewModel.WithoutStepIds` | app/src/main/java/com/example/checklist/ui/screens/editproject/ProjectEditViewModel.kt:40 | the same step contents, every id 0 |
| `EditViewModel.SaveIgnoresStepIds` | app/src/main/java/com/example/checklist/ui/screens/editproject/ProjectEditViewModel.kt:78-99 | what a save stores depends on the form's name, description and step contents, not on step ids |
| `EditViewModel.ResetIdsDoesNotChangeSave` | app/src/main/java/com/example/checklist/ui/screens/editproject/ProjectEditViewModel.kt:37-42 | the template-copy id reset changes nothing a later save stores |
| `EditViewModel.SaveNewInserts` | app/src/main/java/com/example/checklist/ui/screens/editproject/ProjectEditViewModel.kt:89-95 | saving without an id adds one live project with the form's texts and steps under fresh ids, keeps every existing project, and leaves every other project's steps unchanged |
| `EditViewModel.SaveExistingReplaces` | app/src/main/java/com/example/checklist/ui/screens/editproject/ProjectEditViewModel.kt:81-88 | saving an opened project rewrites it as a live project with the form's texts and steps; no project is added or removed |
| `EditViewModel.UseTemplateOverwritesTemplate` | app/src/main/java/com/example/checklist/ui/screens/editproject/ProjectEditViewModel.kt:81-88 | saving an editor opened on a template overwrites the template, adds no project, and takes the template out of the template list |
| `EditViewModel.IntendedSaveKeepsTemplate` | app/src/main/java/com/example/checklist/ui/screens/editproject/ProjectEditViewModel.kt:78-99 | saving a template copy as intended keeps the template and its steps, and adds a new live project with the form's contents |
| `EditViewModel.IntendedSaveEffect` | app/src/main/java/com/example/checklist/ui/screens/editproject/ProjectEditViewModel.kt:37-42 | the save a template copy calls for: insert a new live project; any other editor saves as `SaveEffect` |
| `EditViewModel.ProjectEditViewModel.constructor` | app/src/main/java/com/example/checklist/ui/screens/editproject/ProjectEditViewModel.kt:21-35 | the form after the first emission of the load: blank for a new project, otherwise filled from the store |
| `EditViewModel.ProjectEditViewModel.OnStepsEmitted` | app/src/main/java/com/example/checklist/ui/screens/editproject/ProjectEditViewModel.kt:29-35 | each emission writes the texts of the row captured at load, and the current steps from the store |
| `EditViewModel.ProjectEditViewModel.ResetStepIdsForTemplateCopy` | app/src/main/java/com/example/checklist/ui/screens/editproject/ProjectEditViewModel.kt:37-42 | every step id in the form becomes 0; nothing else changes |
| `EditViewModel.ProjectEditViewModel.UpdateProjectName` | app/src/main/java/com/example/checklist/ui/screens/editproject/ProjectEditViewModel.kt:49-51 | only the project name changes |
| `EditViewModel.ProjectEditViewModel.UpdateProjectDesc` | app/src/main/java/com/example/checklist/ui/screens/editproject/ProjectEditViewModel.kt:53-55 | only the project description changes |
| `EditViewModel.ProjectEditViewModel.UpdateStepName` | app/src/main/java/com/example/checklist/ui/screens/editproject/ProjectEditViewModel.kt:58-60 | only the draft step name changes |
| `EditViewModel.ProjectEditViewModel.UpdateStepDesc` | app/src/main/java/com/example/checklist/ui/screens/editproject/ProjectEditViewModel.kt:62-64 | only the draft step description changes |
| `EditViewModel.ProjectEditViewModel.AddStep` | app/src/main/java/com/example/checklist/ui/screens/editproject/ProjectEditViewModel.kt:67-75 | the draft is appended as a step with id 0; the draft is cleared and its description field hidden |
| `EditViewModel.ProjectEditViewModel.UpdateStep` | app/src/main/java/com/example/checklist/ui/screens/editproject/ProjectEditViewModel.kt:102-106 | only the step at the index gets the new name and description; its id and every other step stay |
| `EditViewModel.ProjectEditViewModel.DeleteStep` | app/src/main/java/com/example/checklist/ui/screens/editproject/ProjectEditViewModel.kt:107-113 | removes the step at an index in range; any other index changes nothing |
| `EditViewModel.ProjectEditViewModel.SaveProject` | app/src/main/java/com/example/checklist/ui/screens/editproject/ProjectEditViewModel.kt:78-99 | an update of the opened id, or an insert when there is none (`SaveEffect`) |
| `HomeViewModel.HomeListIsLiveInIdOrder` | app/src/main/java/com/example/checklist/ui/screens/home/HomeViewModel.kt:45-56 | the tabs are exactly the stored live projects, each once, in ascending id order |
| `HomeViewModel.LiveProjects` | app/src/main/java/com/example/checklist/ui/screens/home/HomeViewModel.kt:47-50 | exactly the live rows of the emission, ordered by ascending id |
| `HomeViewModel.SelectedProject` | app/src/main/java/com/example/checklist/ui/screens/home/HomeViewModel.kt:29-30 | the row at the selected tab exactly when that tab exists, otherwise null |
| `HomeViewModel.CheckedSaved` | app/src/main/java/com/example/checklist/ui/screens/home/HomeViewModel.kt:86-89 | true exactly when a tab is selected and its row is a template |
| `HomeViewModel.HomeTemplateRow` | app/src/main/java/com/example/checklist/ui/screens/home/HomeViewModel.kt:70-74 | an unassigned template row with the project's description, whose name shown on the templates screen is the project's own name |
| `HomeViewModel.AfterHomeSaveTemplate` | app/src/main/java/com/example/checklist/ui/screens/home/HomeViewModel.kt:65-83 | the store after `saveSelectedProjectAsTemplate`: the template row, then copies of the project's steps read after the insert (proved in `HomeSaveAddsSuffixedTemplate`) |
| `HomeViewModel.AfterDeleteSelected` | app/src/main/java/com/example/checklist/ui/screens/home/HomeViewModel.kt:101-108 | the store after `deleteSelectedProject`: the project delete, then the step delete (proved equal to the project delete in `DeleteSelectedIsProjectDelete`) |
| `HomeViewModel.HomeTemplateExists` | app/src/main/java/com/example/checklist/ui/screens/home/HomeViewModel.kt:32-33 | what the flag is documented to track: a template with the project's suffixed name exists |
| `HomeViewModel.CheckNeverReportsSaved` | app/src/main/java/com/example/checklist/ui/screens/home/HomeViewModel.kt:86-89 | the list holds no templates, so the saved check is false for every tab |
| `HomeViewModel.Toggled` | app/src/main/java/com/example/checklist/ui/screens/home/HomeViewModel.kt:92-98 | the index's membership flips; every other index is unchanged |
| `HomeViewModel.ToggleTwice` | app/src/main/java/com/example/checklist/ui/screens/home/HomeViewModel.kt:92-98 | toggling an index twice restores the set |
| `HomeViewModel.HomeSaveAddsSuffixedTemplate` | app/src/main/java/com/example/checklist/ui/screens/home/HomeViewModel.kt:65-83 | adds one template named with the " (Template)" suffix and the project's description, owning copies of the project's steps in order; every existing row stays |
| `HomeViewModel.DeleteSelectedIsProjectDelete` | app/src/main/java/com/example/checklist/ui/screens/home/HomeViewModel.kt:101-108 | the explicit step delete after the project delete changes nothing, because the cascade has already removed those steps |
| `HomeViewModel.SavedFlagResetByNextEmission` | app/src/main/java/com/example/checklist/ui/screens/home/HomeViewModel.kt:65-89 | after a save, the template exists, yet the flag recomputed for any tab is false |
| `HomeViewModel.IntendedFlagSetAfterSave` | app/src/main/java/com/example/checklist/ui/screens/home/HomeViewModel.kt:32-33 | a flag that looks for the suffixed template is set after a save |
| `HomeViewModel.HomeViewModel.constructor` | app/src/main/java/com/example/checklist/ui/screens/home/HomeViewModel.kt:21-37 | no tabs, first tab selected, flag false, nothing expanded |
| `HomeViewModel.HomeViewModel.OnProjectsChanged` | app/src/main/java/com/example/checklist/ui/screens/home/HomeViewModel.kt:45-56 | the list becomes the live projects sorted by id, then the flag is recomputed |
| `HomeViewModel.HomeViewModel.OnProjectSelected` | app/src/main/java/com/example/checklist/ui/screens/home/HomeViewModel.kt:59-62 | selects the index and recomputes the flag |
| `HomeViewModel.HomeViewModel.CheckIfCurrentIsSaved` | app/src/main/java/com/example/checklist/ui/screens/home/HomeViewModel.kt:86-89 | the flag is the selected row's template flag; false without a selection |
| `HomeViewModel.HomeViewModel.SaveSelectedProjectAsTemplate` | app/src/main/java/com/example/checklist/ui/screens/home/HomeViewModel.kt:65-83 | does nothing without a selection or with the flag set; otherwise the store becomes `AfterHomeSaveTemplate` and the flag is set |
| `HomeViewModel.HomeViewModel.ToggleStepExpanded` | app/src/main/java/com/example/checklist/ui/screens/home/HomeViewModel.kt:92-98 | the expanded set becomes `Toggled` of the old set |
| `HomeViewModel.HomeViewModel.DeleteSelectedProject` | app/src/main/java/com/example/checklist/ui/screens/home/HomeViewModel.kt:101-108 | does nothing without a selection; otherwise deletes the project and its steps and selects the first tab |
| `HomeViewModel.HomeViewModel.DeleteStep` | app/src/main/java/com/example/checklist/ui/screens/home/HomeViewModel.kt:111-115 | deletes the step with that id |
| `TemplatesViewModel.TemplateHeaders` | app/src/main/java/com/example/checklist/ui/screens/savedtemplates/SavedTemplatesViewModel.kt:27-32 | one header per row, in order, with the row's id and the name shown without the suffix |
| `TemplatesViewModel.HeadersMatchRows` | app/src/main/java/com/example/checklist/ui/screens/savedtemplates/SavedTemplatesViewModel.kt:27-32 | every header comes from a row with its id, and every row has a header |
| `TemplatesViewModel.SuffixedRowShownBare` | app/src/main/java/com/example/checklist/ui/screens/savedtemplates/SavedTemplatesViewModel.kt:30 | a template named `x + " (Template)"` is listed under the name `x` |
| `TemplatesViewModel.HeadersListTemplates` | app/src/main/java/com/example/checklist/ui/screens/savedtemplates/SavedTemplatesViewModel.kt:24-35 | the screen lists exactly the stored templates, one header each, in ascending id order |
| `TemplatesViewModel.DeleteByShownNameMissesTemplate` | app/src/main/java/com/example/checklist/ui/screens/savedtemplates/SavedTemplatesViewModel.kt:38-42 | deleting a home-saved template through its header keeps that template and its steps, and deletes any other template with the shown name |
| `TemplatesViewModel.DeleteTemplateOfHeader` | app/src/main/java/com/example/checklist/ui/screens/savedtemplates/SavedTemplatesViewModel.kt:37-42 | the corrected delete: by the header's id, which names the template it was built from (proved in `DeleteOfHeaderRemovesThatTemplate`) |
| `TemplatesViewModel.DeleteKeepsOtherSteps` | app/src/main/java/com/example/checklist/data/dao/ChecklistDao.kt:74-75 | deleting a project leaves every other project's steps unchanged |
| `TemplatesViewModel.DeleteOfHeaderRemovesThatTemplate` | app/src/main/java/com/example/checklist/ui/screens/savedtemplates/SavedTemplatesViewModel.kt:38-42 | deleting by the header's id removes exactly the template shown, with its steps, and keeps every other row |
| `TemplatesViewModel.SavedTemplatesViewModel.constructor` | app/src/main/java/com/example/checklist/ui/screens/savedtemplates/SavedTemplatesViewModel.kt:19-21 | the headers of the stored templates when the screen opens |
| `TemplatesViewModel.SavedTemplatesViewModel.LoadTemplates` | app/src/main/java/com/example/checklist/ui/screens/savedtemplates/SavedTemplatesViewModel.kt:24-35 | each emission replaces the list by the headers of the current templates |
| `TemplatesViewModel.SavedTemplatesViewModel.DeleteTemplate` | app/src/main/java/com/example/checklist/ui/screens/savedtemplates/SavedTemplatesViewModel.kt:38-42 | deletes by the given name exactly |
| `DetailViewModel.ToDomainModel` | app/src/main/java/com/example/checklist/ui/screens/projectdetails/ProjectDetailViewModel.kt:77-84 | keeps id, name and description, with one step per row carrying that row's id, name and description, in order |
| `DetailViewModel.ToDomainModelIsMapper` | app/src/main/java/com/example/checklist/ui/screens/projectdetails/ProjectDetailViewModel.kt:77-84 | the screen's conversion agrees with the data layer's mapper |
| `DetailViewModel.LoadedProject` | app/src/main/java/com/example/checklist/ui/screens/projectdetails/ProjectDetailViewModel.kt:33-38 | what `loadProject` shows: the first value of the project-with-steps query, converted, or null (proved in `LoadedProjectShowsStore`) |
| `DetailViewModel.LoadedProjectShowsStore` | app/src/main/java/com/example/checklist/ui/screens/projectdetails/ProjectDetailViewModel.kt:33-38 | the screen shows the project exactly when it is stored, with its texts and exactly its steps in ascending id order |
| `DetailViewModel.ReloadAfterStepDeleteDropsStep` | app/src/main/java/com/example/checklist/ui/screens/projectdetails/ProjectDetailViewModel.kt:49-54 | after the delete and reload, no shown step has the deleted id |
| `DetailViewModel.DetailSaveKeepsName` | app/src/main/java/com/example/checklist/ui/screens/projectdetails/ProjectDetailViewModel.kt:41-46 | adds one template under the project's own name, with no suffix, and copies of its steps; the project and its steps stay |
| `DetailViewModel.AfterDetailSaveTemplate` | app/src/main/java/com/example/checklist/ui/screens/projectdetails/ProjectDetailViewModel.kt:41-46 | the store after `saveProjectAsTemplate`: the repository's template save of the stored project, or nothing when it is gone |
| `DetailViewModel.ProjectDetailViewModel.constructor` | app/src/main/java/com/example/checklist/ui/screens/projectdetails/ProjectDetailViewModel.kt:28-30 | opening the screen loads the project; the deleted flag is false |
| `DetailViewModel.ProjectDetailViewModel.LoadProject` | app/src/main/java/com/example/checklist/ui/screens/projectdetails/ProjectDetailViewModel.kt:33-38 | the shown project becomes the store's current one, or null |
| `DetailViewModel.ProjectDetailViewModel.SaveProjectAsTemplate` | app/src/main/java/com/example/checklist/ui/screens/projectdetails/ProjectDetailViewModel.kt:41-46 | clones the stored project as a template; does nothing when the project is gone |
| `DetailViewModel.ProjectDetailViewModel.DeleteStep` | app/src/main/java/com/example/checklist/ui/screens/projectdetails/ProjectDetailViewModel.kt:49-54 | deletes the step, then the shown project is reloaded from the new store |
| `DetailViewModel.ProjectDetailViewModel.DeleteProject` | app/src/main/java/com/example/checklist/ui/screens/projectdetails/ProjectDetailViewModel.kt:57-62 | deletes the project with its steps and sets the deleted flag; the shown project is kept |

## Left out

- Compose UI, navigation, settings, the splash screen and the database singleton are not modelled. Context lines of the navigation graph and the templates screen are cited only in "## Findings".
- Threads, coroutine interleaving and the timing of `Flow` emissions are not modelled. Each launched block runs to completion with nothing in between. Each emission is an explicit method call, so two emissions racing (e.g. `collectLatest` cancelling a run) are not captured.
- The repository's multi-statement operations are not transactions in the source. A crash between two DAO calls is not modelled.
- The repository's read-only delegations (`getAllProjects`, `getProjectById`, `getStepsForProject`, `getTemplateProjects`, `getProjectWithStepsById`) pass straight to the DAO. The screens read the store through the `Tables` queries instead.
- Dao.Tables.InsertProject: requires a row with id 0. Every caller in the app passes 0, so the REPLACE conflict strategy never fires and is not modelled.
- Dao.Tables.InsertStep: requires a row with id 0, for the same reason. It promises `Valid()` afterwards only when the owner exists.
- Dao.ChecklistDao.InsertStep: requires the owner to exist. In SQLite a step with a missing owner is rejected by the foreign key, an exception the app never handles; callers never try.
- Dao.ChecklistDao.InsertSteps: requires every row's owner to exist, for the same reason.
- Dao.ChecklistDao.UpdateStep: requires the owner of a row that replaces a stored step to exist, for the same reason.
- Dao.Tables.InsertSteps: promises `Valid()` afterwards only when every owner exists; otherwise SQLite would reject the write.
- Dao.Tables.UpdateStep: promises `Valid()` afterwards only when the new row's owner exists, for the same reason.
- Seqs.Filter: its own contract states membership only. Multiplicity is proved in `FilterCount` and order in `FilterConcat`.
- Seqs.SortBy: Kotlin's `sortedBy` is stable, and the contract does not state stability. The app sorts rows by their unique ids, and `SortedUnique` shows that only one ordering is then possible.
- Repository.ChecklistRepository.UpdateProjectWithSteps: requires a stored id or no steps. For other inputs, the final insert breaks the foreign key and throws.
- EditViewModel.ProjectEditViewModel.SaveProject: requires a stored id or no steps, for the same reason.
- EditViewModel.ProjectEditViewModel.UpdateStep: requires an index in range. Out of range, the source throws `IndexOutOfBoundsException`; the model does not model the exception.
- Dao.Tables.AllTemplates: the query names no order. The model fixes SQLite's rowid scan order (ascending id); a different query plan could return another order.
- Dao.Tables.ProjectWithStepsById: the `@Relation` names no order either. The model uses the same ascending-id order.
- Ids are unbounded integers, so 64-bit overflow of the AUTOINCREMENT counter is not modelled.
- The `onComplete` callback of `saveProject` (navigation) is not modelled.
- EditViewModel.ProjectEditViewModel.ResetStepIdsForTemplateCopy: models a branch that never runs. In the source it follows `collect` on an endless `Flow`, so it is unreachable. It is modelled as a separate method, and `ResetIdsDoesNotChangeSave` shows that it would not change what is saved.
- The repository comment on `deleteProjectWithSteps` says the steps are not deleted. Room turns the foreign keys on, so the cascade deletes them, and the model follows the schema.

## Findings

| source | as written | input that shows it | evidently intended | confidence | as-written member | corrected member |
|---|---|---|---|---|---|---|
| app/src/main/java/com/example/checklist/ui/screens/savedtemplates/SavedTemplatesViewModel.kt:30 | the header shows the name with " (Template)" removed, and the screen passes that shown name to `deleteTemplateByName`, which matches the stored name exactly (SavedTemplatesScreen.kt:64, ChecklistDao.kt:66-67) | save project "X" as a template from the home screen (stored as "X (Template)"), then delete its header: nothing is deleted; if a template named exactly "X" also exists (saved from the detail screen), that one is deleted instead | delete the template the header was built from | high, not executed | `TemplatesViewModel.DeleteByShownNameMissesTemplate` | `TemplatesViewModel.DeleteTemplateOfHeader`, proved in `TemplatesViewModel.DeleteOfHeaderRemovesThatTemplate` |
| app/src/main/java/com/example/checklist/ui/screens/editproject/ProjectEditViewModel.kt:81-88 | "Use this template" opens the editor on the template's own id (NavGraph.kt:115); saving updates that id with the default `isTemplate = false` (ChecklistRepository.kt:103) | open a template with "use", save: the template row is overwritten, becomes a live project, leaves the templates list, and no new project appears | with `isTemplateCopy`, insert a new live project and keep the template | high, not executed | `EditViewModel.UseTemplateOverwritesTemplate` | `EditViewModel.IntendedSaveEffect`, proved in `EditViewModel.IntendedSaveKeepsTemplate` |
| app/src/main/java/com/example/checklist/ui/screens/home/HomeViewModel.kt:86-89 | the "already saved" flag is recomputed as the selected row's `isTemplate`, but the home list holds only live rows | save a project as a template, switch tabs and back (or let the list re-emit), save again: a second identical template is stored | the flag says whether this project's template exists, so the second save is refused | medium, not executed | `HomeViewModel.SavedFlagResetByNextEmission` | `HomeViewModel.HomeTemplateExists`, proved in `HomeViewModel.IntendedFlagSetAfterSave` |

The view-model classes keep the behaviour as written, since they model the app. The corrected definitions stand beside them, each with its intended property proved.
