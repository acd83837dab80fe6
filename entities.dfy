/**
 * The two stored record kinds, `projects` and `steps`, and the joined view of a
 * project with its steps. Ids are Kotlin `Long`s; 0 means "not yet assigned":
 * the store replaces it by a fresh id on insert.
 */
module Entities {

  /** The id a row carries until the store assigns one (`0L`). */
  const Unassigned: int := 0

  /** A row of `projects`; `isTemplate` splits the table into live projects and templates. */
  datatype ProjectEntity = ProjectEntity(
    projectId: int := Unassigned,
    name: string,
    description: string,
    isTemplate: bool := false)

  /** A row of `steps`; `projectOwnerId` is a foreign key to `projects.projectId` with ON DELETE CASCADE. */
  datatype StepEntity = StepEntity(
    stepId: int := Unassigned,
    name: string,
    description: string,
    projectOwnerId: int)

  /** A project row together with the step rows it owns. */
  datatype ProjectWithSteps = ProjectWithSteps(project: ProjectEntity, steps: seq<StepEntity>)

  /** The primary keys, as functions, for ordering and lookup. */
  function ProjectKey(p: ProjectEntity): int { p.projectId }

  function StepKey(s: StepEntity): int { s.stepId }

  predicate IsTemplateRow(p: ProjectEntity) { p.isTemplate }

  predicate IsLiveRow(p: ProjectEntity) { !p.isTemplate }

  /** A new row built the way the source builds one, naming only name and description. */
  lemma NewRowDefaults(name: string, description: string, owner: int)
    ensures ProjectEntity(name := name, description := description).projectId == Unassigned
    ensures !ProjectEntity(name := name, description := description).isTemplate
    ensures StepEntity(name := name, description := description, projectOwnerId := owner).stepId == Unassigned
  {
  }
}
