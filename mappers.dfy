/**
 * Conversions between stored rows and domain objects. Going to a row drops the
 * id (the store assigns a fresh one); coming from a row keeps it.
 */
module Mappers {
  import opened Seqs
  import opened Entities
  import opened Domain

  /** `Project.toEntity()`: a row with an unassigned id and `isTemplate` false; the steps are not carried. */
  function ProjectToEntity(p: Project): (e: ProjectEntity)
    ensures e.projectId == Unassigned && !e.isTemplate
    ensures e.name == p.name && e.description == p.description
  {
    ProjectEntity(name := p.name, description := p.description)
  }

  /** `Step.toEntity(projectId)`: a row with an unassigned id, owned by `projectId`. */
  function StepToEntity(s: Step, projectId: int): (e: StepEntity)
    ensures e.stepId == Unassigned && e.projectOwnerId == projectId
    ensures e.name == s.name && e.description == s.description
  {
    StepEntity(name := s.name, description := s.description, projectOwnerId := projectId)
  }

  /** `StepEntity.toDomain()`: keeps id, name and description; the owner is dropped. */
  function StepToDomain(e: StepEntity): (s: Step)
    ensures s.stepId == e.stepId && s.name == e.name && s.description == e.description
  {
    Step(e.stepId, e.name, e.description)
  }

  /** `steps.map { it.toDomain() }`: one domain step per row, in the same order. */
  function StepsToDomain(es: seq<StepEntity>): (r: seq<Step>)
    ensures |r| == |es|
    ensures forall i :: 0 <= i < |es| ==> r[i].stepId == es[i].stepId
    ensures forall i :: 0 <= i < |es| ==> r[i].name == es[i].name && r[i].description == es[i].description
  {
    if es == [] then [] else [StepToDomain(es[0])] + StepsToDomain(es[1..])
  }

  /** Mapping rows to domain steps keeps their ids in place, so an id-ordered list stays id-ordered. */
  lemma StepsToDomainOrdered(es: seq<StepEntity>)
    requires StrictlyIncreasing(es, StepKey)
    ensures StrictlyIncreasing(StepsToDomain(es), StepIdOf)
  {
    var r := StepsToDomain(es);
    forall i, j | 0 <= i < j < |r| ensures StepIdOf(r[i]) < StepIdOf(r[j]) {
      assert StepKey(es[i]) < StepKey(es[j]);
    }
  }

  /** `steps.map { it.toEntity(projectId) }`: one fresh row per step, all owned by `projectId`, in order. */
  function StepsToEntities(ss: seq<Step>, projectId: int): (r: seq<StepEntity>)
    ensures |r| == |ss|
    ensures forall i :: 0 <= i < |ss| ==> r[i].stepId == Unassigned && r[i].projectOwnerId == projectId
    ensures forall i :: 0 <= i < |ss| ==> r[i].name == ss[i].name && r[i].description == ss[i].description
  {
    if ss == [] then [] else [StepToEntity(ss[0], projectId)] + StepsToEntities(ss[1..], projectId)
  }

  /** `ProjectEntity.toDomain(steps)`: keeps the row's id, name and description and maps the steps in order. */
  function ProjectToDomain(e: ProjectEntity, steps: seq<StepEntity>): (p: Project)
    ensures p.projectId == e.projectId && p.name == e.name && p.description == e.description
    ensures |p.steps| == |steps|
    ensures forall i :: 0 <= i < |steps| ==> p.steps[i].stepId == steps[i].stepId
    ensures forall i :: 0 <= i < |steps| ==> p.steps[i].name == steps[i].name && p.steps[i].description == steps[i].description
  {
    Project(name := e.name, description := e.description, steps := StepsToDomain(steps), projectId := e.projectId)
  }

  /** Domain step to row and back: the content survives, the id is reset. */
  lemma StepRoundTrip(s: Step, projectId: int)
    ensures StepToDomain(StepToEntity(s, projectId)) == s.(stepId := Unassigned)
  {
  }

  /** Row to domain step and back under the same owner: the row with its id reset. */
  lemma StepEntityRoundTrip(e: StepEntity)
    ensures StepToEntity(StepToDomain(e), e.projectOwnerId) == e.(stepId := Unassigned)
  {
  }

  /** The step lists of a round trip: same contents in the same order, every id reset. */
  lemma {:induction false} StepsRoundTrip(ss: seq<Step>, projectId: int)
    ensures SameContents(StepsToDomain(StepsToEntities(ss, projectId)), ss)
    ensures forall s :: s in StepsToDomain(StepsToEntities(ss, projectId)) ==> s.stepId == Unassigned
  {
    var r := StepsToDomain(StepsToEntities(ss, projectId));
    forall s | s in r ensures s.stepId == Unassigned {
      var i :| 0 <= i < |r| && r[i] == s;
    }
  }

  /** Converting steps to rows looks only at their names and descriptions: the domain ids play no part. */
  lemma StepsToEntitiesIgnoresIds(a: seq<Step>, b: seq<Step>, projectId: int)
    requires SameContents(a, b)
    ensures StepsToEntities(a, projectId) == StepsToEntities(b, projectId)
  {
    var ra, rb := StepsToEntities(a, projectId), StepsToEntities(b, projectId);
    assert forall i :: 0 <= i < |ra| ==> ra[i] == rb[i];
  }

  /** Project row to domain and back: the row with its id reset and `isTemplate` cleared. */
  lemma ProjectEntityRoundTrip(e: ProjectEntity, steps: seq<StepEntity>)
    ensures ProjectToEntity(ProjectToDomain(e, steps)) == e.(projectId := Unassigned, isTemplate := false)
  {
  }

  /** Domain project to rows and back: name, description and step contents survive; ids are reset. */
  lemma ProjectRoundTrip(p: Project, projectId: int)
    ensures var q := ProjectToDomain(ProjectToEntity(p), StepsToEntities(p.steps, projectId));
      q.projectId == Unassigned && q.name == p.name && q.description == p.description
      && SameContents(q.steps, p.steps)
  {
    StepsRoundTrip(p.steps, projectId);
  }
}
