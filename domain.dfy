/** The in-memory domain objects the screens work with. */
module Domain {

  /** A project as the app logic sees it: its steps travel with it. */
  datatype Project = Project(projectId: int, name: string, description: string, steps: seq<Step> := [])

  /** A step as the app logic sees it: no owner, since ownership is contextual. */
  datatype Step = Step(stepId: int, name: string, description: string)

  /** The lightweight projection listed on the templates screen. */
  datatype ProjectHeader = ProjectHeader(projectId: int, name: string)

  /** A domain step's id, as a key for ordering. */
  function StepIdOf(s: Step): int { s.stepId }

  /** The marker appended to a live project's name when it is saved as a template from the home screen. */
  const TemplateSuffix: string := " (Template)"

  /** Two step lists that agree on every step's name and description, in order (ids aside). */
  predicate SameContents(a: seq<Step>, b: seq<Step>) {
    |a| == |b| && forall i :: 0 <= i < |a| ==> a[i].name == b[i].name && a[i].description == b[i].description
  }
}
