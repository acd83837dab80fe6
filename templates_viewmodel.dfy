/**
 * The saved-templates screen: a list of headers (id and display name) built
 * from the template rows, and a delete that goes through the repository by
 * name.
 */
module TemplatesViewModel {
  import opened Seqs
  import opened Entities
  import opened Domain
  import opened Dao
  import opened Repository

  /** One header per template row, in the rows' order: same id, the name shown without the home-screen suffix. */
  function TemplateHeaders(templates: seq<ProjectEntity>): (r: seq<ProjectHeader>)
    ensures |r| == |templates|
    ensures forall i :: 0 <= i < |r| ==> r[i].projectId == templates[i].projectId
    ensures forall i :: 0 <= i < |r| ==> r[i].name == RemoveSuffix(templates[i].name, TemplateSuffix)
  {
    seq(|templates|, i requires 0 <= i < |templates| =>
      ProjectHeader(templates[i].projectId, RemoveSuffix(templates[i].name, TemplateSuffix)))
  }

  /** Every header comes from a row with its id, and every row has a header. */
  lemma HeadersMatchRows(ts: seq<ProjectEntity>)
    ensures forall h :: h in TemplateHeaders(ts) ==> exists p :: p in ts && p.projectId == h.projectId
    ensures forall p :: p in ts ==> exists h :: h in TemplateHeaders(ts) && h.projectId == p.projectId
  {
    var hs := TemplateHeaders(ts);
    forall h | h in hs ensures exists p :: p in ts && p.projectId == h.projectId {
      var i :| 0 <= i < |hs| && hs[i] == h;
      assert ts[i] in ts;
    }
    forall p | p in ts ensures exists h :: h in hs && h.projectId == p.projectId {
      var i :| 0 <= i < |ts| && ts[i] == p;
      assert hs[i] in hs;
    }
  }

  /** A row named `x + " (Template)"` is listed under the name `x`. */
  lemma SuffixedRowShownBare(ts: seq<ProjectEntity>, p: ProjectEntity, x: string)
    requires p in ts && p.name == x + TemplateSuffix
    ensures ProjectHeader(p.projectId, x) in TemplateHeaders(ts)
  {
    var hs := TemplateHeaders(ts);
    var i :| 0 <= i < |ts| && ts[i] == p;
    RemoveAppendedSuffix(x, TemplateSuffix);
    assert hs[i] == ProjectHeader(p.projectId, x);
  }

  /**
   * On a consistent store the screen lists exactly the stored templates, one
   * header each, in ascending id order.
   */
  lemma HeadersListTemplates(t: Tables)
    requires t.Valid()
    ensures var hs := TemplateHeaders(t.AllTemplates());
      && (forall h :: h in hs ==> exists p :: p in t.projects && p.isTemplate && p.projectId == h.projectId)
      && (forall p :: p in t.projects && p.isTemplate ==> exists h :: h in hs && h.projectId == p.projectId)
      && (forall i, j :: 0 <= i < j < |hs| ==> hs[i].projectId < hs[j].projectId)
  {
    HeadersMatchRows(t.AllTemplates());
  }

  /**
   * As written, deleting the header of a home-screen template passes the
   * displayed name `x` to a delete that matches the stored name exactly: the
   * template, stored as `x + " (Template)"`, stays; and any other template
   * named exactly `x` is deleted in its place.
   */
  lemma DeleteByShownNameMissesTemplate(t: Tables, template: ProjectEntity, x: string)
    requires t.Valid() && template in t.projects && template.isTemplate
    requires template.name == x + TemplateSuffix
    ensures ProjectHeader(template.projectId, x) in TemplateHeaders(t.AllTemplates())
    ensures template in t.DeleteTemplateByName(x).projects
    ensures t.DeleteTemplateByName(x).StepsForProject(template.projectId) == t.StepsForProject(template.projectId)
    ensures forall other :: other in t.projects && other.isTemplate && other.name == x ==>
              other !in t.DeleteTemplateByName(x).projects
  {
    SuffixedRowShownBare(t.AllTemplates(), template, x);
    assert |template.name| > |x|;
    var r := t.DeleteTemplateByName(x);
    assert r.StepsForProject(template.projectId) == t.StepsForProject(template.projectId) by {
      assert template.projectId !in t.TemplateIdsNamed(x) by {
        if template.projectId in t.TemplateIdsNamed(x) {
          var q :| q in t.projects && q.isTemplate && q.name == x && q.projectId == template.projectId;
          UniqueKeys(t.projects, ProjectKey, q, template);
          assert false;
        }
      }
      FilterFilter(t.steps, OwnerNotIn(t.TemplateIdsNamed(x)), OwnedBy(template.projectId));
    }
  }

  /** The delete the header calls for: by the header's id, which names exactly the template it was built from. */
  function DeleteTemplateOfHeader(t: Tables, header: ProjectHeader): Tables {
    t.DeleteProject(header.projectId)
  }

  /** Deleting a project leaves every other project's steps as they were. */
  lemma DeleteKeepsOtherSteps(t: Tables, projectId: int)
    ensures forall q :: q != projectId ==> t.DeleteProject(projectId).StepsForProject(q) == t.StepsForProject(q)
  {
    var r := t.DeleteProject(projectId);
    assert r.steps == t.DeleteStepsByProjectId(projectId).steps;
    forall q | q != projectId ensures r.StepsForProject(q) == t.StepsForProject(q) {
      assert r.StepsForProject(q) == t.DeleteStepsByProjectId(projectId).StepsForProject(q);
    }
  }

  /** The row a header was built from. */
  lemma RowOfHeader(ts: seq<ProjectEntity>, header: ProjectHeader) returns (p: ProjectEntity)
    requires header in TemplateHeaders(ts)
    ensures p in ts && p.projectId == header.projectId
  {
    var hs := TemplateHeaders(ts);
    var i :| 0 <= i < |hs| && hs[i] == header;
    p := ts[i];
  }

  /** The header's id names a stored template, and only that one row carries it. */
  lemma HeaderNamesOneTemplate(t: Tables, header: ProjectHeader) returns (p: ProjectEntity)
    requires t.Valid() && header in TemplateHeaders(t.AllTemplates())
    ensures p in t.projects && p.isTemplate && p.projectId == header.projectId
    ensures forall l :: l in t.projects && l.projectId == header.projectId ==> l == p
  {
    p := RowOfHeader(t.AllTemplates(), header);
    forall l | l in t.projects && l.projectId == header.projectId ensures l == p {
      UniqueKeys(t.projects, ProjectKey, l, p);
    }
  }

  /**
   * Deleting by a listed header's id removes the template the header shows,
   * with its steps, and nothing else: every other row, live or template, stays.
   */
  lemma DeleteOfHeaderRemovesThatTemplate(t: Tables, header: ProjectHeader)
    requires t.Valid() && header in TemplateHeaders(t.AllTemplates())
    ensures var r := DeleteTemplateOfHeader(t, header);
      && r.Valid()
      && (exists p :: p in t.projects && p.isTemplate && p.projectId == header.projectId && p !in r.projects)
      && (forall p :: p in t.projects && p.projectId != header.projectId ==> p in r.projects)
      && (forall p :: p in t.projects && !p.isTemplate ==> p in r.projects)
      && r.StepsForProject(header.projectId) == []
      && (forall q :: q != header.projectId ==> r.StepsForProject(q) == t.StepsForProject(q))
  {
    var p := HeaderNamesOneTemplate(t, header);
    DeleteKeepsOtherSteps(t, header.projectId);
  }

  /** The saved-templates screen's state. */
  class SavedTemplatesViewModel {
    const repository: ChecklistRepository
    var templates: seq<ProjectHeader>

    /** Opening the screen, with the template query run to its first emission. */
    constructor (repository: ChecklistRepository)
      ensures this.repository == repository
      ensures templates == TemplateHeaders(repository.dao.State().AllTemplates())
    {
      this.repository := repository;
      var rows := repository.dao.State().AllTemplates();
      templates := TemplateHeaders(rows);
    }

    /** A later emission of the template query. */
    method LoadTemplates()
      modifies this
      ensures templates == TemplateHeaders(repository.dao.State().AllTemplates())
    {
      var rows := repository.dao.State().AllTemplates();
      templates := TemplateHeaders(rows);
    }

    /** Deletes every template stored under exactly `projectName`, with its steps. */
    method DeleteTemplate(projectName: string)
      requires repository.Valid()
      modifies repository.dao
      ensures repository.Valid()
      ensures repository.dao.State() == old(repository.dao.State()).DeleteTemplateByName(projectName)
    {
      repository.DeleteTemplateByName(projectName);
    }
  }
}
