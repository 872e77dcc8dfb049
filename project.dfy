/**
 * packages/backend-project: the project collection and the five service
 * operations over it. The collection is a sequence of rows in insertion
 * order; the query operators `find`/`sort`/`skip`/`limit`/`countDocuments`
 * are the functions of the Seqs module. New ids and the clock are
 * parameters.
 */
module Projects {
  import opened Common
  import opened Strs
  import opened Enums
  import opened Errors
  import Seqs
  import Validation

  datatype Project = Project(id: string, ownerId: string, name: string, description: string,
                             status: ProjectStatus, settings: Value, createdAt: int, updatedAt: int)

  /**
   * The fields `createProject` uses from `data`. `ownerId` is whatever the
   * caller's object held under that name; the service overrides it.
   */
  datatype ProjectData = ProjectData(name: string, description: Option<string>, status: Option<ProjectStatus>,
                                     settings: Option<Value>, ownerId: Option<string>)

  datatype Meta = Meta(page: int, limit: int, total: int)
  datatype Listing = Listing(projects: seq<Project>, meta: Meta)

  /** `{ ownerId, status: { $ne: 'deleted' } }`. */
  function Visible(rows: seq<Project>, ownerId: string): (r: seq<Project>)
    ensures forall i :: 0 <= i < |r| ==> r[i] in rows && r[i].ownerId == ownerId && r[i].status != Deleted
    ensures forall i :: 0 <= i < |rows| && rows[i].ownerId == ownerId && rows[i].status != Deleted ==> rows[i] in r
  {
    Seqs.Filter(rows, (p: Project) => p.ownerId == ownerId && p.status != Deleted)
  }

  function UpdatedAt(p: Project): int {
    p.updatedAt
  }

  /** `(page - 1) * limit`: the rows skipped before page `page`. */
  function Offset(page: int, limit: int): nat
    requires page >= 1 && limit >= 1
  {
    (page - 1) * limit
  }

  /**
   * The size of a page of `limit` rows that starts `skip` rows into `total`:
   * `limit` rows, fewer on the last page and none past it.
   */
  function PageLength(total: nat, skip: nat, limit: nat): (n: nat)
    ensures n <= limit
    ensures n == 0 <==> total <= skip || limit == 0
    ensures n > 0 ==> skip + n <= total
    ensures skip + limit <= total ==> n == limit
  {
    if total <= skip then 0 else if total - skip < limit then total - skip else limit
  }

  /**
   * `getProjectsByUser(ownerId, { page, limit })` over the rows of the
   * collection: the owner's projects that are not deleted, newest change
   * first, page `page` of size `limit`: the run of the sorted rows that
   * starts `(page - 1) * limit` rows in. The route has validated `page >= 1`
   * and `limit >= 1`.
   */
  function ListPage(rows: seq<Project>, ownerId: string, page: int, limit: int): (r: Listing)
    requires page >= 1 && limit >= 1
    ensures |r.projects| == PageLength(|Visible(rows, ownerId)|, Offset(page, limit), limit)
    ensures r.projects == Seqs.Page(Seqs.SortDesc(Visible(rows, ownerId), UpdatedAt), Offset(page, limit), limit)
    ensures forall i :: 0 <= i < |r.projects| ==>
      r.projects[i] in rows && r.projects[i].ownerId == ownerId && r.projects[i].status != Deleted
    ensures forall i, j :: 0 <= i < j < |r.projects| ==> r.projects[i].updatedAt >= r.projects[j].updatedAt
    ensures r.meta == Meta(page, limit, |Visible(rows, ownerId)|)
  {
    var visible := Visible(rows, ownerId);
    var sorted := Seqs.SortDesc(visible, UpdatedAt);
    SortedVisible(rows, ownerId);
    var skip := Offset(page, limit);
    var projects := Seqs.Page(sorted, skip, limit);
    assert |projects| == PageLength(|visible|, skip, limit);
    Listing(projects, Meta(page, limit, |visible|))
  }

  /** The visible projects in update order are all visible, newest change first. */
  lemma SortedVisible(rows: seq<Project>, ownerId: string)
    ensures var sorted := Seqs.SortDesc(Visible(rows, ownerId), UpdatedAt);
      (forall i :: 0 <= i < |sorted| ==>
        sorted[i] in rows && sorted[i].ownerId == ownerId && sorted[i].status != Deleted)
      && Seqs.SortedDesc(sorted, UpdatedAt)
  {
    var visible := Visible(rows, ownerId);
    var sorted := Seqs.SortDesc(visible, UpdatedAt);
    Seqs.SortDescSorted(visible, UpdatedAt);
    forall i | 0 <= i < |sorted| ensures sorted[i] in visible {
      assert sorted[i] in multiset(sorted);
    }
  }

  /**
   * Every visible project is listed: the `k`-th in update order is row
   * `k % limit` of page `k / limit + 1`.
   */
  lemma EveryVisibleIsListed(rows: seq<Project>, ownerId: string, limit: int, k: nat)
    requires limit >= 1 && k < |Visible(rows, ownerId)|
    ensures var r := ListPage(rows, ownerId, k / limit + 1, limit);
      k % limit < |r.projects| && r.projects[k % limit] == Seqs.SortDesc(Visible(rows, ownerId), UpdatedAt)[k]
  {
    var page := k / limit + 1;
    var skip := Offset(page, limit);
    assert skip == (k / limit) * limit;
    assert skip + k % limit == k;
    var total := |Visible(rows, ownerId)|;
    assert skip <= k < total;
    assert k % limit < PageLength(total, skip, limit);
  }

  /** The first index holding a project with this id and owner. */
  function FindIndex(rows: seq<Project>, id: string, ownerId: string): (k: Option<nat>)
    ensures k.Some? ==> k.value < |rows| && rows[k.value].id == id && rows[k.value].ownerId == ownerId
    ensures k.Some? ==> forall i :: 0 <= i < k.value ==> !(rows[i].id == id && rows[i].ownerId == ownerId)
    ensures k.None? ==> forall i :: 0 <= i < |rows| ==> !(rows[i].id == id && rows[i].ownerId == ownerId)
  {
    if rows == [] then None
    else if rows[0].id == id && rows[0].ownerId == ownerId then Some(0)
    else match FindIndex(rows[1..], id, ownerId)
      case None => None
      case Some(k) => Some(k + 1)
  }

  /** `updateProject`'s update document applied to one row; absent fields are left alone. */
  function ApplyUpdate(p: Project, u: Validation.UpdateProjectInput, now: int): (q: Project)
    ensures q.id == p.id && q.ownerId == p.ownerId && q.createdAt == p.createdAt && q.updatedAt == now
    ensures q.name == (if u.name.Some? then Trim(u.name.value) else p.name)
    ensures q.description == (if u.description.Some? then u.description.value else p.description)
    ensures q.status == (if u.status.Some? then u.status.value else p.status)
    ensures q.settings == (if u.settings.Some? then u.settings.value else p.settings)
  {
    p.(name := if u.name.Some? then Trim(u.name.value) else p.name,
       description := if u.description.Some? then u.description.value else p.description,
       status := if u.status.Some? then u.status.value else p.status,
       settings := if u.settings.Some? then u.settings.value else p.settings,
       updatedAt := now)
  }

  predicate UniqueIds(rows: seq<Project>) {
    forall i, j :: 0 <= i < j < |rows| ==> rows[i].id != rows[j].id
  }

  lemma AppendKeepsUnique(rows: seq<Project>, p: Project)
    requires UniqueIds(rows) && forall i :: 0 <= i < |rows| ==> rows[i].id != p.id
    ensures UniqueIds(rows + [p])
  {
  }

  /** After a soft delete the project is absent from every listing of its owner. */
  lemma DeletedNotListed(rows: seq<Project>, k: nat, now: int, ownerId: string)
    requires UniqueIds(rows) && k < |rows|
    ensures var after := rows[k := rows[k].(status := Deleted, updatedAt := now)];
      forall i :: 0 <= i < |Visible(after, ownerId)| ==> Visible(after, ownerId)[i].id != rows[k].id
  {
    var after := rows[k := rows[k].(status := Deleted, updatedAt := now)];
    var v := Visible(after, ownerId);
    forall i | 0 <= i < |v| ensures v[i].id != rows[k].id {
      var j :| 0 <= j < |after| && after[j] == v[i];
      if j != k {
        assert after[j] == rows[j];
      }
    }
  }

  /** The project table with the service operations on it. */
  class ProjectStore {
    var rows: seq<Project>

    ghost predicate Valid()
      reads this
    {
      UniqueIds(rows)
    }

    constructor()
      ensures Valid() && rows == []
    {
      rows := [];
    }

    predicate HasId(id: string)
      reads this
    {
      exists i :: 0 <= i < |rows| && rows[i].id == id
    }

    /**
     * `createProject(ownerId, data)`: `{ ...data, ownerId }` with the schema
     * defaults; the owner is always the caller.
     */
    method Create(ownerId: string, data: ProjectData, newId: string, now: int) returns (p: Project)
      requires Valid() && !HasId(newId)
      modifies this
      ensures Valid() && rows == old(rows) + [p]
      ensures p.id == newId && p.ownerId == ownerId && p.name == Trim(data.name)
      ensures p.description == (if data.description.Some? then data.description.value else "")
      ensures p.status == (if data.status.Some? then data.status.value else Active)
      ensures p.settings == (if data.settings.Some? then data.settings.value else EmptyObject)
      ensures p.createdAt == now && p.updatedAt == now
    {
      p := Project(newId, ownerId, Trim(data.name),
                   if data.description.Some? then data.description.value else "",
                   if data.status.Some? then data.status.value else Active,
                   if data.settings.Some? then data.settings.value else EmptyObject,
                   now, now);
      AppendKeepsUnique(rows, p);
      rows := rows + [p];
    }

    /** `getProjectById`: the id and the owner must both match; the status is not looked at. */
    function Get(id: string, ownerId: string): (r: Result<Project, Error>)
      reads this
      ensures r.Ok? <==> exists i :: 0 <= i < |rows| && rows[i].id == id && rows[i].ownerId == ownerId
      ensures r.Ok? ==> r.value in rows && r.value.id == id && r.value.ownerId == ownerId
      ensures r.Err? ==> r.error == NewNotFoundError("Project", id)
    {
      match FindIndex(rows, id, ownerId)
      case None => Err(NewNotFoundError("Project", id))
      case Some(k) => Ok(rows[k])
    }

    /** `updateProject`: the matching row is updated in place and returned. */
    method Update(id: string, ownerId: string, updates: Validation.UpdateProjectInput, now: int)
      returns (r: Result<Project, Error>)
      requires Valid()
      modifies this
      ensures Valid()
      ensures FindIndex(old(rows), id, ownerId).None? ==>
        r == Err(NewNotFoundError("Project", id)) && rows == old(rows)
      ensures FindIndex(old(rows), id, ownerId).Some? ==>
        var k := FindIndex(old(rows), id, ownerId).value;
        rows == old(rows)[k := ApplyUpdate(old(rows)[k], updates, now)] && r == Ok(rows[k])
    {
      match FindIndex(rows, id, ownerId)
      case None =>
        r := Err(NewNotFoundError("Project", id));
      case Some(k) =>
        var updated := ApplyUpdate(rows[k], updates, now);
        rows := rows[k := updated];
        r := Ok(updated);
    }

    /** `deleteProject`: a soft delete; the row stays with status `deleted`. */
    method Delete(id: string, ownerId: string, now: int) returns (r: Result<bool, Error>)
      requires Valid()
      modifies this
      ensures Valid() && |rows| == |old(rows)|
      ensures FindIndex(old(rows), id, ownerId).None? ==>
        r == Err(NewNotFoundError("Project", id)) && rows == old(rows)
      ensures FindIndex(old(rows), id, ownerId).Some? ==>
        var k := FindIndex(old(rows), id, ownerId).value;
        rows == old(rows)[k := old(rows)[k].(status := Deleted, updatedAt := now)] && r == Ok(true)
    {
      match FindIndex(rows, id, ownerId)
      case None =>
        r := Err(NewNotFoundError("Project", id));
      case Some(k) =>
        rows := rows[k := rows[k].(status := Deleted, updatedAt := now)];
        r := Ok(true);
    }
  }
}
