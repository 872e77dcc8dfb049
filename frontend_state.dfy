/**
 * packages/frontend-state: the four client stores and their mutations.
 * Each store is a class whose fields the actions reassign. Jobs, projects,
 * users and notifications are JavaScript values; `Object.assign` is
 * `Assign` over an object's entries. Persistence to `localStorage` is not
 * modelled; the persisted user and token are constructor parameters.
 */
module FrontendState {
  import opened Common
  import opened Strs
  import Seqs

  // ----- Object.assign -----

  predicate HasKey(entries: seq<(string, Value)>, key: string) {
    exists i :: 0 <= i < |entries| && entries[i].0 == key
  }

  predicate UniqueKeys(entries: seq<(string, Value)>) {
    forall i, j :: 0 <= i < j < |entries| ==> entries[i].0 != entries[j].0
  }

  /**
   * Sets one property, leaving every other property as it was. The model
   * keeps an existing property in its place and appends a new one; the
   * order of properties is not observed anywhere (JavaScript would list
   * integer-like keys first).
   */
  function SetProperty(target: seq<(string, Value)>, key: string, v: Value): (r: seq<(string, Value)>)
    ensures Lookup(r, key) == v
    ensures forall k :: k != key ==> Lookup(r, k) == Lookup(target, k)
  {
    if target == [] then [(key, v)]
    else if target[0].0 == key then [(key, v)] + target[1..]
    else [target[0]] + SetProperty(target[1..], key, v)
  }

  /** `Object.assign(target, source)` on the entries of two objects. */
  function Assign(target: seq<(string, Value)>, source: seq<(string, Value)>): seq<(string, Value)>
    decreases |source|
  {
    if source == [] then target
    else Assign(SetProperty(target, source[0].0, source[0].1), source[1..])
  }

  /** After `Object.assign` each property of the source wins and every other property is the target's. */
  lemma {:induction false} AssignLookup(target: seq<(string, Value)>, source: seq<(string, Value)>, key: string)
    requires UniqueKeys(source)
    ensures Lookup(Assign(target, source), key) ==
      if HasKey(source, key) then Lookup(source, key) else Lookup(target, key)
    decreases |source|
  {
    if source != [] {
      var rest := source[1..];
      AssignLookup(SetProperty(target, source[0].0, source[0].1), rest, key);
      if key == source[0].0 {
        assert !HasKey(rest, key) by {
          forall i | 0 <= i < |rest| ensures rest[i].0 != key {
            assert rest[i] == source[i + 1];
          }
        }
      } else if HasKey(rest, key) {
        var i :| 0 <= i < |rest| && rest[i].0 == key;
        assert source[i + 1].0 == key;
      } else {
        assert !HasKey(source, key) by {
          forall i | 0 <= i < |source| ensures source[i].0 != key {
            if i > 0 { assert source[i] == rest[i - 1]; }
          }
        }
      }
    }
  }

  /** A property the source does not have is left as the target had it. */
  lemma {:induction false} AssignKeepsOthers(target: seq<(string, Value)>, source: seq<(string, Value)>, key: string)
    requires !HasKey(source, key)
    ensures Lookup(Assign(target, source), key) == Lookup(target, key)
    decreases |source|
  {
    if source != [] {
      var rest := source[1..];
      assert !HasKey(rest, key) by {
        forall i | 0 <= i < |rest| ensures rest[i].0 != key {
          assert rest[i] == source[i + 1];
        }
      }
      assert source[0].0 != key;
      AssignKeepsOthers(SetProperty(target, source[0].0, source[0].1), rest, key);
    }
  }

  /** Merging into a value: only an object target is changed, and only an object source contributes. */
  function Merge(target: Value, updates: Value): Value {
    match target
    case Obj(fields) => if updates.Obj? then Obj(Assign(fields, updates.fields)) else target
    case _ => target
  }

  // ----- auth store -----

  class AuthStore {
    var user: Value
    var accessToken: Option<string>
    var isAuthenticated: bool
    var isLoading: bool

    /** The store as restored from storage: authenticated when a non-empty token was persisted. */
    constructor(persistedUser: Value, persistedToken: Option<string>)
      ensures user == persistedUser && accessToken == persistedToken && !isLoading
      ensures isAuthenticated <==> persistedToken.Some? && persistedToken.value != ""
    {
      user := persistedUser;
      accessToken := persistedToken;
      isAuthenticated := persistedToken.Some? && persistedToken.value != "";
      isLoading := false;
    }

    /** `setAuth(user, accessToken)`. */
    method SetAuth(u: Value, token: string)
      modifies this
      ensures user == u && accessToken == Some(token) && isAuthenticated
      ensures isLoading == old(isLoading)
    {
      user := u;
      accessToken := Some(token);
      isAuthenticated := true;
    }

    /** `clearAuth()`. */
    method ClearAuth()
      modifies this
      ensures user == Null && accessToken == None && !isAuthenticated
      ensures isLoading == old(isLoading)
    {
      user := Null;
      accessToken := None;
      isAuthenticated := false;
    }
  }

  // ----- project store -----

  datatype Meta = Meta(page: int, limit: int, total: int)

  class ProjectStore {
    var projects: seq<Value>
    var currentProject: Value
    var isLoading: bool
    var meta: Meta

    constructor()
      ensures projects == [] && currentProject == Null && !isLoading && meta == Meta(1, 20, 0)
    {
      projects := [];
      currentProject := Null;
      isLoading := false;
      meta := Meta(1, 20, 0);
    }

    /** `setProjects(projects, meta)`: the meta is replaced only when one is given. */
    method SetProjects(ps: seq<Value>, m: Option<Meta>)
      modifies this
      ensures projects == ps
      ensures meta == if m.Some? then m.value else old(meta)
      ensures currentProject == old(currentProject) && isLoading == old(isLoading)
    {
      projects := ps;
      if m.Some? {
        meta := m.value;
      }
    }

    /** `addProject(project)`: the new project goes first and the total grows by one. */
    method AddProject(p: Value)
      modifies this
      ensures projects == [p] + old(projects)
      ensures meta == old(meta).(total := old(meta).total + 1)
      ensures currentProject == old(currentProject) && isLoading == old(isLoading)
    {
      projects := [p] + projects;
      meta := meta.(total := meta.total + 1);
    }

    method SetCurrentProject(p: Value)
      modifies this
      ensures currentProject == p
      ensures projects == old(projects) && meta == old(meta) && isLoading == old(isLoading)
    {
      currentProject := p;
    }
  }

  // ----- AI store -----

  /** `jobs.findIndex((j) => j.id === jobId)`, with `None` for -1. */
  function FindJob(jobs: seq<Value>, jobId: Value): (k: Option<nat>)
    ensures k.Some? ==> k.value < |jobs| && Get(jobs[k.value], "id") == jobId
    ensures k.Some? ==> forall i :: 0 <= i < k.value ==> Get(jobs[i], "id") != jobId
    ensures k.None? ==> forall i :: 0 <= i < |jobs| ==> Get(jobs[i], "id") != jobId
  {
    if jobs == [] then None
    else if Get(jobs[0], "id") == jobId then Some(0)
    else match FindJob(jobs[1..], jobId)
      case None => None
      case Some(k) => Some(k + 1)
  }

  /** The job list after `updateJob(jobId, updates)`. */
  function UpdatedJobs(jobs: seq<Value>, jobId: Value, updates: Value): (r: seq<Value>)
    ensures |r| == |jobs|
    ensures FindJob(jobs, jobId).None? ==> r == jobs
    ensures FindJob(jobs, jobId).Some? ==>
      var k := FindJob(jobs, jobId).value;
      r[k] == Merge(jobs[k], updates) && forall i :: 0 <= i < |jobs| && i != k ==> r[i] == jobs[i]
  {
    match FindJob(jobs, jobId)
    case None => jobs
    case Some(k) => jobs[k := Merge(jobs[k], updates)]
  }

  /**
   * Updating a job whose id is present merges exactly into the first job
   * with that id: each updated property takes its new value and every other
   * property keeps its old one.
   */
  lemma UpdateJobMerges(jobs: seq<Value>, jobId: Value, updates: Value, key: string)
    requires FindJob(jobs, jobId).Some?
    requires jobs[FindJob(jobs, jobId).value].Obj? && updates.Obj? && UniqueKeys(updates.fields)
    ensures var k := FindJob(jobs, jobId).value;
      Get(UpdatedJobs(jobs, jobId, updates)[k], key) ==
        if HasKey(updates.fields, key) then Get(updates, key) else Get(jobs[k], key)
  {
    var k := FindJob(jobs, jobId).value;
    AssignLookup(jobs[k].fields, updates.fields, key);
  }

  predicate NotJob(j: Value, jobId: Value) {
    Get(j, "id") != jobId
  }

  /** The job list after `removeJob(jobId)`. */
  function RemainingJobs(jobs: seq<Value>, jobId: Value): (r: seq<Value>)
    ensures forall i :: 0 <= i < |r| ==> r[i] in jobs && Get(r[i], "id") != jobId
    ensures forall i :: 0 <= i < |jobs| && Get(jobs[i], "id") != jobId ==> jobs[i] in r
  {
    Seqs.Filter(jobs, (j: Value) => NotJob(j, jobId))
  }

  /** Removing a job keeps the other jobs in their order: removal distributes over concatenation. */
  lemma RemoveKeepsOrder(a: seq<Value>, b: seq<Value>, jobId: Value)
    ensures RemainingJobs(a + b, jobId) == RemainingJobs(a, jobId) + RemainingJobs(b, jobId)
  {
    Seqs.FilterAppend(a, b, (j: Value) => NotJob(j, jobId));
  }

  class AiStore {
    var activeJobs: seq<Value>
    var generations: seq<Value>
    var isGenerating: bool

    constructor()
      ensures activeJobs == [] && generations == [] && !isGenerating
    {
      activeJobs := [];
      generations := [];
      isGenerating := false;
    }

    /** `addJob(job)`: appended at the end. */
    method AddJob(job: Value)
      modifies this
      ensures activeJobs == old(activeJobs) + [job]
      ensures generations == old(generations) && isGenerating == old(isGenerating)
    {
      activeJobs := activeJobs + [job];
    }

    /** `updateJob(jobId, updates)`. */
    method UpdateJob(jobId: Value, updates: Value)
      modifies this
      ensures activeJobs == UpdatedJobs(old(activeJobs), jobId, updates)
      ensures generations == old(generations) && isGenerating == old(isGenerating)
    {
      var idx := FindJob(activeJobs, jobId);
      if idx.Some? {
        activeJobs := activeJobs[idx.value := Merge(activeJobs[idx.value], updates)];
      }
    }

    /** `removeJob(jobId)`. */
    method RemoveJob(jobId: Value)
      modifies this
      ensures activeJobs == RemainingJobs(old(activeJobs), jobId)
      ensures generations == old(generations) && isGenerating == old(isGenerating)
    {
      activeJobs := RemainingJobs(activeJobs, jobId);
    }
  }

  // ----- UI store -----

  datatype Modal = Modal(id: Value, data: Value)

  /** `{ id, ...notification }`: a property `id` of the notification replaces the generated one. */
  function NotificationEntry(id: string, notification: Value): (r: Value)
    ensures r.Obj?
    ensures !(notification.Obj? && HasKey(notification.fields, "id")) ==> Get(r, "id") == Str(id)
    ensures notification.Obj? && UniqueKeys(notification.fields) && HasKey(notification.fields, "id") ==>
      Get(r, "id") == Lookup(notification.fields, "id")
  {
    match notification
    case Obj(fields) =>
      AssignLookupCases([("id", Str(id))], fields, "id");
      Obj(Assign([("id", Str(id))], fields))
    case _ => Obj([("id", Str(id))])
  }

  /** `AssignLookup` and `AssignKeepsOthers` together, for any source. */
  lemma AssignLookupCases(target: seq<(string, Value)>, source: seq<(string, Value)>, key: string)
    ensures !HasKey(source, key) ==> Lookup(Assign(target, source), key) == Lookup(target, key)
    ensures UniqueKeys(source) && HasKey(source, key) ==> Lookup(Assign(target, source), key) == Lookup(source, key)
  {
    if !HasKey(source, key) {
      AssignKeepsOthers(target, source, key);
    } else if UniqueKeys(source) {
      AssignLookup(target, source, key);
    }
  }

  class UiStore {
    var sidebarOpen: bool
    var activeModal: Option<Modal>
    var notifications: seq<Value>

    constructor()
      ensures sidebarOpen && activeModal == None && notifications == []
    {
      sidebarOpen := true;
      activeModal := None;
      notifications := [];
    }

    /** `toggleSidebar()`. */
    method ToggleSidebar()
      modifies this
      ensures sidebarOpen == !old(sidebarOpen)
      ensures activeModal == old(activeModal) && notifications == old(notifications)
    {
      sidebarOpen := !sidebarOpen;
    }

    /**
     * `showModal(modalId, data)`: `data` defaults to `null`, and the default
     * also replaces an explicit `undefined`.
     */
    method ShowModal(modalId: Value, data: Value := Null)
      modifies this
      ensures activeModal == Some(Modal(modalId, if data.Undefined? then Null else data))
      ensures sidebarOpen == old(sidebarOpen) && notifications == old(notifications)
    {
      activeModal := Some(Modal(modalId, if data.Undefined? then Null else data));
    }

    /** `closeModal()`. */
    method CloseModal()
      modifies this
      ensures activeModal == None
      ensures sidebarOpen == old(sidebarOpen) && notifications == old(notifications)
    {
      activeModal := None;
    }

    /**
     * `addNotification(notification)` at clock reading `now`; it returns the
     * generated id, which the removal timer later passes to `ExpireNotification`.
     */
    method AddNotification(notification: Value, now: int) returns (id: string)
      modifies this
      ensures id == IntToString(now)
      ensures notifications == old(notifications) + [NotificationEntry(id, notification)]
      ensures sidebarOpen == old(sidebarOpen) && activeModal == old(activeModal)
    {
      id := IntToString(now);
      notifications := notifications + [NotificationEntry(id, notification)];
    }

    /** The body of the 5-second timer: every notification with that id is dropped. */
    method ExpireNotification(id: string)
      modifies this
      ensures notifications == Seqs.Filter(old(notifications), (n: Value) => Get(n, "id") != Str(id))
      ensures sidebarOpen == old(sidebarOpen) && activeModal == old(activeModal)
    {
      notifications := Seqs.Filter(notifications, (n: Value) => Get(n, "id") != Str(id));
    }
  }

  /**
   * Two notifications added in the same millisecond get the same id, so the
   * first one's timer removes both.
   */
  lemma SameMillisecondShareExpiry(n1: Value, n2: Value, now: int)
    requires !(n1.Obj? && HasKey(n1.fields, "id")) && !(n2.Obj? && HasKey(n2.fields, "id"))
    ensures var id := IntToString(now);
      Seqs.Filter([NotificationEntry(id, n1), NotificationEntry(id, n2)], (n: Value) => Get(n, "id") != Str(id)) == []
  {
  }
}
