/** What the two catalogue screens (services, student programs) do alike:
    the status toggle, and which backend write a save, a delete or a toggle
    issues and what the screen does once it settled. */
module Catalog {
  import opened Common
  import opened AdminService
  import opened CacheManager

  /** `status === 'published' ? 'draft' : 'published'`. */
  function ToggledStatus(status: string): string
  {
    if status == "published" then "draft" else "published"
  }

  /** The write a save issues: an update of the record being edited
      (`current` is its id), or a create when none is. */
  function SaveMutation(f: Family, current: Option<string>): Mutation
  {
    if current.Some? then Update(f, current.value) else Create(f)
  }

  /** What the screen does once the save's write settled: on success it
      refetches and closes the modal; on failure the error goes back to the
      modal, which stays open. */
  datatype SaveEffect = SaveEffect(modalOpen: bool, refetched: bool, rethrown: bool)

  function AfterSave(modalOpen: bool, outcome: Result<Json>): SaveEffect
  {
    if outcome.Ok? then SaveEffect(false, true, false) else SaveEffect(modalOpen, false, true)
  }

  /** `handleDelete`: the soft delete is issued only when confirmed. */
  function DeleteMutation(f: Family, id: string, confirmed: bool): Option<Mutation>
  {
    if confirmed then Some(SoftDelete(f, id)) else None
  }

  /** `toggleStatus`: an update of the record carrying only the new status. */
  function ToggleRequest(f: Family, id: string, status: string): (Mutation, map<string, Json>)
  {
    (Update(f, id), map["status" := JStr(ToggledStatus(status))])
  }

  /** The session cache after a save whose write produced `outcome`. */
  function StorageAfterSave(s: Storage, f: Family, current: Option<string>, outcome: Result<Json>): Storage
  {
    AfterMutation(s, SaveMutation(f, current), outcome)
  }

  /** The session cache after `handleDelete`: untouched unless confirmed. */
  function StorageAfterDelete(s: Storage, f: Family, id: string, confirmed: bool, outcome: Result<Json>): Storage
  {
    match DeleteMutation(f, id, confirmed)
    case None => s
    case Some(m) => AfterMutation(s, m, outcome)
  }

  /** The session cache after `toggleStatus`. */
  function StorageAfterToggle(s: Storage, f: Family, id: string, status: string, outcome: Result<Json>): Storage
  {
    AfterMutation(s, ToggleRequest(f, id, status).0, outcome)
  }

  // ---- Properties ----

  /** The toggle yields `'draft'` exactly from `'published'`, always yields
      one of the two, and undoes itself on them. */
  lemma ToggleSpec(status: string)
    ensures ToggledStatus(status) == "draft" <==> status == "published"
    ensures ToggledStatus(status) in {"published", "draft"}
    ensures status in {"published", "draft"} ==> ToggledStatus(ToggledStatus(status)) == status
  {
  }

  /** After any successful write of a catalogue family, both cached lists
      of that family miss, so the refetch goes to the backend. */
  lemma RefetchAfterWriteMisses(s: Storage, m: Mutation, v: Json, flag: bool, now: int)
    requires !m.UpdateSetting?
    ensures !IsHit(AfterMutation(s, m, Ok(v)), ListKey(m.family, flag), now)
  {
    match m.family
    case Services => ServiceWriteInvalidates(s, m, v, flag, "", now);
    case Jobs => JobWriteInvalidates(s, m, v, flag, "", now);
    case Blogs => BlogWriteInvalidates(s, m, v, flag, "", now);
    case Programs => ProgramListsInvalidated(s, m, v, flag, now);
  }

  /** After a successful update or soft delete, the record's own cached
      entry misses as well. */
  lemma WriteMissesRecord(s: Storage, m: Mutation, v: Json, now: int)
    requires m.Update? || m.SoftDelete?
    ensures !IsHit(AfterMutation(s, m, Ok(v)), DetailKey(m.family, m.id), now)
  {
    match m.family
    case Services => ServiceWriteInvalidates(s, m, v, true, m.id, now);
    case Jobs => JobWriteInvalidates(s, m, v, true, m.id, now);
    case Blogs => BlogWriteInvalidates(s, m, v, true, m.id, now);
    case Programs => ProgramWriteInvalidates(s, m, v, true, now);
  }

  /** A save updates exactly when a record is being edited, and then that
      record, otherwise it creates; once it succeeded neither cached list
      nor the edited record is served from the cache. */
  lemma SaveBranches(s: Storage, f: Family, current: Option<string>, v: Json, flag: bool, now: int)
    ensures SaveMutation(f, current).Update? <==> current.Some?
    ensures current.Some? ==> SaveMutation(f, current) == Update(f, current.value)
    ensures current.None? ==> SaveMutation(f, current) == Create(f)
    ensures !IsHit(StorageAfterSave(s, f, current, Ok(v)), ListKey(f, flag), now)
    ensures current.Some? ==> !IsHit(StorageAfterSave(s, f, current, Ok(v)), DetailKey(f, current.value), now)
  {
    RefetchAfterWriteMisses(s, SaveMutation(f, current), v, flag, now);
    if current.Some? {
      WriteMissesRecord(s, SaveMutation(f, current), v, now);
    }
  }

  /** A failed save leaves the cache as it was and the modal open, with the
      error handed back to it; a successful one closes the modal and
      refetches a list the cache no longer holds. */
  lemma SaveClosesOnlyOnSuccess(s: Storage, f: Family, current: Option<string>, modalOpen: bool,
                                outcome: Result<Json>, now: int)
    ensures outcome.Err? ==>
      StorageAfterSave(s, f, current, outcome) == s
      && AfterSave(modalOpen, outcome) == SaveEffect(modalOpen, false, true)
    ensures outcome.Ok? ==>
      AfterSave(modalOpen, outcome) == SaveEffect(false, true, false)
      && !IsHit(StorageAfterSave(s, f, current, outcome), ListKey(f, true), now)
  {
    if outcome.Ok? {
      RefetchAfterWriteMisses(s, SaveMutation(f, current), outcome.value, true, now);
    }
  }

  /** Without confirmation nothing is written and the cache is untouched; a
      confirmed delete is a soft delete of that record, and once it
      succeeded the refetched list and the record miss the cache. */
  lemma DeleteOnlyWhenConfirmed(s: Storage, f: Family, id: string, confirmed: bool, outcome: Result<Json>, now: int)
    ensures DeleteMutation(f, id, confirmed).Some? <==> confirmed
    ensures confirmed ==> DeleteMutation(f, id, confirmed) == Some(SoftDelete(f, id))
    ensures !confirmed || outcome.Err? ==> StorageAfterDelete(s, f, id, confirmed, outcome) == s
    ensures confirmed && outcome.Ok? ==>
      !IsHit(StorageAfterDelete(s, f, id, confirmed, outcome), ListKey(f, true), now)
      && !IsHit(StorageAfterDelete(s, f, id, confirmed, outcome), DetailKey(f, id), now)
  {
    if confirmed && outcome.Ok? {
      RefetchAfterWriteMisses(s, SoftDelete(f, id), outcome.value, true, now);
      WriteMissesRecord(s, SoftDelete(f, id), outcome.value, now);
    }
  }

  /** The toggle sends an update of that record carrying only the flipped
      status; a failure leaves the cache as it was, a success makes the
      refetched list and the record miss it. */
  lemma ToggleWrites(s: Storage, f: Family, id: string, status: string, outcome: Result<Json>, now: int)
    ensures ToggleRequest(f, id, status).0 == Update(f, id)
    ensures ToggleRequest(f, id, status).1.Keys == {"status"}
    ensures ToggleRequest(f, id, status).1["status"] == JStr("draft") <==> status == "published"
    ensures outcome.Err? ==> StorageAfterToggle(s, f, id, status, outcome) == s
    ensures outcome.Ok? ==>
      !IsHit(StorageAfterToggle(s, f, id, status, outcome), ListKey(f, true), now)
      && !IsHit(StorageAfterToggle(s, f, id, status, outcome), DetailKey(f, id), now)
  {
    if outcome.Ok? {
      RefetchAfterWriteMisses(s, Update(f, id), outcome.value, true, now);
      WriteMissesRecord(s, Update(f, id), outcome.value, now);
    }
  }
}
