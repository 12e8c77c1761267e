/**
 * The audit and soft-delete state every entity carries: creation and update
 * stamps, a deletion stamp and an active flag. The pre-persist and
 * pre-update callbacks are methods the persistence layer would call.
 */
module Audit {
  import opened JavaLang

  class BaseEntity {
    var id: Option<int>
    var createdAt: Option<int>
    var updatedAt: Option<int>
    var deletedAt: Option<int>
    var isActive: Option<bool>

    /** A new entity is active and carries no stamp and no id yet. */
    constructor ()
      ensures isActive == Some(true)
      ensures id == None && createdAt == None && updatedAt == None && deletedAt == None
      ensures !IsDeleted()
    {
      id, createdAt, updatedAt, deletedAt := None, None, None, None;
      isActive := Some(true);
    }

    /** Deleted means a deletion stamp is present, whatever the active flag says. */
    predicate IsDeleted()
      reads this`deletedAt
    {
      deletedAt.Some?
    }

    method SoftDelete(now: int)
      modifies this`deletedAt, this`isActive
      ensures deletedAt == Some(now) && isActive == Some(false)
      ensures IsDeleted()
    {
      deletedAt := Some(now);
      isActive := Some(false);
    }

    method Restore()
      modifies this`deletedAt, this`isActive
      ensures deletedAt == None && isActive == Some(true)
      ensures !IsDeleted()
    {
      deletedAt := None;
      isActive := Some(true);
    }

    /** Pre-persist: stamp the creation time and default the flag, never overwriting either. */
    method OnCreate(now: int)
      modifies this`createdAt, this`isActive
      ensures createdAt == if old(createdAt).Some? then old(createdAt) else Some(now)
      ensures isActive == if old(isActive).Some? then old(isActive) else Some(true)
      ensures createdAt.Some? && isActive.Some?
      ensures old(createdAt).Some? && old(isActive).Some? ==> unchanged(this)
    {
      if createdAt.None? {
        createdAt := Some(now);
      }
      if isActive.None? {
        isActive := Some(true);
      }
    }

    /** Pre-update: stamp the modification time. */
    method OnUpdate(now: int)
      modifies this`updatedAt
      ensures updatedAt == Some(now)
    {
      updatedAt := Some(now);
    }
  }

  /** Restoring a soft-deleted entity brings back exactly the state of a live one;
      its creation and update stamps survive both steps. */
  method SoftDeleteThenRestore(e: BaseEntity, now: int)
    modifies e
    ensures !e.IsDeleted() && e.isActive == Some(true)
    ensures e.createdAt == old(e.createdAt) && e.updatedAt == old(e.updatedAt) && e.id == old(e.id)
  {
    e.SoftDelete(now);
    e.Restore();
  }

  /** Calling the pre-persist hook a second time changes nothing. */
  method OnCreateIdempotent(e: BaseEntity, first: int, second: int)
    modifies e
    ensures e.createdAt == (if old(e.createdAt).Some? then old(e.createdAt) else Some(first))
    ensures e.isActive == (if old(e.isActive).Some? then old(e.isActive) else Some(true))
    ensures e.id == old(e.id) && e.updatedAt == old(e.updatedAt) && e.deletedAt == old(e.deletedAt)
  {
    e.OnCreate(first);
    e.OnCreate(second);
  }
}
