/** The runner's table of command locks over lock objects, as the source keeps it. `model` is the same
    table as a value; every method takes the step of `LockTable` it stands for.
  */
module CommandLocks {
  import opened Domain
  import LT = LockTable

  /** `locked` is the state of the mutex inside the lock. */
  class RunCommandLock {
    var locked: bool
    var refCount: int

    constructor ()
      ensures !locked && refCount == 0
    {
      locked, refCount := false, 0;
    }

    /** The object carries the count and the mutex the table gives lock `l`. */
    ghost predicate Mirrors(lt: LT.LockTable, l: LT.LockID)
      reads this
    {
      && l < lt.next && l in lt.refs
      && refCount == lt.refs[l]
      && (locked <==> l in lt.owners)
    }

    lemma Mirror(lt: LT.LockTable, l: LT.LockID)
      requires l < lt.next && l in lt.refs && refCount == lt.refs[l] && (locked <==> l in lt.owners)
      ensures Mirrors(lt, l)
    {
    }

    lemma StillMirrors(lt: LT.LockTable, after: LT.LockTable, l: LT.LockID)
      requires Mirrors(lt, l) && Elsewhere(lt, after, l)
      ensures Mirrors(after, l)
    {
    }
  }

  /** The tables agree about lock `l`. */
  ghost predicate Elsewhere(lt: LT.LockTable, after: LT.LockTable, l: LT.LockID) {
    && lt.next <= after.next
    && (l in lt.refs ==> l in after.refs && after.refs[l] == lt.refs[l])
    && (l in after.owners <==> l in lt.owners)
  }

  /** What the table says about the lock of a run: nobody uses a lock that does not exist. */
  ghost function UsesOf(lt: LT.LockTable, runID: RunID): int {
    if runID in lt.entries && lt.entries[runID] in lt.refs then lt.refs[lt.entries[runID]] else 0
  }

  ghost predicate IsOwned(lt: LT.LockTable, runID: RunID) {
    runID in lt.entries && lt.entries[runID] in lt.owners
  }

  ghost function LockFor(lt: LT.LockTable, runID: RunID): LT.LockID {
    if runID in lt.entries then lt.entries[runID] else lt.next
  }

  class RunCommandLocks {
    var entries: map<RunID, RunCommandLock>
    ghost var model: LT.LockTable
    /** Every lock object ever created, by the identifier the model gave it. */
    ghost var objects: map<LT.LockID, RunCommandLock>
    ghost var Repr: set<RunCommandLock>

    ghost predicate Valid()
      reads this, Repr
    {
      LT.Inv(model) && Linked() && Separate() && AllMirror()
    }

    /** The live entries are the objects of the live locks. */
    ghost predicate Linked()
      reads this`entries, this`model, this`objects
    {
      LinkedMaps(entries, model.entries, objects)
    }

    static ghost predicate LinkedMaps(
      entries: map<RunID, RunCommandLock>, ids: map<RunID, LT.LockID>, objects: map<LT.LockID, RunCommandLock>)
    {
      && entries.Keys == ids.Keys
      && forall r | r in entries :: ids[r] in objects && objects[ids[r]] == entries[r]
    }

    static lemma LinkedGrows(
      entries: map<RunID, RunCommandLock>, ids: map<RunID, LT.LockID>, objects: map<LT.LockID, RunCommandLock>,
      runID: RunID, id: LT.LockID, lock: RunCommandLock)
      requires LinkedMaps(entries, ids, objects) && (id in objects ==> objects[id] == lock)
      ensures LinkedMaps(entries[runID := lock], ids[runID := id], objects[id := lock])
    {
    }

    ghost predicate Separate()
      reads this`objects, this`Repr
    {
      && (forall l | l in objects :: objects[l] in Repr)
      && (forall l, k | l in objects && k in objects && l != k :: objects[l] != objects[k])
    }

    ghost predicate AllMirror()
      requires Separate()
      reads this`objects, this`Repr, this`model, Repr
    {
      forall l | l in objects :: objects[l].Mirrors(model, l)
    }

    constructor ()
      ensures Valid() && model == LT.EMPTY && Repr == {}
    {
      entries, model, objects, Repr := map[], LT.EMPTY, map[], {};
      new;
      LT.EmptyInv();
    }

    /** The object thread `t` refers to between acquire and release. */
    ghost function LockOf(t: LT.ThreadID): RunCommandLock
      requires Valid() && t in model.seats
      reads this, Repr
    {
      entries[model.seats[t].runID]
    }

    /** The lock a thread is seated at is the live entry of its run. */
    lemma SeatedObject(t: LT.ThreadID)
      requires Valid() && t in model.seats
      ensures var l := model.seats[t].lock;
        && model.seats[t].runID in entries && model.entries[model.seats[t].runID] == l
        && l in objects && LockOf(t) == objects[l] && LockOf(t) in Repr
        && LockOf(t).Mirrors(model, l)
        && (forall k | k in objects && k != l :: objects[k] != objects[l])
    {
    }

    lemma InvOf()
      requires Valid()
      ensures LT.Inv(model)
    {
    }

    /** The entry of the run; a new one has no users yet. */
    method FindOrCreate(runID: RunID) returns (lock: RunCommandLock)
      requires Valid()
      modifies this`entries, this`objects, this`Repr
      ensures entries == old(entries)[runID := lock]
      ensures objects == old(objects)[LockFor(model, runID) := lock] && LockFor(model, runID) <= model.next
      ensures forall l | l in old(objects) :: objects[l] == old(objects)[l]
      ensures Separate() && Repr == old(Repr) + {lock} && (lock in old(Repr) || fresh(lock))
      ensures forall l | l in old(objects) :: objects[l].Mirrors(model, l)
      ensures lock.refCount == UsesOf(model, runID)
      ensures lock.locked <==> IsOwned(model, runID)
    {
      hide LT.Inv;
      if runID in entries {
        lock := entries[runID];
        assert lock.Mirrors(model, model.entries[runID]);
      } else {
        lock := new RunCommandLock();
        entries := entries[runID := lock];
        objects := objects[model.next := lock];
        Repr := Repr + {lock};
        assert forall l | l in old(objects) :: old(objects[l].Mirrors(model, l));
      }
    }

    /** The first critical section of lock: find or create the entry and count this thread. */
    method Acquire(ghost t: LT.ThreadID, runID: RunID) returns (lock: RunCommandLock)
      requires Valid() && t !in model.seats
      modifies this, Repr
      ensures Valid() && model == LT.AcquireRef(old(model), t, runID)
      ensures t in model.seats && lock == LockOf(t)
      ensures fresh(Repr - old(Repr)) && lock in Repr
    {
      hide LT.Inv, LT.AcquireRef, RunCommandLock.Mirrors, UsesOf, IsOwned, Elsewhere, LinkedMaps, LockFor;
      ghost var before := model;
      AcquireEffect(before, t, runID);
      lock := FindOrCreate(runID);
      LinkedGrows(old(entries), before.entries, old(objects), runID, LockFor(before, runID), lock);
      lock.refCount := lock.refCount + 1;
      model := LT.AcquireRef(model, t, runID);
      ghost var taken := model.seats[t].lock;
      lock.Mirror(model, taken);
      forall l | l in objects && l != taken
        ensures objects[l].Mirrors(model, l)
      {
        assert objects[l] != objects[taken];
        objects[l].StillMirrors(before, model, l);
      }
      hide Separate;
      assert AllMirror();
    }

    static lemma AcquireEffect(lt: LT.LockTable, t: LT.ThreadID, runID: RunID)
      requires LT.Inv(lt) && t !in lt.seats
      ensures var after := LT.AcquireRef(lt, t, runID);
        && LT.Inv(after)
        && t in after.seats && after.seats[t].runID == runID
        && var lock := after.seats[t].lock;
           && lock == LockFor(lt, runID)
           && after.entries == lt.entries[runID := lock]
           && lock < after.next && lock in after.refs && after.refs[lock] == UsesOf(lt, runID) + 1
           && (lock in after.owners <==> IsOwned(lt, runID))
           && (forall l | l != lock :: Elsewhere(lt, after, l))
    {
      hide LT.Inv;
      LT.AcquireKeeps(lt, t, runID);
      LT.NextIsUnowned(lt);
      if runID in lt.entries {
        LiveIsCounted(lt, runID);
      }
    }

    static lemma LiveIsCounted(lt: LT.LockTable, runID: RunID)
      requires LT.Inv(lt) && runID in lt.entries
      ensures lt.entries[runID] in lt.refs && lt.entries[runID] < lt.next
    {
      assert LT.Counts(lt, lt.entries[runID]);
    }

    /** Locking the entry's mutex, at a moment it is free. */
    method Enter(ghost t: LT.ThreadID, lock: RunCommandLock)
      requires Valid() && t in model.seats && model.seats[t].phase == LT.Waiting
      requires lock == LockOf(t) && !lock.locked
      modifies this, lock
      ensures Repr == old(Repr)
      ensures LT.CanEnter(old(model), t)
      ensures Valid() && model == LT.EnterLock(old(model), t)
      ensures t in model.seats && LockOf(t) == lock
    {
      hide LT.Inv, Separate;
      SeatedObject(t);
      LT.EnterKeeps(model, t);
      lock.locked := true;
      model := LT.EnterLock(model, t);
    }

    method Exit(ghost t: LT.ThreadID, lock: RunCommandLock)
      requires Valid() && t in model.seats && model.seats[t].phase == LT.Holding && lock == LockOf(t)
      modifies this, lock
      ensures Repr == old(Repr)
      ensures Valid() && model == LT.ExitLock(old(model), t)
      ensures t in model.seats && LockOf(t) == lock
    {
      hide LT.Inv, Separate;
      SeatedObject(t);
      LT.ExitKeeps(model, t);
      lock.locked := false;
      model := LT.ExitLock(model, t);
    }

    /** The last critical section: the entry goes when nobody refers to it any more. */
    method Release(ghost t: LT.ThreadID, runID: RunID, lock: RunCommandLock)
      requires Valid() && t in model.seats && model.seats[t].phase == LT.Leaving && lock == LockOf(t)
      requires runID == model.seats[t].runID
      modifies this, lock
      ensures Repr == old(Repr)
      ensures old(model).seats[t].lock in old(model).refs
      ensures Valid() && model == LT.ReleaseRef(old(model), t)
    {
      hide LT.Inv, Separate;
      SeatedObject(t);
      LT.ReleaseKeeps(model, t);
      lock.refCount := lock.refCount - 1;
      if lock.refCount == 0 {
        entries := entries - {runID};
      }
      model := LT.ReleaseRef(model, t);
    }
  }
}
