/** The table of per-run command locks, whose entries are created and deleted on the fly.

    The value `LockTable` is the table together with every thread's place in it; its four functions
    are the four atomic steps of taking and giving back a lock. `CommandLocks.RunCommandLocks` is the
    table of the source, over lock objects, and is proved to take exactly these steps.
  */
module LockTable {
  import opened Domain

  type ThreadID = nat
  type LockID = nat

  /** Waiting: counted, but not in possession. Leaving: mutex given back, still counted. */
  datatype Phase = Waiting | Holding | Leaving

  datatype Seat = Seat(runID: RunID, lock: LockID, phase: Phase)

  datatype LockTable = LockTable(
    entries: map<RunID, LockID>, refs: map<LockID, int>, owners: map<LockID, ThreadID>, next: LockID,
    seats: map<ThreadID, Seat>)
  {
    ghost function Users(lock: LockID): set<ThreadID> {
      set t | t in seats && seats[t].lock == lock
    }

    ghost predicate Holds(t: ThreadID, runID: RunID) {
      t in seats && seats[t].phase == Holding && seats[t].runID == runID
    }
  }

  const EMPTY := LockTable(map[], map[], map[], 0, map[])

  function AcquireRef(lt: LockTable, t: ThreadID, runID: RunID): LockTable {
    if runID in lt.entries then
      var lock := lt.entries[runID];
      lt.(refs := lt.refs[lock := (if lock in lt.refs then lt.refs[lock] else 0) + 1],
          seats := lt.seats[t := Seat(runID, lock, Waiting)])
    else
      lt.(entries := lt.entries[runID := lt.next], refs := lt.refs[lt.next := 1], next := lt.next + 1,
          seats := lt.seats[t := Seat(runID, lt.next, Waiting)])
  }

  predicate CanEnter(lt: LockTable, t: ThreadID) {
    t in lt.seats && lt.seats[t].phase == Waiting && lt.seats[t].lock !in lt.owners
  }

  function EnterLock(lt: LockTable, t: ThreadID): LockTable
    requires CanEnter(lt, t)
  {
    var seat := lt.seats[t];
    lt.(owners := lt.owners[seat.lock := t], seats := lt.seats[t := seat.(phase := Holding)])
  }

  function ExitLock(lt: LockTable, t: ThreadID): LockTable
    requires t in lt.seats
  {
    var seat := lt.seats[t];
    lt.(owners := lt.owners - {seat.lock}, seats := lt.seats[t := seat.(phase := Leaving)])
  }

  /** The entry is deleted by run identifier, as the source does, when the count drops to zero. */
  function ReleaseRef(lt: LockTable, t: ThreadID): LockTable
    requires t in lt.seats && lt.seats[t].lock in lt.refs
  {
    var seat := lt.seats[t];
    var count := lt.refs[seat.lock] - 1;
    lt.(refs := lt.refs[seat.lock := count],
        entries := if count == 0 then lt.entries - {seat.runID} else lt.entries,
        seats := lt.seats - {t})
  }

  // ---------------------------------------------------------------- invariant

  /** Every thread between acquire and release of a run refers to the one live lock of that run. */
  ghost predicate Seated(lt: LockTable) {
    forall t | t in lt.seats :: lt.seats[t].runID in lt.entries && lt.entries[lt.seats[t].runID] == lt.seats[t].lock
  }

  /** The count of a live lock is the number of threads that refer to it, and never zero. */
  ghost predicate Counts(lt: LockTable, lock: LockID) {
    lock < lt.next && lock in lt.refs && lt.refs[lock] == |lt.Users(lock)| > 0
  }

  ghost predicate Counted(lt: LockTable) {
    forall r | r in lt.entries :: Counts(lt, lt.entries[r])
  }

  ghost predicate Injective(lt: LockTable) {
    forall r, q | r in lt.entries && q in lt.entries && lt.entries[r] == lt.entries[q] :: r == q
  }

  /** The owner of a mutex is exactly the thread that holds it. */
  ghost predicate Owned(lt: LockTable) {
    && (forall l | l in lt.owners ::
          lt.owners[l] in lt.seats && lt.seats[lt.owners[l]].lock == l && lt.seats[lt.owners[l]].phase == Holding)
    && (forall t | t in lt.seats && lt.seats[t].phase == Holding ::
          lt.seats[t].lock in lt.owners && lt.owners[lt.seats[t].lock] == t)
  }

  ghost predicate Inv(lt: LockTable) {
    Seated(lt) && Counted(lt) && Injective(lt) && Owned(lt)
  }

  lemma EmptyInv()
    ensures Inv(EMPTY)
  {
  }

  lemma AcquireKeeps(lt: LockTable, t: ThreadID, runID: RunID)
    requires Inv(lt) && t !in lt.seats
    ensures Inv(AcquireRef(lt, t, runID))
  {
    hide Seated, Counted, Injective, Owned;
    AcquireSeated(lt, t, runID);
    AcquireCounted(lt, t, runID);
    AcquireInjective(lt, t, runID);
    AcquireOwned(lt, t, runID);
  }

  lemma AcquireSeated(lt: LockTable, t: ThreadID, runID: RunID)
    requires Seated(lt) && t !in lt.seats
    ensures Seated(AcquireRef(lt, t, runID))
  {
  }

  lemma AcquireInjective(lt: LockTable, t: ThreadID, runID: RunID)
    requires Counted(lt) && Injective(lt)
    ensures Injective(AcquireRef(lt, t, runID))
  {
    assert forall r | r in lt.entries :: Counts(lt, lt.entries[r]);
    hide Counts;
  }

  lemma AcquireOwned(lt: LockTable, t: ThreadID, runID: RunID)
    requires Owned(lt) && t !in lt.seats
    ensures Owned(AcquireRef(lt, t, runID))
  {
  }

  /** A lock without entry has no user left: the next identifier is new. */
  lemma NextIsUnused(lt: LockTable)
    requires Seated(lt) && Counted(lt)
    ensures lt.Users(lt.next) == {}
  {
    forall u | u in lt.seats
      ensures lt.seats[u].lock != lt.next
    {
      assert Counts(lt, lt.entries[lt.seats[u].runID]);
    }
  }

  lemma NextIsUnowned(lt: LockTable)
    requires Inv(lt)
    ensures lt.next !in lt.owners
  {
    NextIsUnused(lt);
    forall l | l in lt.owners
      ensures lt.Users(l) != {}
    {
      assert lt.owners[l] in lt.Users(l);
    }
  }

  lemma AcquireCounted(lt: LockTable, t: ThreadID, runID: RunID)
    requires Seated(lt) && Counted(lt) && Injective(lt) && t !in lt.seats
    ensures Counted(AcquireRef(lt, t, runID))
  {
    var after := AcquireRef(lt, t, runID);
    NextIsUnused(lt);
    AcquireUsers(lt, t, runID);
    hide Seated;
    forall r | r in after.entries
      ensures Counts(after, after.entries[r])
    {
      if r in lt.entries {
        AcquireCountsOld(lt, t, runID, r);
      }
    }
  }

  lemma AcquireUsers(lt: LockTable, t: ThreadID, runID: RunID)
    requires t !in lt.seats
    ensures var after := AcquireRef(lt, t, runID);
      var lock := after.seats[t].lock;
      && |after.Users(lock)| == |lt.Users(lock)| + 1
      && forall l | l != lock :: after.Users(l) == lt.Users(l)
  {
    var after := AcquireRef(lt, t, runID);
    NewUser(lt, after, t, after.seats[t]);
  }

  lemma NewUser(lt: LockTable, after: LockTable, t: ThreadID, seat: Seat)
    requires t !in lt.seats && after.seats == lt.seats[t := seat]
    ensures |after.Users(seat.lock)| == |lt.Users(seat.lock)| + 1
    ensures forall l | l != seat.lock :: after.Users(l) == lt.Users(l)
  {
    assert after.Users(seat.lock) == lt.Users(seat.lock) + {t};
  }

  lemma AcquireCountsOld(lt: LockTable, t: ThreadID, runID: RunID, r: RunID)
    requires Counted(lt) && Injective(lt) && t !in lt.seats && r in lt.entries
    ensures var after := AcquireRef(lt, t, runID);
      Counts(after, after.entries[r])
  {
    AcquireUsers(lt, t, runID);
    assert Counts(lt, lt.entries[r]);
  }

  /** Changing the phase of a seated thread changes no count. */
  lemma SameUsersCounted(lt: LockTable, after: LockTable)
    requires Counted(lt) && after.entries == lt.entries && after.refs == lt.refs && after.next == lt.next
    requires forall l :: after.Users(l) == lt.Users(l)
    ensures Counted(after)
  {
    forall r | r in after.entries
      ensures Counts(after, after.entries[r])
    {
      assert Counts(lt, lt.entries[r]);
    }
  }

  lemma EnterKeeps(lt: LockTable, t: ThreadID)
    requires Inv(lt) && CanEnter(lt, t)
    ensures Inv(EnterLock(lt, t))
  {
    hide Counted, Injective;
    SameUsersCounted(lt, EnterLock(lt, t));
    EnterOwned(lt, t);
    hide Owned;
    assert Injective(EnterLock(lt, t)) by { SameEntriesInjective(lt, EnterLock(lt, t)); }
  }

  lemma EnterOwned(lt: LockTable, t: ThreadID)
    requires Owned(lt) && CanEnter(lt, t)
    ensures Owned(EnterLock(lt, t))
  {
  }

  lemma SameEntriesInjective(lt: LockTable, after: LockTable)
    requires Injective(lt) && after.entries == lt.entries
    ensures Injective(after)
  {
  }

  lemma ExitKeeps(lt: LockTable, t: ThreadID)
    requires Inv(lt) && t in lt.seats && lt.seats[t].phase == Holding
    ensures Inv(ExitLock(lt, t))
  {
    hide Counted, Injective;
    SameUsersCounted(lt, ExitLock(lt, t));
    ExitOwned(lt, t);
    hide Owned;
    assert Injective(ExitLock(lt, t)) by { SameEntriesInjective(lt, ExitLock(lt, t)); }
  }

  lemma ExitOwned(lt: LockTable, t: ThreadID)
    requires Owned(lt) && t in lt.seats && lt.seats[t].phase == Holding
    ensures Owned(ExitLock(lt, t))
  {
  }

  lemma ReleaseKeeps(lt: LockTable, t: ThreadID)
    requires Inv(lt) && t in lt.seats && lt.seats[t].phase == Leaving
    ensures lt.seats[t].lock in lt.refs
    ensures Inv(ReleaseRef(lt, t))
  {
    assert Counts(lt, lt.entries[lt.seats[t].runID]);
    ReleaseSeated(lt, t);
    ReleaseCounted(lt, t);
    ReleaseOwned(lt, t);
    hide Seated, Counted, Owned, Counts;
  }

  lemma ReleaseOwned(lt: LockTable, t: ThreadID)
    requires Owned(lt) && t in lt.seats && lt.seats[t].phase == Leaving && lt.seats[t].lock in lt.refs
    ensures Owned(ReleaseRef(lt, t))
  {
  }

  lemma ReleaseCounted(lt: LockTable, t: ThreadID)
    requires Seated(lt) && Counted(lt) && Injective(lt) && t in lt.seats && lt.seats[t].lock in lt.refs
    ensures Counted(ReleaseRef(lt, t))
  {
    var lock := lt.seats[t].lock;
    var after := ReleaseRef(lt, t);
    assert after.Users(lock) == lt.Users(lock) - {t} && t in lt.Users(lock);
    forall r | r in after.entries
      ensures Counts(after, after.entries[r])
    {
      assert Counts(lt, lt.entries[r]);
      if lt.entries[r] != lock {
        assert after.Users(lt.entries[r]) == lt.Users(lt.entries[r]);
      }
    }
  }

  /** No entry is deleted while another thread holds it or waits for it. */
  lemma ReleaseSeated(lt: LockTable, t: ThreadID)
    requires Inv(lt) && t in lt.seats && lt.seats[t].lock in lt.refs
    ensures Seated(ReleaseRef(lt, t))
  {
    var lock := lt.seats[t].lock;
    assert Counts(lt, lt.entries[lt.seats[t].runID]);
    forall u | u in lt.seats && u != t && lt.seats[u].runID == lt.seats[t].runID
      ensures lt.refs[lock] > 1
    {
      assert {t, u} <= lt.Users(lock);
      CardinalityOfSubset({t, u}, lt.Users(lock));
    }
  }

  lemma CardinalityOfSubset<T>(a: set<T>, b: set<T>)
    requires a <= b
    ensures |a| <= |b|
  {
    assert b == a + (b - a);
  }

  /** At most one thread holds the lock of a run. */
  lemma MutualExclusion(lt: LockTable, t: ThreadID, u: ThreadID, runID: RunID)
    requires Inv(lt) && lt.Holds(t, runID) && lt.Holds(u, runID)
    ensures t == u
  {
  }

  /** Nobody seated, nothing kept. */
  lemma EmptyWhenIdle(lt: LockTable)
    requires Inv(lt) && lt.seats == map[]
    ensures lt.entries == map[] && lt.owners == map[]
  {
    forall r
      ensures r !in lt.entries
    {
      assert lt.Users(if r in lt.entries then lt.entries[r] else 0) == {};
    }
  }
}
