/** The best-effort idempotency lock in Redis: SET NX with a time to live, and a compare-and-delete release. */
module Locks {
  import opened Domain

  const LOCK_TTL: Time := 5 * SECOND

  datatype Entry = Entry(token: string, until: Time)

  datatype Event = Acquire(key: string, token: string, at: Time) | Release(key: string, token: string, at: Time)

  predicate Live(locks: map<string, Entry>, key: string, now: Time) {
    key in locks && now < locks[key].until
  }

  function Next(locks: map<string, Entry>, e: Event): map<string, Entry> {
    match e
    case Acquire(key, token, at) => if Live(locks, key, at) then locks else locks[key := Entry(token, at + LOCK_TTL)]
    case Release(key, token, at) => if Live(locks, key, at) && locks[key].token == token then locks - {key} else locks
  }

  function After(run: seq<Event>): map<string, Entry>
    decreases |run|
  {
    if run == [] then map[] else Next(After(run[..|run| - 1]), run[|run| - 1])
  }

  /** Event `i` is an acquisition, and it succeeded. */
  predicate Acquired(run: seq<Event>, i: nat)
    requires i < |run|
  {
    run[i].Acquire? && !Live(After(run[..i]), run[i].key, run[i].at)
  }

  ghost predicate InOrder(run: seq<Event>) {
    forall i, j | 0 <= i < j < |run| :: run[i].at <= run[j].at
  }

  ghost predicate ReleasedBetween(run: seq<Event>, i: nat, j: nat)
    requires i <= j <= |run| && i < |run|
  {
    exists k :: i < k < j && run[k].Release? && run[k].key == run[i].key && run[k].token == run[i].token
  }

  /** Until it is released with its own token the lock stays where it is, or its time has run out. */
  lemma {:induction false} LockStays(run: seq<Event>, i: nat, n: nat)
    requires i < n <= |run| && InOrder(run) && Acquired(run, i) && !ReleasedBetween(run, i, n)
    ensures var locks := After(run[..n]);
            || (run[i].key in locks && locks[run[i].key] == Entry(run[i].token, run[i].at + LOCK_TTL))
            || run[n - 1].at >= run[i].at + LOCK_TTL
    decreases n
  {
    assert run[..n][..n - 1] == run[..n - 1];
    if i < n - 1 {
      assert !ReleasedBetween(run, i, n - 1);
      LockStays(run, i, n - 1);
      assert run[n - 2].at <= run[n - 1].at;
    }
  }

  /** Two holders of one key at once: only if the earlier one took the lock a whole time-to-live before. */
  lemma HoldersAreATtlApart(run: seq<Event>, i: nat, j: nat)
    requires i < j < |run| && InOrder(run) && Acquired(run, i) && Acquired(run, j) && run[i].key == run[j].key
    requires !ReleasedBetween(run, i, j)
    ensures run[j].at >= run[i].at + 5 * 1_000_000
  {
    LockStays(run, i, j);
    assert run[j - 1].at <= run[j].at;
  }

  /** A lock is free again five seconds after it was taken, or once its own token has released it, and not before. */
  lemma LockIsHeldFor(locks: map<string, Entry>, key: string, token: string, at: Time, other: string, later: Time)
    requires !Live(locks, key, at)
    ensures var held := Next(locks, Acquire(key, token, at));
            && (Live(held, key, later) <==> later < at + 5 * 1_000_000)
            && !Live(Next(held, Release(key, token, later)), key, later)
            && (other != token ==> Next(held, Release(key, other, later)) == held)
            && forall k | k != key :: Live(held, k, later) == Live(locks, k, later)
  {
  }

  class IdempotencyLocker {
    var locks: map<string, Entry>
    ghost var run: seq<Event>

    constructor ()
      ensures Valid() && run == []
    {
      locks, run := map[], [];
    }

    ghost predicate Valid()
      reads this
    {
      locks == After(run)
    }

    /** A command may never arrive, and its reply may be lost: both count as a lost race, and then nobody releases. */
    method AcquireLock(key: string, token: string, now: Time, arrives: bool, replied: bool) returns (acquired: bool)
      requires Valid()
      modifies this
      ensures Valid() && run == old(run) + if arrives then [Acquire(key, token, now)] else []
      ensures acquired <==> arrives && replied && !Live(old(locks), key, now)
      ensures acquired ==> Acquired(run, |old(run)|)
      ensures locks == if arrives && !Live(old(locks), key, now) then old(locks)[key := Entry(token, now + LOCK_TTL)]
                       else old(locks)
    {
      acquired := false;
      if arrives {
        if key !in locks || now >= locks[key].until {
          locks := locks[key := Entry(token, now + LOCK_TTL)];
          acquired := replied;
        }
        run := run + [Acquire(key, token, now)];
        assert run[..|run| - 1] == old(run);
      }
    }

    /** Deletes the lock only while it still holds this token; any other key, and anyone else's lock, stays. */
    method ReleaseLock(key: string, token: string, now: Time, arrives: bool)
      requires Valid()
      modifies this
      ensures Valid() && run == old(run) + if arrives then [Release(key, token, now)] else []
      ensures locks ==
              if arrives && Live(old(locks), key, now) && old(locks)[key].token == token then old(locks) - {key}
              else old(locks)
    {
      if !arrives {
        return;
      }
      if key in locks && now < locks[key].until && locks[key].token == token {
        locks := locks - {key};
      }
      run := run + [Release(key, token, now)];
      assert run[..|run| - 1] == old(run);
    }
  }
}
