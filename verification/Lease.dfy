/**
 Cross-process ownership of one database and one exchange account by operating-system locks:
 first the lease object itself, then every interleaving of leases acquiring, binding,
 releasing and dying.
 */
module Lease {
  import opened Options

  datatype Resource = Database(path: string) | Account(scope: string)

  /** The resources a lease needs, in the order it takes them ("account" sorts before "database"). */
  function Needed(database: string, scope: Option<string>): (r: seq<Resource>)
    ensures |r| == if scope.Some? then 2 else 1
    ensures Database(database) in r && (scope.Some? ==> Account(scope.value) in r)
    ensures r[|r| - 1].Database?
    ensures forall x :: x in r ==> x == Database(database) || (scope.Some? && x == Account(scope.value))
    ensures forall i, j :: 0 <= i < j < |r| ==> r[i] != r[j]
  {
    if scope.Some? then [Account(scope.value), Database(database)] else [Database(database)]
  }

  /** What the lock table looks like once one owner's locks are gone. */
  function Without(table: map<Resource, int>, owner: int): (r: map<Resource, int>)
    ensures forall x :: x in r <==> x in table && table[x] != owner
    ensures forall x :: x in r ==> r[x] == table[x]
  {
    map x | x in table && table[x] != owner :: table[x]
  }

  predicate Owns(table: map<Resource, int>, owner: int, r: Resource) {
    r in table && table[r] == owner
  }

  /** The operating system's advisory locks. */
  class LockTable {
    var owner: map<Resource, int>

    method TryLock(r: Resource, who: int) returns (ok: bool)
      modifies this
      ensures ok <==> r !in old(owner)
      ensures owner == if ok then old(owner)[r := who] else old(owner)
    {
      ok := r !in owner;
      if ok {
        owner := owner[r := who];
      }
    }

    method Unlock(r: Resource)
      modifies this
      ensures owner == old(owner) - {r}
    {
      owner := owner - {r};
    }
  }

  /** How an acquisition fails apart from a conflict. */
  datatype Trouble = NoTrouble | DirectoryFails | OpenFails(at: nat) | MetadataFails

  datatype LeaseResult = Done | Conflict | Failed | Rejected

  /** No other lease holds any of these. */
  predicate Available(table: map<Resource, int>, owner: int, needed: seq<Resource>) {
    forall r :: r in needed && r in table ==> table[r] == owner
  }

  /** The trouble is met on the way; a lock file that is held already is not opened again. */
  predicate Hits(trouble: Trouble, needed: seq<Resource>, locks: seq<Resource>) {
    match trouble
    case NoTrouble => false
    case DirectoryFails => true
    case MetadataFails => true
    case OpenFails(at) => at < |needed| && needed[at] !in locks
  }

  class RuntimeLease {
    const id: int
    const database: string
    const os: LockTable
    var accountScope: Option<string>
    var locks: seq<Resource>

    constructor (id: int, database: string, os: LockTable)
      requires forall r :: r in os.owner ==> os.owner[r] != id
      ensures this.id == id && this.database == database && this.os == os
      ensures accountScope == None && locks == [] && Valid()
    {
      this.id, this.database, this.os := id, database, os;
      accountScope, locks := None, [];
    }

    /** The list mirrors the table: it names exactly the locks this lease owns, each once. */
    ghost predicate Valid()
      reads this, os
    {
      && (forall r :: r in locks <==> Owns(os.owner, id, r))
      && (forall i, j :: 0 <= i < j < |locks| ==> locks[i] != locks[j])
      && (forall r :: r in locks ==> r in Needed(database, accountScope))
    }

    predicate Held()
      reads this
    {
      |locks| == if accountScope.Some? then 2 else 1
    }

    /** A lease that reports held owns its database and, once bound, its account. */
    lemma HeldOwnsAll()
      requires Valid() && Held()
      ensures Owns(os.owner, id, Database(database))
      ensures accountScope.Some? ==> Owns(os.owner, id, Account(accountScope.value))
    {
      if accountScope.None? {
        assert locks[0] in locks;
      } else {
        assert locks[0] in locks && locks[1] in locks && locks[0] != locks[1];
      }
    }

    method Release()
      requires Valid()
      modifies this`locks, os
      ensures Valid() && locks == []
      ensures os.owner == Without(old(os.owner), id)
    {
      var left := locks;
      ghost var before := os.owner;
      assert forall r :: r in locks <==> Owns(before, id, r);
      while left != []
        invariant locks == old(locks) && left <= locks
        invariant os.owner == before - (set i | |left| <= i < |locks| :: locks[i])
        decreases |left|
      {
        var last := left[|left| - 1];
        assert last == locks[|left| - 1];
        os.Unlock(last);
        left := left[..|left| - 1];
      }
      ghost var gone := set i | 0 <= i < |locks| :: locks[i];
      assert forall r :: r in gone <==> r in locks;
      assert before - gone == Without(before, id);
      locks := [];
    }

    /** Take one lock unless it is held already. */
    method TakeOne(r: Resource, opens: bool) returns (result: LeaseResult)
      requires Valid() && r in Needed(database, accountScope)
      modifies this`locks, os
      ensures Valid() && !result.Rejected?
      ensures Without(os.owner, id) == Without(old(os.owner), id)
      ensures result.Done? <==> r in old(locks) || (opens && r !in Without(old(os.owner), id))
      ensures result.Done? ==> r !in Without(os.owner, id)
      ensures locks == if result.Done? && r !in old(locks) then old(locks) + [r] else old(locks)
    {
      if r in locks {
        return Done;
      }
      if !opens {
        return Failed;
      }
      var ok := os.TryLock(r, id);
      if !ok {
        return Conflict;
      }
      locks := locks + [r];
      result := Done;
    }

    /** Take what is missing, in order, up to the first lock that cannot be had. */
    method TakeMissing(trouble: Trouble) returns (result: LeaseResult)
      requires Valid() && !trouble.DirectoryFails? && !trouble.MetadataFails?
      modifies this`locks, os
      ensures Valid() && old(locks) <= locks
      ensures Without(os.owner, id) == Without(old(os.owner), id)
      ensures result.Done? ==> Held()
      ensures result.Done? <==> && !Hits(trouble, Needed(database, accountScope), old(locks))
                                && Available(old(os.owner), id, Needed(database, accountScope))
      ensures !result.Rejected?
    {
      hide Owns;
      ghost var others := Without(os.owner, id);
      var needed := Needed(database, accountScope);
      for i := 0 to |needed|
        invariant Valid() && old(locks) <= locks
        invariant forall k :: 0 <= k < i ==> needed[k] in locks && needed[k] !in others
        invariant Without(os.owner, id) == others
        invariant forall r :: r in locks ==> r in old(locks) || r in needed[..i]
        invariant trouble.OpenFails? && trouble.at < i ==> needed[trouble.at] in old(locks)
      {
        result := TakeOne(needed[i], trouble != OpenFails(i));
        if !result.Done? {
          return;
        }
      }
      AllTaken();
      result := Done;
    }

    /** Whatever fails while locks are being taken gives everything back. */
    method Acquire(trouble: Trouble) returns (result: LeaseResult)
      requires Valid()
      modifies this`locks, os
      ensures Valid()
      ensures result.Done? <==> Held()
      ensures result.Done? <==> old(Held()) || (&& !Hits(trouble, Needed(database, accountScope), old(locks))
                                                && Available(old(os.owner), id, Needed(database, accountScope)))
      ensures old(Held()) ==> result.Done? && locks == old(locks) && os.owner == old(os.owner)
      ensures result.Done? ==> old(locks) <= locks
      ensures Without(os.owner, id) == Without(old(os.owner), id)
      ensures !result.Done? && !trouble.DirectoryFails? ==> locks == [] && os.owner == Without(old(os.owner), id)
      ensures !result.Done? && trouble.DirectoryFails? ==> locks == old(locks) && os.owner == old(os.owner)
      ensures !result.Rejected?
    {
      if Held() {
        return Done;
      }
      if trouble.DirectoryFails? {
        return Failed;
      }
      result := TakeMissing(if trouble.MetadataFails? then NoTrouble else trouble);
      if result.Done? && trouble.MetadataFails? {
        result := Failed;
      }
      if !result.Done? {
        Release();
      }
    }

    lemma AllTaken()
      requires Valid()
      requires forall r :: r in Needed(database, accountScope) ==> r in locks
      ensures Held()
    {
      var needed := Needed(database, accountScope);
      var taken := set r | r in locks;
      var all := set r | r in needed;
      assert taken == all;
      Distinct(locks);
      Distinct(needed);
    }

    /** Bind once to an account and take its lock without giving up the database. */
    method BindAccountScope(scope: string, trouble: Trouble) returns (result: LeaseResult)
      requires Valid()
      modifies this, os
      ensures Valid()
      ensures result.Rejected? <==> scope == "" || (old(accountScope).Some? && old(accountScope).value != scope)
      ensures result.Rejected? ==> accountScope == old(accountScope) && locks == old(locks) && os.owner == old(os.owner)
      ensures !result.Rejected? ==> accountScope == Some(scope)
      ensures !result.Rejected? ==>
                var needed := Needed(database, Some(scope));
                result.Done? <==> |old(locks)| == 2 || (!Hits(trouble, needed, old(locks)) && Available(old(os.owner), id, needed))
      ensures result.Done? ==> Held() && old(locks) <= locks
      ensures !result.Rejected? && !result.Done? && !trouble.DirectoryFails? ==>
                locks == [] && os.owner == Without(old(os.owner), id)
      ensures !result.Rejected? && !result.Done? && trouble.DirectoryFails? ==> locks == old(locks)
      ensures Without(os.owner, id) == Without(old(os.owner), id)
    {
      if scope == "" {
        return Rejected;
      }
      if accountScope.Some? && accountScope.value != scope {
        return Rejected;
      }
      accountScope := Some(scope);
      result := Acquire(trouble);
    }
  }

  lemma Distinct<T>(s: seq<T>)
    requires forall i, j :: 0 <= i < j < |s| ==> s[i] != s[j]
    ensures |set x | x in s| == |s|
  {
    if s != [] {
      var rest := s[..|s| - 1];
      Distinct(rest);
      assert (set x | x in s) == (set x | x in rest) + {s[|s| - 1]};
    }
  }
}
