/** The in-memory user store (UsersDao): one array of records, searched with
    `find`/`findIndex`/`filter`, grown with `push`, edited with `splice` and
    rebuilt with `map`. The functions below say what each operation does to
    the array; the class performs the operations in place. */
module Dao {
  import opened Users
  import opened Strings

  /** The record field a lookup compares against. */
  datatype KeyField = IdField | EmailField

  function KeyOf(user: UserDto, field: KeyField): string
  {
    match field
    case IdField => user.id
    case EmailField => user.email
  }

  /** `k` is the first index whose record has `key` in `field`. */
  ghost predicate FirstMatch(users: seq<UserDto>, field: KeyField, key: string, k: int)
  {
    && 0 <= k < |users|
    && KeyOf(users[k], field) == key
    && forall j :: 0 <= j < k ==> KeyOf(users[j], field) != key
  }

  predicate HasId(users: seq<UserDto>, id: string)
  {
    exists i :: 0 <= i < |users| && users[i].id == id
  }

  predicate HasEmail(users: seq<UserDto>, email: string)
  {
    exists i :: 0 <= i < |users| && users[i].email == email
  }

  /** The store's invariant: no two records share an id. */
  ghost predicate DistinctIds(users: seq<UserDto>)
  {
    forall i, j :: 0 <= i < j < |users| ==> users[i].id != users[j].id
  }

  /** `users.findIndex(u => u[field] === key)`: the first matching index, or
      -1 when no record matches. */
  function FindIndex(users: seq<UserDto>, field: KeyField, key: string): (k: int)
    ensures -1 <= k < |users|
    ensures k != -1 ==> FirstMatch(users, field, key, k)
    ensures k == -1 <==> forall j :: 0 <= j < |users| ==> KeyOf(users[j], field) != key
    decreases |users|
  {
    if users == [] then -1
    else if KeyOf(users[0], field) == key then 0
    else
      var k := FindIndex(users[1..], field, key);
      if k == -1 then -1 else k + 1
  }

  /** `getUserById`: the first record with that id, if any. */
  function FindById(users: seq<UserDto>, id: string): (r: Option<UserDto>)
    ensures r.Some? <==> HasId(users, id)
    ensures r.Some? ==> exists k :: FirstMatch(users, IdField, id, k) && users[k] == r.value
  {
    var k := FindIndex(users, IdField, id);
    if k == -1 then None else Some(users[k])
  }

  /** `getUserByEmail`: `users[findIndex(...)]`, where index -1 reads
      `undefined` and is answered with null. Email comparison is exact. */
  function FindByEmail(users: seq<UserDto>, email: string): (r: Option<UserDto>)
    ensures r.Some? <==> HasEmail(users, email)
    ensures r.Some? ==> exists k :: FirstMatch(users, EmailField, email, k) && users[k] == r.value
  {
    var k := FindIndex(users, EmailField, email);
    if k < 0 then None else Some(users[k])
  }

  /** With distinct ids, the lookup by id finds exactly the stored record
      carrying that id. */
  lemma FindByIdIsMembership(users: seq<UserDto>, id: string, u: UserDto)
    requires DistinctIds(users)
    ensures FindById(users, id) == Some(u) <==> u in users && u.id == id
  {
    if u in users && u.id == id {
      var i :| 0 <= i < |users| && users[i] == u;
      var k := FindIndex(users, IdField, id);
      assert KeyOf(users[i], IdField) == id;
      assert users[k].id == users[i].id;
    }
  }

  /** The position `Array.prototype.splice` starts at: a negative start
      counts from the end (so -1 is the last element), clamped to the array. */
  function SpliceStart(len: nat, start: int): (k: nat)
    ensures k <= len
    ensures 0 <= start <= len ==> k == start
    ensures start == -1 && len > 0 ==> k == len - 1
  {
    if start < 0 then (if len + start < 0 then 0 else len + start)
    else if start > len then len
    else start
  }

  /** `s.splice(start, 1, ...items)`: remove the element at the start
      position, if there is one, and put `items` in its place. */
  function SpliceOne(s: seq<UserDto>, start: int, items: seq<UserDto>): (r: seq<UserDto>)
    ensures var k := SpliceStart(|s|, start);
      var rest := if k < |s| then k + 1 else k;
      && |r| == k + |items| + (|s| - rest)
      && r[..k] == s[..k]
      && r[k..k + |items|] == items
      && r[k + |items|..] == s[rest..]
  {
    var k := SpliceStart(|s|, start);
    s[..k] + items + s[if k < |s| then k + 1 else k..]
  }

  /** `putUserById`: splice the record into the slot `findIndex` gives for
      its id. An existing id has its slot replaced; an absent id yields -1,
      which replaces the last record (or fills an empty store). */
  function PutUser(users: seq<UserDto>, user: UserDto): (r: seq<UserDto>)
    ensures HasId(users, user.id) ==>
      && |r| == |users|
      && var k := FindIndex(users, IdField, user.id);
      && r[k] == user
      && forall j :: 0 <= j < |users| && j != k ==> r[j] == users[j]
    ensures !HasId(users, user.id) && users != [] ==> r == users[..|users| - 1] + [user]
    ensures users == [] ==> r == [user]
  {
    SpliceOne(users, FindIndex(users, IdField, user.id), [user])
  }

  /** `removeUserById`: splice out the slot `findIndex` gives. An absent id
      yields -1, which removes the last record. */
  function RemoveUser(users: seq<UserDto>, id: string): (r: seq<UserDto>)
    ensures HasId(users, id) ==>
      var k := FindIndex(users, IdField, id);
      users[k].id == id && r == users[..k] + users[k + 1..]
    ensures !HasId(users, id) && users != [] ==> r == users[..|users| - 1]
    ensures users == [] ==> r == []
  {
    SpliceOne(users, FindIndex(users, IdField, id), [])
  }

  /** The record `patchUserById` builds from a stored one: each of email,
      password, firstName, lastName and permissionLevel takes the patch value
      when it is present (`??`), every other field, the id included, is kept. */
  function Merge(user: UserDto, patch: PartialUser): (r: UserDto)
    ensures r.id == user.id
  {
    user.(
      email := patch.email.GetOr(user.email),
      password := patch.password.GetOr(user.password),
      firstName := patch.firstName.OrElse(user.firstName),
      lastName := patch.lastName.OrElse(user.lastName),
      permissionLevel := patch.permissionLevel.OrElse(user.permissionLevel))
  }

  /** `users.map(...)` in `patchUserById`: every record with the id is merged
      with the patch, every other record is kept, in place. */
  function PatchUsers(users: seq<UserDto>, id: string, patch: PartialUser): (r: seq<UserDto>)
    ensures |r| == |users|
    ensures forall i :: 0 <= i < |users| ==> r[i].id == users[i].id
    ensures forall i :: 0 <= i < |users| && users[i].id != id ==> r[i] == users[i]
  {
    seq(|users|, i requires 0 <= i < |users| =>
      if users[i].id == id then Merge(users[i], patch) else users[i])
  }

  /** A field present in the patch is taken from it; a missing one is kept. */
  lemma MergeFields(user: UserDto, patch: PartialUser)
    ensures Merge(user, patch).email == (if patch.email.Some? then patch.email.value else user.email)
    ensures Merge(user, patch).password == (if patch.password.Some? then patch.password.value else user.password)
    ensures Merge(user, patch).firstName == (if patch.firstName.Some? then patch.firstName else user.firstName)
    ensures Merge(user, patch).lastName == (if patch.lastName.Some? then patch.lastName else user.lastName)
    ensures Merge(user, patch).permissionLevel ==
      (if patch.permissionLevel.Some? then patch.permissionLevel else user.permissionLevel)
  {
  }

  /** A patch with no fields changes nothing (its id is ignored too). */
  lemma EmptyPatchIsIdentity(users: seq<UserDto>, id: string, patch: PartialUser)
    requires patch.email.None? && patch.password.None? && patch.firstName.None?
    requires patch.lastName.None? && patch.permissionLevel.None?
    ensures PatchUsers(users, id, patch) == users
  {
    var r := PatchUsers(users, id, patch);
    forall i | 0 <= i < |users| ensures r[i] == users[i] {
    }
  }

  /** Applying the same patch twice is applying it once. */
  lemma PatchIdempotent(users: seq<UserDto>, id: string, patch: PartialUser)
    ensures PatchUsers(PatchUsers(users, id, patch), id, patch) == PatchUsers(users, id, patch)
  {
    var once := PatchUsers(users, id, patch);
    var twice := PatchUsers(once, id, patch);
    forall i | 0 <= i < |users| ensures twice[i] == once[i] {
    }
  }

  /** What `patchUserById` returns: the patched first record with that id,
      or undefined when no record has it. */
  lemma PatchedLookup(users: seq<UserDto>, id: string, patch: PartialUser)
    ensures FindById(PatchUsers(users, id, patch), id) ==
      if HasId(users, id) then Some(Merge(users[FindIndex(users, IdField, id)], patch)) else None
  {
    var r := PatchUsers(users, id, patch);
    var k := FindIndex(users, IdField, id);
    if HasId(users, id) {
      assert KeyOf(r[k], IdField) == id;
      assert FirstMatch(r, IdField, id, k);
    }
  }

  /** `searchUsers` matches a record whose email, firstName or lastName
      contains the term. */
  predicate Matches(user: UserDto, term: string)
  {
    || Includes(user.email, term)
    || (user.firstName.Some? && Includes(user.firstName.value, term))
    || (user.lastName.Some? && Includes(user.lastName.value, term))
  }

  /** `users.filter(...)` in `searchUsers`. */
  function Search(users: seq<UserDto>, term: string): (r: seq<UserDto>)
    ensures |r| <= |users|
    ensures forall u :: u in r <==> u in users && Matches(u, term)
    decreases |users|
  {
    if users == [] then []
    else (if Matches(users[0], term) then [users[0]] else []) + Search(users[1..], term)
  }

  /** The search keeps order: searching a concatenation concatenates the
      searches, so each kept record stays where it was relative to the others. */
  lemma {:induction false} SearchAppend(a: seq<UserDto>, b: seq<UserDto>, term: string)
    ensures Search(a + b, term) == Search(a, term) + Search(b, term)
    decreases |a|
  {
    if a != [] {
      assert (a + b)[1..] == a[1..] + b;
      SearchAppend(a[1..], b, term);
    } else {
      assert a + b == b;
    }
  }

  lemma AddKeepsDistinctIds(users: seq<UserDto>, user: UserDto)
    requires DistinctIds(users) && !HasId(users, user.id)
    ensures DistinctIds(users + [user])
  {
    var r := users + [user];
    forall i, j | 0 <= i < j < |r| ensures r[i].id != r[j].id {
      if j == |users| {
        assert r[i] == users[i];
      }
    }
  }

  lemma PutKeepsDistinctIds(users: seq<UserDto>, user: UserDto)
    requires DistinctIds(users)
    ensures DistinctIds(PutUser(users, user))
  {
    var r := PutUser(users, user);
    if HasId(users, user.id) {
      var k := FindIndex(users, IdField, user.id);
      forall i, j | 0 <= i < j < |r| ensures r[i].id != r[j].id {
        if i == k {
          assert r[j] == users[j];
        } else if j == k {
          assert r[i] == users[i];
        } else {
          assert r[i] == users[i] && r[j] == users[j];
        }
      }
    } else if users != [] {
      var n := |users| - 1;
      forall i, j | 0 <= i < j < |r| ensures r[i].id != r[j].id {
        if j == n {
          assert r[i] == users[i];
        } else {
          assert r[i] == users[i] && r[j] == users[j];
        }
      }
    }
  }

  /** Where each record lands when one slot is dropped. */
  lemma DropIndex(users: seq<UserDto>, k: nat, i: nat)
    requires k < |users| && i < |users| - 1
    ensures (users[..k] + users[k + 1..])[i] == users[if i < k then i else i + 1]
  {
  }

  /** Dropping one slot keeps the ids distinct. */
  lemma DropKeepsDistinctIds(users: seq<UserDto>, k: nat)
    requires DistinctIds(users) && k < |users|
    ensures DistinctIds(users[..k] + users[k + 1..])
  {
    var r := users[..k] + users[k + 1..];
    forall i, j | 0 <= i < j < |r| ensures r[i].id != r[j].id {
      DropIndex(users, k, i);
      DropIndex(users, k, j);
    }
  }

  /** Dropping one slot keeps every record other than the dropped one. */
  lemma DropKeepsOthers(users: seq<UserDto>, k: nat)
    requires k < |users|
    ensures forall u :: u in users && u != users[k] ==> u in users[..k] + users[k + 1..]
  {
    var r := users[..k] + users[k + 1..];
    forall u | u in users && u != users[k] ensures u in r {
      var i :| 0 <= i < |users| && users[i] == u;
      assert u == r[if i < k then i else i - 1];
    }
  }

  lemma RemoveKeepsDistinctIds(users: seq<UserDto>, id: string)
    requires DistinctIds(users)
    ensures DistinctIds(RemoveUser(users, id))
  {
    if users != [] {
      var k := if HasId(users, id) then FindIndex(users, IdField, id) else |users| - 1;
      assert RemoveUser(users, id) == users[..k] + users[k + 1..];
      DropKeepsDistinctIds(users, k);
    }
  }

  lemma PatchKeepsDistinctIds(users: seq<UserDto>, id: string, patch: PartialUser)
    requires DistinctIds(users)
    ensures DistinctIds(PatchUsers(users, id, patch))
  {
  }

  /** Reading back a record added under a fresh id gives the record. */
  lemma AddThenRead(users: seq<UserDto>, resource: UserDto, freshId: string)
    requires !HasId(users, freshId)
    ensures FindById(users + [resource.(id := freshId)], freshId) == Some(resource.(id := freshId))
  {
    var r := users + [resource.(id := freshId)];
    var k := FindIndex(r, IdField, freshId);
    assert KeyOf(r[|users|], IdField) == freshId;
  }

  /** Removing an existing id leaves one record fewer and no record with
      that id. */
  lemma RemoveThenAbsent(users: seq<UserDto>, id: string)
    requires DistinctIds(users) && HasId(users, id)
    ensures |RemoveUser(users, id)| == |users| - 1
    ensures !HasId(RemoveUser(users, id), id)
  {
    var k := FindIndex(users, IdField, id);
    var r := users[..k] + users[k + 1..];
    assert RemoveUser(users, id) == r;
    forall i | 0 <= i < |r| ensures r[i].id != id {
      DropIndex(users, k, i);
    }
  }

  /** The three records the store is seeded with. */
  function Seed(): (users: seq<UserDto>)
    ensures |users| == 3 && DistinctIds(users)
    ensures users[0].id == "1" && users[0].permissionLevel == Some(GUEST)
    ensures users[1].id == "2" && users[1].permissionLevel == Some(USER)
    ensures users[2].id == "3" && users[2].permissionLevel == Some(ADMIN)
  {
    [ UserDto("1", "john.doe@example.com", "password123", Some("John"), Some("Doe"), Some(GUEST)),
      UserDto("2", "jane.smith@example.com", "password456", Some("Jane"), Some("Smith"), Some(USER)),
      UserDto("3", "admin@example.com", "adminpass", Some("Admin"), Some("User"), Some(ADMIN)) ]
  }

  /** A put that lands after a remove of the same id overwrites the last
      record. A PUT awaits the password hash after its existence check and
      before the store edit, so a DELETE of that id can complete in between;
      on the seed, the ADMIN record "3" is then lost. */
  lemma PutAfterRemoveLosesLastRecord(payload: UserDto)
    requires payload.id == "2"
    ensures var stored := PutUser(RemoveUser(Seed(), "2"), payload);
      stored == [Seed()[0], payload] && !HasId(stored, "3")
  {
    var users := Seed();
    assert FindIndex(users, IdField, "2") == 1 by {
      assert KeyOf(users[0], IdField) != "2" && KeyOf(users[1], IdField) == "2";
    }
    var removed := RemoveUser(users, "2");
    assert removed == [users[0], users[2]];
    assert !HasId(removed, "2") by {
      assert removed[0].id == "1" && removed[1].id == "3";
    }
    var stored := PutUser(removed, payload);
    assert stored == [users[0], payload];
    assert stored[0].id == "1" && stored[1].id == "2";
  }

  /** `putUserById` as intended: an id that no record carries leaves the
      store alone; otherwise it is the splice of `PutUser`. Records with other
      ids are never touched. */
  function PutExisting(users: seq<UserDto>, user: UserDto): (r: seq<UserDto>)
    ensures |r| == |users|
    ensures forall i :: 0 <= i < |users| && users[i].id != user.id ==> r[i] == users[i]
    ensures !HasId(users, user.id) ==> r == users
    ensures HasId(users, user.id) ==> r == PutUser(users, user) && FindById(r, user.id) == Some(user)
  {
    if HasId(users, user.id) then
      var r := PutUser(users, user);
      assert KeyOf(r[FindIndex(users, IdField, user.id)], IdField) == user.id;
      r
    else users
  }

  /** `removeUserById` as intended: an id that no record carries leaves the
      store alone; otherwise it is the splice of `RemoveUser`. Every record
      with another id stays. */
  function RemoveExisting(users: seq<UserDto>, id: string): (r: seq<UserDto>)
    ensures |r| == if HasId(users, id) then |users| - 1 else |users|
    ensures forall u :: u in users && u.id != id ==> u in r
    ensures !HasId(users, id) ==> r == users
    ensures HasId(users, id) ==> r == RemoveUser(users, id)
  {
    if HasId(users, id) then
      var k := FindIndex(users, IdField, id);
      DropKeepsOthers(users, k);
      RemoveUser(users, id)
    else users
  }

  /** With the intended edits, the same interleaving keeps every other
      record: the late put finds no record and changes nothing. */
  lemma GuardedPutAfterRemoveKeepsOthers(payload: UserDto)
    requires payload.id == "2"
    ensures var stored := PutExisting(RemoveExisting(Seed(), "2"), payload);
      stored == [Seed()[0], Seed()[2]] && HasId(stored, "3")
  {
    var users := Seed();
    assert FindIndex(users, IdField, "2") == 1 by {
      assert KeyOf(users[0], IdField) != "2" && KeyOf(users[1], IdField) == "2";
    }
    assert users[1].id == "2";
    var removed := RemoveExisting(users, "2");
    assert removed == [users[0], users[2]];
    assert !HasId(removed, "2") by {
      assert removed[0].id == "1" && removed[1].id == "3";
    }
    assert removed[1].id == "3";
  }

  /** The store object. `users` is the array the source mutates; every method
      keeps the ids distinct. */
  class UsersDao {
    var users: seq<UserDto>

    ghost predicate Valid()
      reads this
    {
      DistinctIds(users)
    }

    /** Seeds the three built-in records. */
    constructor ()
      ensures Valid()
      ensures users == Seed()
    {
      users := Seed();
    }

    /** Appends the resource under a fresh id (the injected stand-in for the
        id generator) and returns the stored record. */
    method AddUser(resource: UserDto, freshId: string) returns (user: UserDto)
      requires Valid() && !HasId(users, freshId)
      modifies this
      ensures Valid()
      ensures user == resource.(id := freshId)
      ensures users == old(users) + [user]
    {
      user := resource.(id := freshId);
      AddKeepsDistinctIds(users, user);
      users := users + [user];
    }

    method GetUsers() returns (r: seq<UserDto>)
      ensures r == users
    {
      r := users;
    }

    method GetUserById(userId: string) returns (r: Option<UserDto>)
      ensures r == FindById(users, userId)
    {
      r := FindById(users, userId);
    }

    /** Replaces the slot of `user.id` (see `PutUser` for an absent id) and
        returns the confirmation message. */
    method PutUserById(user: UserDto) returns (message: string)
      requires Valid()
      modifies this
      ensures Valid()
      ensures users == PutUser(old(users), user)
      ensures message == user.id + " updated via put"
    {
      PutKeepsDistinctIds(users, user);
      users := SpliceOne(users, FindIndex(users, IdField, user.id), [user]);
      message := user.id + " updated via put";
    }

    /** Rebuilds the array with the patched record and returns it, or None
        when no record has the id. */
    method PatchUserById(userId: string, patch: PartialUser) returns (r: Option<UserDto>)
      requires Valid()
      modifies this
      ensures Valid()
      ensures users == PatchUsers(old(users), userId, patch)
      ensures r == if HasId(old(users), userId)
                   then Some(Merge(old(users)[FindIndex(old(users), IdField, userId)], patch))
                   else None
    {
      PatchKeepsDistinctIds(users, userId, patch);
      PatchedLookup(users, userId, patch);
      users := PatchUsers(users, userId, patch);
      r := FindById(users, userId);
    }

    /** Splices out the slot of `userId` (see `RemoveUser` for an absent id)
        and returns the confirmation message. */
    method RemoveUserById(userId: string) returns (message: string)
      requires Valid()
      modifies this
      ensures Valid()
      ensures users == RemoveUser(old(users), userId)
      ensures message == userId + " removed"
    {
      RemoveKeepsDistinctIds(users, userId);
      users := SpliceOne(users, FindIndex(users, IdField, userId), []);
      message := userId + " removed";
    }

    method GetUserByEmail(email: string) returns (r: Option<UserDto>)
      ensures r == FindByEmail(users, email)
    {
      r := FindByEmail(users, email);
    }

    method SearchUsers(searchTerm: string) returns (r: seq<UserDto>)
      ensures r == Search(users, searchTerm)
    {
      r := Search(users, searchTerm);
    }
  }
}
