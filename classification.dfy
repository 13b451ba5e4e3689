/** The three participant lists the live panel computes from the room:
    owners in arrival order, editors and spectators each sorted by username. */
module Classification {
  import opened LiveTypes
  import opened Subsequences
  import opened UsernameSort

  /** Which of the three lists a test selects for. */
  datatype Group = Owners | Editors | Spectators

  /** The filter test each list applies to a user. */
  predicate InGroup(u: User, g: Group, ownerIds: seq<UserId>, editorIds: seq<UserId>)
  {
    match g
    case Owners => u.id in ownerIds
    case Editors => u.id in editorIds && u.id !in ownerIds
    case Spectators => u.id !in ownerIds && u.id !in editorIds
  }

  /** `users.filter(...)` with the test of group `g`. */
  function Where(users: seq<User>, g: Group, ownerIds: seq<UserId>, editorIds: seq<UserId>): seq<User>
  {
    if users == [] then []
    else if InGroup(users[0], g, ownerIds, editorIds) then [users[0]] + Where(users[1..], g, ownerIds, editorIds)
    else Where(users[1..], g, ownerIds, editorIds)
  }

  datatype Groups = Groups(owners: seq<User>, editors: seq<User>, spectators: seq<User>)

  /** The `owners`, `editors` and `spectators` constants of the panel. */
  function Classify(users: seq<User>, ownerIds: seq<UserId>, editorIds: seq<UserId>): Groups
  {
    Groups(
      Where(users, Owners, ownerIds, editorIds),
      SortByUsername(Where(users, Editors, ownerIds, editorIds)),
      SortByUsername(Where(users, Spectators, ownerIds, editorIds)))
  }

  /** A filter keeps every occurrence of the users that pass its test and no other. */
  lemma {:induction false} WhereCount(users: seq<User>, g: Group, ownerIds: seq<UserId>, editorIds: seq<UserId>, u: User)
    ensures multiset(Where(users, g, ownerIds, editorIds))[u]
         == if InGroup(u, g, ownerIds, editorIds) then multiset(users)[u] else 0
  {
    if users != [] {
      WhereCount(users[1..], g, ownerIds, editorIds, u);
      assert users == [users[0]] + users[1..];
    }
  }

  lemma {:induction false} WhereSubsequence(users: seq<User>, g: Group, ownerIds: seq<UserId>, editorIds: seq<UserId>)
    ensures IsSubsequence(Where(users, g, ownerIds, editorIds), users)
  {
    if users != [] {
      WhereSubsequence(users[1..], g, ownerIds, editorIds);
      var r := Where(users[1..], g, ownerIds, editorIds);
      if InGroup(users[0], g, ownerIds, editorIds) {
        assert ([users[0]] + r)[1..] == r;
      } else if r != [] {
        assert IsSubsequence(r, users[1..]);
      }
    }
  }

  /** How often `u` occurs in each list: all its occurrences in `users` go to the
      one list whose test it passes, and ownership is tested first. */
  lemma ClassifyCounts(users: seq<User>, ownerIds: seq<UserId>, editorIds: seq<UserId>, u: User)
    ensures var c := Classify(users, ownerIds, editorIds);
      && multiset(c.owners)[u] == (if u.id in ownerIds then multiset(users)[u] else 0)
      && multiset(c.editors)[u] == (if u.id in editorIds && u.id !in ownerIds then multiset(users)[u] else 0)
      && multiset(c.spectators)[u] == (if u.id !in ownerIds && u.id !in editorIds then multiset(users)[u] else 0)
  {
    WhereCount(users, Owners, ownerIds, editorIds, u);
    WhereCount(users, Editors, ownerIds, editorIds, u);
    WhereCount(users, Spectators, ownerIds, editorIds, u);
  }

  /** No user is lost or duplicated: the three lists together are a permutation of `users`. */
  lemma ClassifyPartition(users: seq<User>, ownerIds: seq<UserId>, editorIds: seq<UserId>)
    ensures var c := Classify(users, ownerIds, editorIds);
      multiset(c.owners + c.editors + c.spectators) == multiset(users)
  {
    var c := Classify(users, ownerIds, editorIds);
    forall u
      ensures multiset(c.owners + c.editors + c.spectators)[u] == multiset(users)[u]
    {
      ClassifyCounts(users, ownerIds, editorIds, u);
    }
  }

  /** A user is in a list exactly when it is in the room and passes that list's test. */
  lemma ClassifyMembership(users: seq<User>, ownerIds: seq<UserId>, editorIds: seq<UserId>, u: User)
    ensures var c := Classify(users, ownerIds, editorIds);
      && (u in c.owners <==> u in users && u.id in ownerIds)
      && (u in c.editors <==> u in users && u.id in editorIds && u.id !in ownerIds)
      && (u in c.spectators <==> u in users && u.id !in ownerIds && u.id !in editorIds)
  {
    ClassifyCounts(users, ownerIds, editorIds, u);
    var c := Classify(users, ownerIds, editorIds);
    assert u in c.owners <==> u in multiset(c.owners);
    assert u in c.editors <==> u in multiset(c.editors);
    assert u in c.spectators <==> u in multiset(c.spectators);
    assert u in users <==> u in multiset(users);
  }

  /** The three lists share no user id. */
  lemma ClassifyDisjoint(users: seq<User>, ownerIds: seq<UserId>, editorIds: seq<UserId>)
    ensures var c := Classify(users, ownerIds, editorIds);
      && (forall i, j :: 0 <= i < |c.owners| && 0 <= j < |c.editors| ==> c.owners[i].id != c.editors[j].id)
      && (forall i, j :: 0 <= i < |c.owners| && 0 <= j < |c.spectators| ==> c.owners[i].id != c.spectators[j].id)
      && (forall i, j :: 0 <= i < |c.editors| && 0 <= j < |c.spectators| ==> c.editors[i].id != c.spectators[j].id)
  {
    var c := Classify(users, ownerIds, editorIds);
    forall u | u in c.owners || u in c.editors || u in c.spectators
      ensures u in c.owners ==> u.id in ownerIds
      ensures u in c.editors ==> u.id in editorIds && u.id !in ownerIds
      ensures u in c.spectators ==> u.id !in ownerIds && u.id !in editorIds
    {
      ClassifyMembership(users, ownerIds, editorIds, u);
    }
  }

  /** Ownership takes precedence: a user listed both as owner and as editor is
      shown among the owners only. */
  lemma OwnershipPrecedence(users: seq<User>, ownerIds: seq<UserId>, editorIds: seq<UserId>, u: User)
    requires u in users && u.id in ownerIds && u.id in editorIds
    ensures var c := Classify(users, ownerIds, editorIds);
      u in c.owners && u !in c.editors && u !in c.spectators
  {
    ClassifyMembership(users, ownerIds, editorIds, u);
  }

  /** Owners are not sorted: they keep the order in which they appear in `users`. */
  lemma OwnersInRoomOrder(users: seq<User>, ownerIds: seq<UserId>, editorIds: seq<UserId>)
    ensures IsSubsequence(Classify(users, ownerIds, editorIds).owners, users)
  {
    WhereSubsequence(users, Owners, ownerIds, editorIds);
  }

  /** Editors and spectators are each sorted ascending by username, and users
      with the same username keep the order they have in `users`. */
  lemma SortedGroupsStable(users: seq<User>, ownerIds: seq<UserId>, editorIds: seq<UserId>, k: string)
    ensures var c := Classify(users, ownerIds, editorIds);
      && Sorted(c.editors) && Sorted(c.spectators)
      && IsSubsequence(Named(c.editors, k), users)
      && IsSubsequence(Named(c.spectators, k), users)
  {
    var editors := Where(users, Editors, ownerIds, editorIds);
    var spectators := Where(users, Spectators, ownerIds, editorIds);
    SortIsStable(editors);
    SortIsStable(spectators);
    assert Named(SortByUsername(editors), k) == Named(editors, k);
    assert Named(SortByUsername(spectators), k) == Named(spectators, k);
    NamedSubsequence(editors, k);
    WhereSubsequence(users, Editors, ownerIds, editorIds);
    SubsequenceTransitive(Named(editors, k), editors, users);
    NamedSubsequence(spectators, k);
    WhereSubsequence(users, Spectators, ownerIds, editorIds);
    SubsequenceTransitive(Named(spectators, k), spectators, users);
  }
}
