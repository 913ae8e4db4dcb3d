/**
 * The snapshot diff engine: additions and removals per relationship by set
 * difference on pk, rename detection over every pk seen in either snapshot,
 * the relationship views of one snapshot, and the accounts that vanished.
 */
module Engine {
  import opened Wrappers
  import opened Types

  // ---------------------------------------------------------------------------
  // Set algebra on pk-keyed account sets
  // ---------------------------------------------------------------------------

  /**
   * `a - b` on identity sets: the records of `a` whose pk is not in `b`. The records
   * come from `a`, so they carry the names `a` holds.
   */
  function Minus(a: AccountSet, b: AccountSet): (r: AccountSet)
    ensures forall pk :: pk in r <==> pk in a && pk !in b
    ensures forall pk | pk in r :: r[pk] == a[pk]
    ensures KeyedByPk(a) ==> KeyedByPk(r)
  {
    map pk | pk in a.Keys - b.Keys :: a[pk]
  }

  /**
   * `a & b` on identity sets: one record for every pk in both. Which of the two
   * records CPython keeps depends on the sizes of the sets; the model keeps the one
   * from `a`.
   */
  function Meet(a: AccountSet, b: AccountSet): (r: AccountSet)
    ensures forall pk :: pk in r <==> pk in a && pk in b
    ensures forall pk | pk in r :: r[pk] == a[pk]
    ensures KeyedByPk(a) ==> KeyedByPk(r)
  {
    map pk | pk in a.Keys * b.Keys :: a[pk]
  }

  /**
   * `a | b` on identity sets: every record of `a`, and the records of `b` whose pk is
   * not in `a` (a set keeps the element it already holds).
   */
  function Join(a: AccountSet, b: AccountSet): (r: AccountSet)
    ensures forall pk :: pk in r <==> pk in a || pk in b
    ensures forall pk | pk in r :: r[pk] == if pk in a then a[pk] else b[pk]
    ensures KeyedByPk(a) && KeyedByPk(b) ==> KeyedByPk(r)
  {
    b + a
  }

  /**
   * The two sides of one relationship's delta never share a pk, a pk present on both
   * sides is in neither, and removing the removed pks from the old side and adding the
   * added pks gives exactly the new side's pks (and back).
   */
  lemma DeltaRebuildsNewSide(oldSide: AccountSet, newSide: AccountSet)
    ensures Minus(newSide, oldSide).Keys !! Minus(oldSide, newSide).Keys
    ensures forall pk | pk in oldSide && pk in newSide ::
              pk !in Minus(newSide, oldSide) && pk !in Minus(oldSide, newSide)
    ensures (oldSide.Keys - Minus(oldSide, newSide).Keys) + Minus(newSide, oldSide).Keys == newSide.Keys
    ensures (newSide.Keys - Minus(newSide, oldSide).Keys) + Minus(oldSide, newSide).Keys == oldSide.Keys
  {
  }

  /** When the pks of a relationship are unchanged there is no delta, whatever the names. */
  lemma SamePksNoDelta(oldSide: AccountSet, newSide: AccountSet)
    requires oldSide.Keys == newSide.Keys
    ensures Minus(newSide, oldSide) == map[] && Minus(oldSide, newSide) == map[]
  {
    assert Minus(newSide, oldSide).Keys == {};
    assert Minus(oldSide, newSide).Keys == {};
  }

  // ---------------------------------------------------------------------------
  // Rename detection
  // ---------------------------------------------------------------------------

  /**
   * The username one snapshot shows for `pk`: the follower record's name when `pk` is
   * a follower (even an empty one), else the following record's name, else none.
   */
  function ObservedName(followers: AccountSet, following: AccountSet, pk: Pk): Option<string>
  {
    if pk in followers then Some(followers[pk].username)
    else if pk in following then Some(following[pk].username)
    else None
  }

  /** Python truthiness of an optional name: present and non-empty. */
  predicate IsName(name: Option<string>)
  {
    name.Some? && name.value != ""
  }

  /** The rename recorded for `pk`: both observed names truthy and different. */
  function RenameOf(oldSnap: Snapshot, newSnap: Snapshot, pk: Pk): Option<(string, string)>
  {
    var oldName := ObservedName(oldSnap.followers, oldSnap.following, pk);
    var newName := ObservedName(newSnap.followers, newSnap.following, pk);
    if IsName(oldName) && IsName(newName) && oldName.value != newName.value
    then Some((oldName.value, newName.value))
    else None
  }

  /** Every pk in any of the four relationship sets. */
  function AllPks(oldSnap: Snapshot, newSnap: Snapshot): set<Pk>
  {
    oldSnap.followers.Keys + newSnap.followers.Keys + oldSnap.following.Keys + newSnap.following.Keys
  }

  /** The `username_changes` dictionary, as a map over every pk that has a rename. */
  function UsernameChanges(oldSnap: Snapshot, newSnap: Snapshot): (r: map<Pk, (string, string)>)
    ensures forall pk | pk in r ::
              && (pk in oldSnap.followers || pk in oldSnap.following)
              && (pk in newSnap.followers || pk in newSnap.following)
              && r[pk].0 != "" && r[pk].1 != "" && r[pk].0 != r[pk].1
  {
    map pk | pk in AllPks(oldSnap, newSnap) && RenameOf(oldSnap, newSnap, pk).Some? :: RenameOf(oldSnap, newSnap, pk).value
  }

  /**
   * A pk has a username change iff it occurs in some old list and in some new list,
   * the name looked up on each side (followers before following) is non-empty, and
   * the two names differ as exact strings; the entry is (old name, new name).
   */
  lemma UsernameChangeIff(oldSnap: Snapshot, newSnap: Snapshot, pk: Pk)
    ensures
      var oldName := if pk in oldSnap.followers then oldSnap.followers[pk].username
                     else if pk in oldSnap.following then oldSnap.following[pk].username else "";
      var newName := if pk in newSnap.followers then newSnap.followers[pk].username
                     else if pk in newSnap.following then newSnap.following[pk].username else "";
      && (pk in UsernameChanges(oldSnap, newSnap) <==>
           && (pk in oldSnap.followers || pk in oldSnap.following)
           && (pk in newSnap.followers || pk in newSnap.following)
           && oldName != "" && newName != ""
           && oldName != newName)
      && (pk in UsernameChanges(oldSnap, newSnap) ==> UsernameChanges(oldSnap, newSnap)[pk] == (oldName, newName))
  {
  }

  /**
   * Only a pk seen in both snapshots can be renamed: the same username under another
   * pk is never a rename.
   */
  lemma RenamesAreKeyedByStablePk(oldSnap: Snapshot, newSnap: Snapshot)
    ensures UsernameChanges(oldSnap, newSnap).Keys <=
            (oldSnap.followers.Keys + oldSnap.following.Keys) * (newSnap.followers.Keys + newSnap.following.Keys)
  {
  }

  /**
   * An account that moves from followers to following under a new name is at once a
   * rename, an unfollower and a new following.
   */
  lemma RenameAcrossRelationships(oldSnap: Snapshot, newSnap: Snapshot, pk: Pk)
    requires pk in oldSnap.followers && pk !in oldSnap.following
    requires pk !in newSnap.followers && pk in newSnap.following
    requires oldSnap.followers[pk].username != "" && newSnap.following[pk].username != ""
    requires oldSnap.followers[pk].username != newSnap.following[pk].username
    ensures pk in UsernameChanges(oldSnap, newSnap)
    ensures UsernameChanges(oldSnap, newSnap)[pk] == (oldSnap.followers[pk].username, newSnap.following[pk].username)
    ensures pk in Minus(oldSnap.followers, newSnap.followers)
    ensures pk in Minus(newSnap.following, oldSnap.following)
  {
    assert pk in AllPks(oldSnap, newSnap);
  }

  /**
   * A pk whose follower record has an empty name is never renamed, even when its
   * following record in the same snapshot has a name: the follower lookup hits first.
   */
  lemma EmptyFollowerNameHidesFollowingName(oldSnap: Snapshot, newSnap: Snapshot, pk: Pk)
    requires pk in oldSnap.followers && oldSnap.followers[pk].username == ""
    ensures pk !in UsernameChanges(oldSnap, newSnap)
  {
  }

  // ---------------------------------------------------------------------------
  // Relationship views
  // ---------------------------------------------------------------------------

  /** `compute_views`: mutuals, followers not followed back, following not following back. */
  function ComputeViews(s: Snapshot): (v: RelationshipViews)
    ensures v.snapshot == s
    ensures forall pk :: pk in v.mutuals <==> pk in s.followers && pk in s.following
    ensures forall pk :: pk in v.notFollowingBack <==> pk in s.followers && pk !in s.following
    ensures forall pk :: pk in v.notFollowedBack <==> pk in s.following && pk !in s.followers
  {
    RelationshipViews(
      s,
      Meet(s.followers, s.following),
      Minus(s.followers, s.following),
      Minus(s.following, s.followers))
  }

  /**
   * The three views are the intersection and the two differences of followers and
   * following by pk: they are pairwise disjoint, together cover every pk of the
   * snapshot, and hold the snapshot's own records.
   */
  lemma ViewsPartitionSnapshot(s: Snapshot)
    ensures var v := ComputeViews(s);
      && v.snapshot == s
      && v.mutuals.Keys == s.followers.Keys * s.following.Keys
      && v.notFollowingBack.Keys == s.followers.Keys - s.following.Keys
      && v.notFollowedBack.Keys == s.following.Keys - s.followers.Keys
      && v.mutuals.Keys !! v.notFollowingBack.Keys
      && v.mutuals.Keys !! v.notFollowedBack.Keys
      && v.notFollowingBack.Keys !! v.notFollowedBack.Keys
      && v.mutuals.Keys + v.notFollowingBack.Keys + v.notFollowedBack.Keys
         == s.followers.Keys + s.following.Keys
      && (forall pk | pk in v.notFollowedBack :: v.notFollowedBack[pk] == s.following[pk])
      && (forall pk | pk in v.mutuals :: v.mutuals[pk] == s.followers[pk])
      && (forall pk | pk in v.notFollowingBack :: v.notFollowingBack[pk] == s.followers[pk])
      && (s.Valid() ==> KeyedByPk(v.mutuals) && KeyedByPk(v.notFollowingBack) && KeyedByPk(v.notFollowedBack))
  {
  }

  // ---------------------------------------------------------------------------
  // Missing accounts
  // ---------------------------------------------------------------------------

  /**
   * `find_missing_accounts`: the old records (follower record first) of every pk in
   * the old followers or following that is in neither new list.
   */
  function FindMissingAccounts(oldSnap: Snapshot, newSnap: Snapshot): (r: AccountSet)
    ensures forall pk :: pk in r <==>
              (pk in oldSnap.followers || pk in oldSnap.following) && pk !in newSnap.followers && pk !in newSnap.following
    ensures forall pk | pk in r ::
              r[pk] == if pk in oldSnap.followers then oldSnap.followers[pk] else oldSnap.following[pk]
    ensures oldSnap.Valid() ==> KeyedByPk(r)
  {
    var oldAccounts := Join(oldSnap.followers, oldSnap.following);
    var newPks := newSnap.followers.Keys + newSnap.following.Keys;
    map pk | pk in oldAccounts.Keys - newPks :: oldAccounts[pk]
  }

  /**
   * A missing account is one that was removed from every relationship it had: its pk
   * is an unfollower or an unfollowing and is in neither new list.
   */
  lemma MissingAreRemovedEverywhere(oldSnap: Snapshot, newSnap: Snapshot)
    ensures FindMissingAccounts(oldSnap, newSnap).Keys ==
            (Minus(oldSnap.followers, newSnap.followers).Keys + Minus(oldSnap.following, newSnap.following).Keys)
            - (newSnap.followers.Keys + newSnap.following.Keys)
  {
  }

  /** Old followers {1, 2} and following {3}; new followers {1}, no following: {2, 3} are missing. */
  lemma MissingExample(a1: AccountIdentity, a2: AccountIdentity, a3: AccountIdentity, t0: int, t1: int)
    requires a1.pk == "1" && a2.pk == "2" && a3.pk == "3"
    ensures var oldSnap := Snapshot(t0, map["1" := a1, "2" := a2], map["3" := a3], None, "export");
            var newSnap := Snapshot(t1, map["1" := a1], map[], None, "export");
            FindMissingAccounts(oldSnap, newSnap) == map["2" := a2, "3" := a3]
  {
    var oldSnap := Snapshot(t0, map["1" := a1, "2" := a2], map["3" := a3], None, "export");
    var newSnap := Snapshot(t1, map["1" := a1], map[], None, "export");
    assert FindMissingAccounts(oldSnap, newSnap).Keys == {"2", "3"};
  }

  // ---------------------------------------------------------------------------
  // The diff
  // ---------------------------------------------------------------------------

  /**
   * The rename loop of `compute_diff`: every pk of either snapshot is visited once, its
   * old and new names are looked up (followers before following), and a change is
   * recorded when both names are non-empty and differ.
   */
  method DetectUsernameChanges(oldSnap: Snapshot, newSnap: Snapshot) returns (usernameChanges: map<Pk, (string, string)>)
    ensures usernameChanges == UsernameChanges(oldSnap, newSnap)
  {
    usernameChanges := map[];
    var allPks := AllPks(oldSnap, newSnap);
    var pending := allPks;
    while pending != {}
      invariant pending <= allPks
      invariant forall pk :: pk in usernameChanges <==>
                  pk in allPks && pk !in pending && RenameOf(oldSnap, newSnap, pk).Some?
      invariant forall pk | pk in usernameChanges :: usernameChanges[pk] == RenameOf(oldSnap, newSnap, pk).value
      decreases pending
    {
      var pk :| pk in pending;
      var oldUsername: Option<string> := None;
      var newUsername: Option<string> := None;

      if pk in oldSnap.followers {
        oldUsername := Some(oldSnap.followers[pk].username);
      }
      if pk in newSnap.followers {
        newUsername := Some(newSnap.followers[pk].username);
      }

      if oldUsername.None? && pk in oldSnap.following {
        oldUsername := Some(oldSnap.following[pk].username);
      }
      if newUsername.None? && pk in newSnap.following {
        newUsername := Some(newSnap.following[pk].username);
      }

      assert oldUsername == ObservedName(oldSnap.followers, oldSnap.following, pk);
      assert newUsername == ObservedName(newSnap.followers, newSnap.following, pk);
      if IsName(oldUsername) && IsName(newUsername) && oldUsername.value != newUsername.value {
        usernameChanges := usernameChanges[pk := (oldUsername.value, newUsername.value)];
      }
      pending := pending - {pk};
    }
    assert usernameChanges.Keys == UsernameChanges(oldSnap, newSnap).Keys;
  }

  /**
   * `compute_diff`: follower and following deltas by pk, the username changes, and the
   * views of the new snapshot.
   */
  method ComputeDiff(oldSnap: Snapshot, newSnap: Snapshot) returns (d: DiffResult)
    ensures d.oldSnapshot == oldSnap && d.newSnapshot == newSnap
    ensures d.newFollowers == Minus(newSnap.followers, oldSnap.followers)
    ensures d.unfollowers == Minus(oldSnap.followers, newSnap.followers)
    ensures d.newFollowing == Minus(newSnap.following, oldSnap.following)
    ensures d.unfollowing == Minus(oldSnap.following, newSnap.following)
    ensures d.usernameChanges == UsernameChanges(oldSnap, newSnap)
    ensures var v := ComputeViews(newSnap);
            d.mutuals == v.mutuals && d.notFollowingBack == v.notFollowingBack
            && d.notFollowedBack == v.notFollowedBack
  {
    var newFollowers := Minus(newSnap.followers, oldSnap.followers);
    var unfollowers := Minus(oldSnap.followers, newSnap.followers);
    var newFollowing := Minus(newSnap.following, oldSnap.following);
    var unfollowing := Minus(oldSnap.following, newSnap.following);
    var usernameChanges := DetectUsernameChanges(oldSnap, newSnap);
    var views := ComputeViews(newSnap);
    d := DiffResult(oldSnap, newSnap, newFollowers, unfollowers, newFollowing, unfollowing,
                    usernameChanges, views.mutuals, views.notFollowingBack, views.notFollowedBack);
  }

  /** Diffing a snapshot against itself gives no deltas, no renames and no missing accounts. */
  lemma SelfDiffIsEmpty(s: Snapshot)
    ensures Minus(s.followers, s.followers) == map[]
    ensures Minus(s.following, s.following) == map[]
    ensures UsernameChanges(s, s) == map[]
    ensures FindMissingAccounts(s, s) == map[]
  {
    SamePksNoDelta(s.followers, s.followers);
    SamePksNoDelta(s.following, s.following);
    assert UsernameChanges(s, s).Keys == {};
    assert FindMissingAccounts(s, s).Keys == {};
  }
}
