/**
 * The identity model of the audit tool: account identities compared by their
 * stable primary key, snapshots of follower/following sets, the verification
 * status of a missing account, and the shapes of the diff results.
 */
module Types {
  import opened Wrappers

  /** The platform's primary key of an account (or one derived from a username). */
  type Pk = string

  /** An account as seen in one snapshot: a stable `pk`, a `username` that may change. */
  datatype AccountIdentity = AccountIdentity(pk: Pk, username: string, fullName: Option<string>)

  /**
   * Identity equality (`__eq__`): two identities are the same account iff their pks
   * agree, that is iff they differ at most in username and full name.
   */
  predicate SameIdentity(a: AccountIdentity, b: AccountIdentity): (r: bool)
    ensures r <==> a.(username := b.username, fullName := b.fullName) == b
  {
    a.pk == b.pk
  }

  /**
   * Identity hash (`__hash__`): the string hash of the pk. Python randomises string
   * hashing per process, so the string hash is a parameter of the model.
   */
  function IdentityHash(a: AccountIdentity, stringHash: string -> int): (h: int)
    ensures forall b | SameIdentity(a, b) :: h == stringHash(b.pk)
  {
    stringHash(a.pk)
  }

  /** Equality ignores username and full name, and looks at the pk alone. */
  lemma SameIdentityIffSamePk(a: AccountIdentity, b: AccountIdentity)
    ensures SameIdentity(a, b) <==> a.pk == b.pk
    ensures SameIdentity(a, b) <==>
            SameIdentity(a.(username := b.username, fullName := b.fullName), b)
  {
  }

  /** Equal identities have equal hashes, whatever string hash is in use. */
  lemma EqualIdentitiesHashAlike(a: AccountIdentity, b: AccountIdentity, stringHash: string -> int)
    requires SameIdentity(a, b)
    ensures IdentityHash(a, stringHash) == IdentityHash(b, stringHash)
  {
  }

  /**
   * A Python set of identities. Because identities are equal exactly when their pks
   * are, such a set holds at most one record per pk; it is modelled as a map from
   * each pk to the one record the set holds for it.
   */
  type AccountSet = map<Pk, AccountIdentity>

  /** Every record is filed under its own pk. */
  predicate KeyedByPk(m: AccountSet)
  {
    forall pk | pk in m :: m[pk].pk == pk
  }

  /** `set.add`: when an equal identity (same pk) is already present the set keeps it. */
  function Add(m: AccountSet, a: AccountIdentity): (r: AccountSet)
    ensures r.Keys == m.Keys + {a.pk}
    ensures a.pk in r && r[a.pk] == if a.pk in m then m[a.pk] else a
    ensures KeyedByPk(m) ==> SameIdentity(r[a.pk], a)
    ensures forall pk | pk in m :: pk in r && r[pk] == m[pk]
    ensures KeyedByPk(m) ==> KeyedByPk(r)
  {
    if a.pk in m then m else m[a.pk := a]
  }

  /** Adding an identity equal to one already added changes nothing. */
  lemma AddIgnoresEqualIdentity(m: AccountSet, a: AccountIdentity, b: AccountIdentity)
    requires SameIdentity(a, b)
    ensures Add(Add(m, a), b) == Add(m, a)
  {
  }

  /**
   * In a set keyed by pk distinct pks hold distinct records, so the number of records
   * equals the number of distinct pks, and the pks of the records are the keys.
   */
  lemma {:induction false} RecordCountIsPkCount(m: AccountSet)
    requires KeyedByPk(m)
    ensures |m.Values| == |m.Keys| == |m|
    ensures (set a | a in m.Values :: a.pk) == m.Keys
    decreases |m|
  {
    if m == map[] {
      assert m.Values == {};
    } else {
      var k :| k in m;
      var rest := m - {k};
      assert rest.Keys == m.Keys - {k};
      RecordCountIsPkCount(rest);
      assert m.Values == rest.Values + {m[k]} by {
        forall v | v in m.Values ensures v in rest.Values + {m[k]} {
          var j :| j in m && m[j] == v;
          if j != k {
            assert j in rest && rest[j] == v;
          }
        }
        forall v | v in rest.Values ensures v in m.Values {
          var j :| j in rest && rest[j] == v;
          assert j in m && m[j] == v;
        }
      }
      forall v | v in rest.Values ensures v.pk != k {
        var j :| j in rest && rest[j] == v;
        assert v.pk == j;
      }
      assert m[k] !in rest.Values;
    }
  }

  /** A point-in-time capture of followers and following. */
  datatype Snapshot = Snapshot(
    timestamp: int,
    followers: AccountSet,
    following: AccountSet,
    snapshotId: Option<int>,
    source: string)
  {
    /** Both relationship sets are keyed by the pk of their records. */
    predicate Valid()
    {
      KeyedByPk(followers) && KeyedByPk(following)
    }

    /** `follower_count()`: the size of the follower set, one per distinct pk. */
    function FollowerCount(): (n: nat)
      ensures n == |followers.Keys|
      ensures Valid() ==> n == |followers.Values|
    {
      if Valid() then RecordCountIsPkCount(followers); |followers| else |followers|
    }

    /** `following_count()`: the size of the following set, one per distinct pk. */
    function FollowingCount(): (n: nat)
      ensures n == |following.Keys|
      ensures Valid() ==> n == |following.Values|
    {
      if Valid() then RecordCountIsPkCount(following); |following| else |following|
    }
  }

  /** A snapshot built with only a timestamp: the dataclass defaults. */
  function NewSnapshot(timestamp: int): (s: Snapshot)
    ensures s.Valid()
    ensures s.timestamp == timestamp
    ensures s.FollowerCount() == 0 && s.FollowingCount() == 0
    ensures s.snapshotId == None && s.source == "export"
  {
    Snapshot(timestamp, map[], map[], None, "export")
  }

  /** The outcome of verifying a missing account. */
  datatype VerificationStatus = Pending | Blocked | Deactivated | Renamed | Unfollowed | Unknown
  {
    /** The enum member's stored value. */
    function Value(): string
    {
      match this
      case Pending => "pending"
      case Blocked => "blocked"
      case Deactivated => "deactivated"
      case Renamed => "renamed"
      case Unfollowed => "unfollowed"
      case Unknown => "unknown"
    }
  }

  /** `VerificationStatus(value)`: lookup by value; Python raises `ValueError` for others. */
  function StatusOfValue(v: string): (r: Option<VerificationStatus>)
    ensures r.Some? ==> r.value.Value() == v
  {
    if v == "pending" then Some(Pending)
    else if v == "blocked" then Some(Blocked)
    else if v == "deactivated" then Some(Deactivated)
    else if v == "renamed" then Some(Renamed)
    else if v == "unfollowed" then Some(Unfollowed)
    else if v == "unknown" then Some(Unknown)
    else None
  }

  /** The six statuses, as a set. */
  const AllStatuses: set<VerificationStatus> :=
    {Pending, Blocked, Deactivated, Renamed, Unfollowed, Unknown}

  /** There are exactly six statuses. */
  lemma StatusesAreSix()
    ensures forall s: VerificationStatus :: s in AllStatuses
    ensures |AllStatuses| == 6
  {
    forall s: VerificationStatus ensures s in AllStatuses {
      match s
      case Pending => case Blocked => case Deactivated =>
      case Renamed => case Unfollowed => case Unknown =>
    }
  }

  /**
   * Looking a status up by its value gives it back, so distinct statuses have
   * distinct values.
   */
  lemma StatusValueRoundTrip(s: VerificationStatus, t: VerificationStatus)
    ensures StatusOfValue(s.Value()) == Some(s)
    ensures s.Value() == t.Value() ==> s == t
  {
  }

  /** An account that disappeared between snapshots, awaiting human verification. */
  datatype MissingAccount = MissingAccount(
    account: AccountIdentity,
    lastSeen: int,
    firstMissing: int,
    verificationStatus: VerificationStatus,
    newUsername: Option<string>,
    notes: Option<string>)

  /** A `MissingAccount` built from its three required fields: the dataclass defaults. */
  function NewMissingAccount(account: AccountIdentity, lastSeen: int, firstMissing: int): (m: MissingAccount)
    ensures m.account == account && m.lastSeen == lastSeen && m.firstMissing == firstMissing
    ensures m.verificationStatus == Pending
    ensures m.newUsername == None && m.notes == None
  {
    MissingAccount(account, lastSeen, firstMissing, Pending, None, None)
  }

  /** The complete diff between two snapshots. */
  datatype DiffResult = DiffResult(
    oldSnapshot: Snapshot,
    newSnapshot: Snapshot,
    newFollowers: AccountSet,
    unfollowers: AccountSet,
    newFollowing: AccountSet,
    unfollowing: AccountSet,
    usernameChanges: map<Pk, (string, string)>,
    mutuals: AccountSet,
    notFollowingBack: AccountSet,
    notFollowedBack: AccountSet)

  /** The relationship views of one snapshot. */
  datatype RelationshipViews = RelationshipViews(
    snapshot: Snapshot,
    mutuals: AccountSet,
    notFollowingBack: AccountSet,
    notFollowedBack: AccountSet)
}
