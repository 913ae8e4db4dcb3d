# instagram-audit snapshot diff engine, in Dafny

This project models the core of `instagram-audit`, a tool that keeps snapshots of an
account's followers and following and compares them. Three parts of the Python code
are modelled and proved:

- **The identity model** (`types.dfy`, module `Types`). An `AccountIdentity` is
  equal to another exactly when their primary keys (`pk`) are equal, and its hash is
  the hash of the pk. So a Python set of identities holds one record per pk. The model
  writes such a set as `AccountSet = map<Pk, AccountIdentity>` with the invariant
  `KeyedByPk` (every record is filed under its own pk); `Add` is `set.add`, which keeps
  the record already present. A `Snapshot` holds a follower set and a following set;
  its counts are the sizes of those sets. The module also holds `VerificationStatus`,
  `MissingAccount` with its defaults, and the shapes of `DiffResult` and
  `RelationshipViews`.
- **The diff engine** (`engine.dfy`, module `Engine`). `ComputeDiff` finds new
  followers, unfollowers, new following and unfollowing by set difference on pk.
  `DetectUsernameChanges` is the loop that visits every pk of both snapshots and
  records `(old name, new name)` when both names are non-empty and differ. The views
  are mutuals, not following back and not followed back. `FindMissingAccounts` finds
  the old accounts that are in neither new list. Every result is stated by pk. The
  algebra is built from three operations: `Minus` (Python `a - b`), `Meet` (`a & b`)
  and `Join` (`a | b`).
- **The export-file parser** (`export_ingest.dfy`, module `ExportIngest`). It works
  on an already decoded JSON value (`Json`). `LoadRawData` unwraps a dict to its first
  list-valued field. `ParseFile` runs the two nested loops of `_parse_file`: it grows
  the account set and the timestamp list, skips entries without `string_list_data`,
  skips items without a username, and gives each account the pk
  `"username:" + username`. `Collect` parses both files and stamps the snapshot with
  the largest timestamp. A Python exception is a `Failure` of the `Result` type.

`wrappers.dfy` holds `Option` and `Result`.

Each loop is a `method` with invariants. Each method is proved equal to a function:
`DetectUsernameChanges` to `UsernameChanges`, `LoadRawData` to `RawEntries`,
`ParseFile` to `ParsedExport`, its inner loop `ParseItems` to `ItemsStep`, `Collect` to
`ExportSnapshot`. The lemmas state what the
code promises about those functions.

Three behaviours of the code are easy to miss:

- The old name of a pk is taken from the old followers whenever the pk is a
  follower, even if that name is empty. Only a pk that is not a follower falls back
  to the following record. An empty follower name therefore hides a non-empty
  following name, and no rename is reported (`EmptyFollowerNameHidesFollowingName`).
- The engine does not check that a snapshot is well formed. No engine member
  requires `Snapshot.Valid()`; that predicate appears only as a hypothesis in contracts
  and lemmas.
- The status values are the ones the code stores: `pending`, `blocked`,
  `deactivated`, `renamed`, `unfollowed`, `unknown`.

## Model

| member | source | states |
|---|---|---|
| `Types.SameIdentity` | src/instagram_audit/core/types.py:21-24 | `__eq__`: two identities are equal iff they differ at most in username and full name. |
| `Types.IdentityHash` | src/instagram_audit/core/types.py:18-19 | `__hash__`: every identity equal to `a` has the hash of its own pk, so the hash agrees with equality. |
| `Types.SameIdentityIffSamePk` | src/instagram_audit/core/types.py:21-24 | Two identities are equal iff their pks are equal. Changing the username or full name of one side does not change the answer. |
| `Types.EqualIdentitiesHashAlike` | src/instagram_audit/core/types.py:18-19 | Equal identities have equal hashes for any string hash function, because the hash reads only the pk. |
| `Types.Add` | src/instagram_audit/collectors/export_ingest.py:165-171 | `set.add` on identities: the pk joins the keys and every record already held is kept unchanged. A pk not yet present holds the added record itself, with its username and full name; a pk already present keeps its old record. Adding keeps `KeyedByPk`. |
| `Types.AddIgnoresEqualIdentity` | src/instagram_audit/core/types.py:18-24 | Adding an identity equal to one already added leaves the set as it was. |
| `Types.RecordCountIsPkCount` | src/instagram_audit/core/types.py:31-32 | In a set keyed by pk the number of records equals the number of distinct pks, and the pks of the records are exactly the keys. |
| `Types.Snapshot.FollowerCount` | src/instagram_audit/core/types.py:38-39 | `follower_count()` is the number of distinct follower pks. For a well-formed snapshot it is also the number of follower records. |
| `Types.Snapshot.FollowingCount` | src/instagram_audit/core/types.py:41-42 | `following_count()` is the number of distinct following pks. For a well-formed snapshot it is also the number of following records. |
| `Types.NewSnapshot` | src/instagram_audit/core/types.py:27-36 | A snapshot built from a timestamp alone is well formed, has both counts zero, no `snapshot_id` and source `"export"`. |
| `Types.StatusOfValue` | src/instagram_audit/core/types.py:45-52 | A status found by its value has that value. |
| `Types.StatusesAreSix` | src/instagram_audit/core/types.py:45-52 | `VerificationStatus` has exactly six cases. |
| `Types.StatusValueRoundTrip` | src/instagram_audit/core/types.py:45-52 | Looking a status up by its value gives the status back, so distinct statuses have distinct values. |
| `Types.NewMissingAccount` | src/instagram_audit/core/types.py:55-63 | A new `MissingAccount` keeps its three given fields. Its status is `PENDING` and it has no `new_username` and no `notes`. |
| `Engine.Minus` | src/instagram_audit/diff/engine.py:21-25 | The records of `a` whose pk is not in `b`, as `a`'s own records. `a` keyed by pk implies the result is. |
| `Engine.Meet` | src/instagram_audit/diff/engine.py:62 | Exactly the pks in both sets, with the first set's records. |
| `Engine.Join` | src/instagram_audit/diff/engine.py:101-109 | Exactly the pks in either set. The first set's record wins for a pk in both, as Python's set union keeps it. |
| `Engine.DeltaRebuildsNewSide` | src/instagram_audit/diff/engine.py:18-35 | The added and removed sets of one relationship are disjoint by pk. A pk on both sides is in neither. Old pks minus removed pks plus added pks equals the new pks, and the reverse also holds. |
| `Engine.SamePksNoDelta` | src/instagram_audit/diff/engine.py:21-32 | When a relationship keeps the same pks, nothing is added or removed, whatever the usernames. |
| `Engine.UsernameChanges` | src/instagram_audit/diff/engine.py:38-59 | Every recorded pk is in an old list and in a new list. Its old and new names are both non-empty and differ. |
| `Engine.UsernameChangeIff` | src/instagram_audit/diff/engine.py:39-59 | A pk has a username change iff all of these hold: it is in an old list and in a new list; the name looked up on each side (followers before following) is non-empty; the two names differ case-sensitively. The entry is (old name, new name). |
| `Engine.RenamesAreKeyedByStablePk` | src/instagram_audit/diff/engine.py:39-59 | Only pks present in both snapshots are renamed, so a username reused under another pk is never a rename. |
| `Engine.RenameAcrossRelationships` | src/instagram_audit/diff/engine.py:21-59 | A pk that moves from followers to following under a new non-empty name is at once a rename, an unfollower and a new following. |
| `Engine.EmptyFollowerNameHidesFollowingName` | src/instagram_audit/diff/engine.py:45-58 | A pk whose old follower record has an empty name is never renamed, even if its old following record has a name. |
| `Engine.ComputeViews` | src/instagram_audit/diff/engine.py:80-91 | The views carry the snapshot. A pk is a mutual iff it is a follower and a following. It is not following back iff it is a follower only. It is not followed back iff it is a following only. |
| `Engine.ViewsPartitionSnapshot` | src/instagram_audit/diff/engine.py:80-91 | Mutuals, not following back and not followed back are followers ∩ following, followers − following and following − followers, by pk. They are pairwise disjoint, together cover followers ∪ following, hold the snapshot's own records, and stay keyed by pk. |
| `Engine.FindMissingAccounts` | src/instagram_audit/diff/engine.py:94-111 | A pk is missing iff it is an old follower or old following and in neither new list. The record is the old follower record, or else the old following record. |
| `Engine.MissingAreRemovedEverywhere` | src/instagram_audit/diff/engine.py:101-111 | The missing pks are the unfollowers and unfollowings that are in neither new list. |
| `Engine.MissingExample` | src/instagram_audit/diff/engine.py:94-111 | Old followers {1, 2}, old following {3}, new followers {1} and no new following give the missing set {2, 3} with the old records. |
| `Engine.DetectUsernameChanges` | src/instagram_audit/diff/engine.py:37-59 | The rename loop, visiting each pk once, builds exactly the `UsernameChanges` map characterised by `UsernameChangeIff`. |
| `Engine.ComputeDiff` | src/instagram_audit/diff/engine.py:5-77 | The diff carries both snapshots. Its four delta sets are the pk differences of the matching relationship: new records for additions, old records for removals. Its renames are `UsernameChanges`. Its view fields equal those of `ComputeViews(new)`. |
| `Engine.SelfDiffIsEmpty` | src/instagram_audit/diff/engine.py:11-59 | Diffing a snapshot with itself gives no additions, no removals, no renames and no missing accounts. |
| `ExportIngest.Get` | src/instagram_audit/collectors/export_ingest.py:147-153 | `d.get(key)` is absent iff no field has the key. When present, it is the value of a field with that key. |
| `ExportIngest.FirstListField` | src/instagram_audit/collectors/export_ingest.py:116-118 | Absent iff no field holds a list. Otherwise it is the list held by the first field, in key order, that holds one. |
| `ExportIngest.FirstListFieldSkipsPrefix` | src/instagram_audit/collectors/export_ingest.py:116-118 | Fields that hold no list can be skipped without changing which list is found. |
| `ExportIngest.LoadRawData` | src/instagram_audit/collectors/export_ingest.py:111-121 | A top-level list is returned as it is. A dict gives its first list-valued field in key order, or a list holding the dict alone. Anything else is a `ValueError`. |
| `ExportIngest.ExtractPkFromHref` | src/instagram_audit/collectors/export_ingest.py:175-184 | The pk is `"username:"` followed by the username; the href does not matter. |
| `ExportIngest.ExportPkIdentifiesUsername` | src/instagram_audit/collectors/export_ingest.py:175-184 | The username can be read back from its export pk, so two usernames share a pk iff they are equal, whatever the hrefs. |
| `ExportIngest.StringListData` | src/instagram_audit/collectors/export_ingest.py:147-150 | A dict entry never fails. It has list data iff one of its keys is `string_list_data`, and that data is the value stored under the key. A list entry fails iff it holds the string `string_list_data`, and is skipped otherwise. A string entry fails iff it contains `string_list_data`, and is skipped otherwise. `null`, booleans and integers always fail. Every failure is a `TypeError`. |
| `ExportIngest.Iterate` | src/instagram_audit/collectors/export_ingest.py:150 | Iterating succeeds exactly on a list, a dict or a string. A list gives its elements, a dict its keys in order and a string its characters in order. Anything else is a `TypeError`. |
| `ExportIngest.AppendTimestamp` | src/instagram_audit/collectors/export_ingest.py:153-156 | A falsy or missing timestamp leaves the list as it was. A truthy integer is appended itself, and `true` is appended as 1. The appended value is never zero. The step fails, with `UnsupportedTimestamp`, exactly for a truthy timestamp that is neither an integer nor a boolean. |
| `ExportIngest.ParseFile` | src/instagram_audit/collectors/export_ingest.py:123-173 | The outer loop over the entries, with `ParseItems` as its inner loop, computes exactly `ParsedExport`, stopping at the error Python would raise. |
| `ExportIngest.ParseItems` | src/instagram_audit/collectors/export_ingest.py:150-171 | The inner loop over one entry's items, which grows the timestamp list and the account set, computes exactly `ItemsStep`, stopping at the first error. |
| `ExportIngest.ItemStepAdds` | src/instagram_audit/collectors/export_ingest.py:150-171 | A successful item keeps every account already held. It adds the export account of its non-empty string `value`, if it has one, and appends its truthy timestamp, if it has one. |
| `ExportIngest.ItemsStepAdds` | src/instagram_audit/collectors/export_ingest.py:150-171 | The same holds for a whole item list: the pks of its usernames are added and its timestamps are appended in order. |
| `ExportIngest.EntriesStepAdds` | src/instagram_audit/collectors/export_ingest.py:129-171 | The same holds for a whole entry list. Entries without list data contribute nothing. |
| `ExportIngest.ParsedExportContents` | src/instagram_audit/collectors/export_ingest.py:123-184 | A parsed file holds one account per distinct username found in an item's `value`. That account has pk `"username:" + username`, that username and no full name. The timestamps are the items' truthy timestamps in file order. |
| `ExportIngest.EntryWithoutListDataIsSkipped` | src/instagram_audit/collectors/export_ingest.py:147-148 | An entry without `string_list_data` contributes no account and no timestamp. |
| `ExportIngest.ItemWithoutUsernameKeepsTimestamp` | src/instagram_audit/collectors/export_ingest.py:151-159 | An item with a missing or empty `value` adds no account. Its timestamp, if missing, falsy, an integer or a boolean, is handled as for any other item. A truthy timestamp, including `true`, is recorded. |
| `ExportIngest.RepeatedUsernameCollapses` | src/instagram_audit/collectors/export_ingest.py:163-171 | Two items with the same username leave a single account. |
| `ExportIngest.MaxTimestamp` | src/instagram_audit/collectors/export_ingest.py:91-94 | `max` returns a member of the list that is at least every member. |
| `ExportIngest.SnapshotTime` | src/instagram_audit/collectors/export_ingest.py:91-97 | With timestamps, the snapshot time is their maximum; with none, it is the fallback time. |
| `ExportIngest.ExportSnapshot` | src/instagram_audit/collectors/export_ingest.py:86-104 | Collecting succeeds iff both files parse. Otherwise the followers file's error comes first. A success holds both files' accounts, source `"export"` and no id. Its time is the largest timestamp of either file, or the fallback when there is none. |
| `ExportIngest.Collect` | src/instagram_audit/collectors/export_ingest.py:86-104 | Collecting parses the followers file, then the following file, and builds exactly `ExportSnapshot`. The first parse error stops it. |
| `ExportIngest.ExportSnapshotIsValid` | src/instagram_audit/collectors/export_ingest.py:86-104 | A collected snapshot is well formed, has source `"export"` and no id, and holds only export accounts. Its time is the maximum of both files' timestamps, or the fallback when there are none. |
| `ExportIngest.EmptyExportHasNoAccounts` | src/instagram_audit/collectors/export_ingest.py:91-104 | Two empty files give a snapshot with both counts zero, stamped with the fallback time. |

## Left out

- `ExportIngestCollector.__init__` and `_find_file`: directory and glob search on the file system. The model starts from decoded JSON values.
- `open` and `json.load` in `_load_raw_data` and `_parse_file`: file reading and decoding. The model takes the decoded value.
- The modification-time fallback in `collect`: the file's `st_mtime` is a parameter (`mtime`).
- `datetime.fromtimestamp`: local-time conversion. Timestamps stay integers, so the `OverflowError`, `OSError` or `ValueError` that Python raises for an out-of-range timestamp is not modelled, and `Collect` accepts every integer.
- JSON numbers with a fraction: `Json` has integers only.
- JSON objects with repeated keys: a decoded Python dict cannot have them. `Json` objects are field lists read as dicts with distinct keys.
- `ExportIngest.ParseFile`: a truthy `value` that is not a string is reported as `UnsupportedUsername`. Python would build an identity whose username is not a string.
- `ExportIngest.AppendTimestamp`: fails with `UnsupportedTimestamp` on a truthy timestamp that is neither an integer nor a boolean, where Python appends it and the error surfaces only in `collect`.
- `ExportIngest.ParseFile`: a truthy `timestamp` that is neither an integer nor a boolean is reported as `UnsupportedTimestamp` during parsing. Python keeps it and fails later, inside `collect`.
- `Engine.Meet`: CPython keeps the record from the smaller of the two sets; the model keeps the follower record. When the two records of a pk differ in username, the model differs from CPython unless the followers set is strictly smaller. The views are therefore stated by pk.
- The Python string hash: randomised per process, so it is a parameter of `IdentityHash`.
- `AccountIdentity.__eq__` returning `NotImplemented` for other types: the model is typed and only compares identities.
- The order in which `compute_diff` visits pks: the loop takes any pending pk, and the result does not depend on the order.
- `format_diff_summary` and `format_views_summary`: text rendering only.
- `DiffEvent`: a record type that the diff engine never builds.
- The CLI, HTML and text reports, SQLite storage, the verification queue, synchronisation and encryption, and the network collectors: I/O and presentation outside the modelled core.
