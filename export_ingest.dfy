/**
 * The export-file parser: a decoded "Download Your Information" JSON value becomes a
 * set of account identities keyed by a pk synthesised from the username, plus the
 * list of timestamps seen; two such files make a snapshot stamped with the latest one.
 */
module ExportIngest {
  import opened Wrappers
  import opened Types

  /**
   * A decoded JSON value. Numbers are integers (floats are not modelled); an object is
   * its fields in key order, with distinct keys as in a Python dict.
   */
  datatype Json =
    | JNull
    | JBool(b: bool)
    | JInt(n: int)
    | JString(s: string)
    | JArray(items: seq<Json>)
    | JObject(fields: seq<(string, Json)>)

  /** Why parsing stops. */
  datatype IngestError =
    | ValueError           // the top-level value is neither a list nor a dict
    | TypeError            // an entry, or its `string_list_data`, that Python cannot test or iterate
    | AttributeError       // `.get` called on an item that is not a dict
    | UnsupportedUsername  // a truthy `value` that is not a string
    | UnsupportedTimestamp // a truthy `timestamp` that is neither an integer nor a boolean

  /** The key whose presence makes an entry a relationship entry. */
  const ListDataKey: string := "string_list_data"

  /** The prefix of every pk synthesised for an export account. */
  const ExportPkPrefix: string := "username:"

  // ---------------------------------------------------------------------------
  // JSON helpers with Python's meaning
  // ---------------------------------------------------------------------------

  /** `d.get(key)` on a dict: the value stored under `key`, if any. */
  function Get(fields: seq<(string, Json)>, key: string): (r: Option<Json>)
    ensures r.None? <==> forall i | 0 <= i < |fields| :: fields[i].0 != key
    ensures r.Some? ==> exists i | 0 <= i < |fields| :: fields[i] == (key, r.value)
  {
    if fields == [] then None
    else if fields[0].0 == key then Some(fields[0].1)
    else
      var r := Get(fields[1..], key);
      assert r.Some? ==> exists i | 0 <= i < |fields[1..]| :: fields[1..][i] == (key, r.value);
      assert r.Some? ==> exists i | 0 <= i < |fields| :: fields[i] == (key, r.value) by {
        if r.Some? {
          var i :| 0 <= i < |fields[1..]| && fields[1..][i] == (key, r.value);
          assert fields[i + 1] == (key, r.value);
        }
      }
      r
  }

  /** Python truthiness of a JSON value. */
  predicate Truthy(j: Json)
  {
    match j
    case JNull => false
    case JBool(b) => b
    case JInt(n) => n != 0
    case JString(s) => s != ""
    case JArray(items) => items != []
    case JObject(fields) => fields != []
  }

  /** Truthiness of the result of `.get`: a missing key reads as `None`. */
  predicate TruthyOpt(o: Option<Json>)
  {
    o.Some? && Truthy(o.value)
  }

  /** `sub` occurs in `s` starting at position `i`. */
  predicate OccursAt(sub: string, s: string, i: nat)
  {
    i + |sub| <= |s| && s[i..i + |sub|] == sub
  }

  /** `sub in s` on strings: `sub` occurs in `s` at some position. */
  predicate IsSubstring(sub: string, s: string)
  {
    exists i: nat | i <= |s| :: OccursAt(sub, s, i)
  }

  // ---------------------------------------------------------------------------
  // _load_raw_data
  // ---------------------------------------------------------------------------

  /** The value of the first field, in key order, that holds a list. */
  function FirstListField(fields: seq<(string, Json)>): (r: Option<seq<Json>>)
    ensures r.None? <==> forall i | 0 <= i < |fields| :: !fields[i].1.JArray?
    ensures r.Some? ==> exists i | 0 <= i < |fields| ::
              fields[i].1 == JArray(r.value) && forall j | 0 <= j < i :: !fields[j].1.JArray?
  {
    if fields == [] then None
    else if fields[0].1.JArray? then Some(fields[0].1.items)
    else
      var r := FirstListField(fields[1..]);
      assert r.Some? ==> exists i | 0 <= i < |fields| ::
               fields[i].1 == JArray(r.value) && forall j | 0 <= j < i :: !fields[j].1.JArray? by {
        if r.Some? {
          var i :| 0 <= i < |fields[1..]| && fields[1..][i].1 == JArray(r.value)
                   && forall j | 0 <= j < i :: !fields[1..][j].1.JArray?;
          assert fields[i + 1].1 == JArray(r.value);
          forall j | 0 <= j < i + 1 ensures !fields[j].1.JArray? {
            if j > 0 { assert fields[j] == fields[1..][j - 1]; }
          }
        }
      }
      r
  }

  /**
   * The entry list of an export file: a list as it is, the first list-valued field of
   * a dict (or the dict alone in a list), and `ValueError` for anything else.
   */
  function RawEntries(data: Json): Result<seq<Json>, IngestError>
  {
    match data
    case JArray(items) => Success(items)
    case JObject(fields) =>
      (match FirstListField(fields)
       case Some(items) => Success(items)
       case None => Success([data]))
    case _ => Failure(ValueError)
  }

  /** `_load_raw_data` on an already decoded value: the loop over the dict's keys. */
  method LoadRawData(data: Json) returns (r: Result<seq<Json>, IngestError>)
    ensures data.JArray? ==> r == Success(data.items)
    ensures data.JObject? ==> r.Success?
    ensures data.JObject? && (exists i | 0 <= i < |data.fields| :: data.fields[i].1.JArray?) ==>
              exists i | 0 <= i < |data.fields| ::
                data.fields[i].1 == JArray(r.value) && forall j | 0 <= j < i :: !data.fields[j].1.JArray?
    ensures data.JObject? && (forall i | 0 <= i < |data.fields| :: !data.fields[i].1.JArray?) ==>
              r == Success([data])
    ensures !data.JArray? && !data.JObject? ==> r == Failure(ValueError)
    ensures r == RawEntries(data)
  {
    if data.JArray? {
      return Success(data.items);
    } else if data.JObject? {
      var fields := data.fields;
      var i := 0;
      while i < |fields|
        invariant 0 <= i <= |fields|
        invariant forall j | 0 <= j < i :: !fields[j].1.JArray?
      {
        if fields[i].1.JArray? {
          ghost var r' := FirstListField(fields);
          assert r'.Some? && fields[i].1 == JArray(r'.value) by {
            assert fields == fields[..i] + fields[i..];
            FirstListFieldSkipsPrefix(fields, i);
          }
          return Success(fields[i].1.items);
        }
        i := i + 1;
      }
      return Success([data]);
    } else {
      return Failure(ValueError);
    }
  }

  /** With no list among the first `i` fields, the first list field is found from `i` on. */
  lemma {:induction false} FirstListFieldSkipsPrefix(fields: seq<(string, Json)>, i: nat)
    requires i <= |fields|
    requires forall j | 0 <= j < i :: !fields[j].1.JArray?
    ensures FirstListField(fields) == FirstListField(fields[i..])
    decreases i
  {
    if i > 0 {
      assert fields[1..][i - 1..] == fields[i..];
      FirstListFieldSkipsPrefix(fields[1..], i - 1);
    }
  }

  // ---------------------------------------------------------------------------
  // _extract_pk_from_href
  // ---------------------------------------------------------------------------

  /** `_extract_pk_from_href`: the href is ignored and the pk is derived from the username. */
  function ExtractPkFromHref(href: Option<Json>, username: string): (pk: Pk)
    ensures |pk| == |ExportPkPrefix| + |username|
    ensures pk[..|ExportPkPrefix|] == ExportPkPrefix && pk[|ExportPkPrefix|..] == username
  {
    ExportPkPrefix + username
  }

  /** The username an export pk was made from, if the pk has the export form. */
  function UsernameOfExportPk(pk: Pk): Option<string>
  {
    if |pk| >= |ExportPkPrefix| && pk[..|ExportPkPrefix|] == ExportPkPrefix
    then Some(pk[|ExportPkPrefix|..])
    else None
  }

  /**
   * The export pk gives its username back, so two usernames share a pk exactly when
   * they are equal; the href plays no part.
   */
  lemma ExportPkIdentifiesUsername(href1: Option<Json>, u1: string, href2: Option<Json>, u2: string)
    ensures UsernameOfExportPk(ExtractPkFromHref(href1, u1)) == Some(u1)
    ensures ExtractPkFromHref(href1, u1) == ExtractPkFromHref(href2, u2) <==> u1 == u2
  {
  }

  // ---------------------------------------------------------------------------
  // _parse_file, step by step
  // ---------------------------------------------------------------------------

  /** The two values `_parse_file` grows: the account set and the timestamp list. */
  datatype Parsed = Parsed(accounts: AccountSet, timestamps: seq<int>)

  /** What `_parse_file` starts from. */
  const NoneParsed: Parsed := Parsed(map[], [])

  /** The account an item with username `u` contributes. */
  function ExportAccount(href: Option<Json>, u: string): AccountIdentity
  {
    AccountIdentity(ExtractPkFromHref(href, u), u, None)
  }

  /**
   * `"string_list_data" not in entry` followed by `entry["string_list_data"]`: the list
   * data of a relationship entry, none for an entry to skip, or the error Python raises.
   */
  function StringListData(entry: Json): (r: Result<Option<Json>, IngestError>)
    ensures entry.JObject? ==>
              (r.Success? &&
               (r.value.None? <==> forall i | 0 <= i < |entry.fields| :: entry.fields[i].0 != ListDataKey))
    ensures r.Success? && r.value.Some? ==> entry.JObject?
    ensures r.Success? && r.value.Some? ==>
              exists i | 0 <= i < |entry.fields| :: entry.fields[i] == (ListDataKey, r.value.value)
    ensures entry.JArray? ==>
              r == if JString(ListDataKey) in entry.items then Failure(TypeError) else Success(None)
    ensures entry.JString? ==>
              r == if IsSubstring(ListDataKey, entry.s) then Failure(TypeError) else Success(None)
    ensures r.Failure? ==> r.error == TypeError
    ensures entry.JNull? || entry.JBool? || entry.JInt? ==> r.Failure?
  {
    match entry
    case JObject(fields) => Success(Get(fields, ListDataKey))
    case JArray(items) => if JString(ListDataKey) in items then Failure(TypeError) else Success(None)
    case JString(s) => if IsSubstring(ListDataKey, s) then Failure(TypeError) else Success(None)
    case _ => Failure(TypeError)
  }

  /** `for item in value`: a list's elements, a dict's keys, a string's characters. */
  function Iterate(value: Json): (r: Result<seq<Json>, IngestError>)
    ensures r.Success? <==> value.JArray? || value.JObject? || value.JString?
    ensures r.Failure? ==> r.error == TypeError
    ensures value.JArray? ==> r == Success(value.items)
    ensures value.JObject? ==>
              (r.Success? && |r.value| == |value.fields| &&
               forall i | 0 <= i < |value.fields| :: r.value[i] == JString(value.fields[i].0))
    ensures value.JString? ==>
              (r.Success? && |r.value| == |value.s| &&
               forall i | 0 <= i < |value.s| :: r.value[i] == JString([value.s[i]]))
  {
    match value
    case JArray(items) => Success(items)
    case JObject(fields) => Success(seq(|fields|, i requires 0 <= i < |fields| => JString(fields[i].0)))
    case JString(s) => Success(seq(|s|, i requires 0 <= i < |s| => JString([s[i]])))
    case _ => Failure(TypeError)
  }

  /** `if ts: timestamps.append(ts)`; a Python boolean `true` is the integer 1. */
  function AppendTimestamp(timestamps: seq<int>, ts: Option<Json>): (r: Result<seq<int>, IngestError>)
    ensures r.Failure? <==> TruthyOpt(ts) && !ts.value.JInt? && !ts.value.JBool?
    ensures r.Failure? ==> r.error == UnsupportedTimestamp
    ensures r.Success? ==> timestamps <= r.value
    ensures r.Success? ==> |r.value| == |timestamps| + (if TruthyOpt(ts) then 1 else 0)
    ensures r.Success? && TruthyOpt(ts) ==>
              r.value == timestamps + [if ts.value.JInt? then ts.value.n else 1]
    ensures r.Success? && TruthyOpt(ts) ==> r.value[|timestamps|] != 0
  {
    if !TruthyOpt(ts) then Success(timestamps)
    else
      match ts.value
      case JInt(n) => Success(timestamps + [n])
      case JBool(_) => Success(timestamps + [1])
      case _ => Failure(UnsupportedTimestamp)
  }

  /** The body of the inner loop of `_parse_file`, on one item. */
  function ItemStep(acc: Parsed, item: Json): Result<Parsed, IngestError>
  {
    if !item.JObject? then Failure(AttributeError)
    else
      var username := Get(item.fields, "value");
      var href := Get(item.fields, "href");
      var ts := Get(item.fields, "timestamp");
      match AppendTimestamp(acc.timestamps, ts)
      case Failure(e) => Failure(e)
      case Success(timestamps) =>
        if !TruthyOpt(username) then Success(Parsed(acc.accounts, timestamps))
        else if !username.value.JString? then Failure(UnsupportedUsername)
        else Success(Parsed(Add(acc.accounts, ExportAccount(href, username.value.s)), timestamps))
  }

  /** The inner loop of `_parse_file`: every item in order, stopping at the first error. */
  function ItemsStep(acc: Parsed, items: seq<Json>): Result<Parsed, IngestError>
    decreases |items|
  {
    if items == [] then Success(acc)
    else
      match ItemStep(acc, items[0])
      case Failure(e) => Failure(e)
      case Success(next) => ItemsStep(next, items[1..])
  }

  /** The body of the outer loop of `_parse_file`, on one entry. */
  function EntryStep(acc: Parsed, entry: Json): Result<Parsed, IngestError>
  {
    match StringListData(entry)
    case Failure(e) => Failure(e)
    case Success(None) => Success(acc)
    case Success(Some(value)) =>
      match Iterate(value)
      case Failure(e) => Failure(e)
      case Success(items) => ItemsStep(acc, items)
  }

  /** The outer loop of `_parse_file`: every entry in order, stopping at the first error. */
  function EntriesStep(acc: Parsed, entries: seq<Json>): Result<Parsed, IngestError>
    decreases |entries|
  {
    if entries == [] then Success(acc)
    else
      match EntryStep(acc, entries[0])
      case Failure(e) => Failure(e)
      case Success(next) => EntriesStep(next, entries[1..])
  }

  /** What `_parse_file` returns for a decoded export file. */
  function ParsedExport(data: Json): Result<Parsed, IngestError>
  {
    match RawEntries(data)
    case Failure(e) => Failure(e)
    case Success(entries) => EntriesStep(NoneParsed, entries)
  }

  /**
   * `_parse_file` on an already decoded value: the outer loop over the entries; the
   * inner loop over each entry's items is `ParseItems`.
   */
  method ParseFile(data: Json) returns (r: Result<Parsed, IngestError>)
    ensures r == ParsedExport(data)
  {
    var loaded := LoadRawData(data);
    if loaded.Failure? {
      return Failure(loaded.error);
    }
    var entries := loaded.value;
    var acc := NoneParsed;
    var i := 0;
    while i < |entries|
      invariant 0 <= i <= |entries|
      invariant EntriesStep(acc, entries[i..]) == ParsedExport(data)
    {
      var entry := entries[i];
      assert entries[i..][0] == entry && entries[i..][1..] == entries[i + 1..];
      var listData := StringListData(entry);
      if listData.Failure? {
        return Failure(listData.error);
      }
      if listData.value.Some? {
        var iterated := Iterate(listData.value.value);
        if iterated.Failure? {
          return Failure(iterated.error);
        }
        var parsed := ParseItems(acc, iterated.value);
        if parsed.Failure? {
          return Failure(parsed.error);
        }
        acc := parsed.value;
      }
      i := i + 1;
    }
    return Success(acc);
  }

  /**
   * The inner loop of `_parse_file`: every item of one entry's list data, in order,
   * growing the timestamps and the accounts, stopping at the first error.
   */
  method ParseItems(acc: Parsed, items: seq<Json>) returns (r: Result<Parsed, IngestError>)
    ensures r == ItemsStep(acc, items)
  {
    var accounts := acc.accounts;
    var timestamps := acc.timestamps;
    var j := 0;
    while j < |items|
      invariant 0 <= j <= |items|
      invariant ItemsStep(Parsed(accounts, timestamps), items[j..]) == ItemsStep(acc, items)
    {
      var item := items[j];
      assert items[j..][0] == item && items[j..][1..] == items[j + 1..];
      if !item.JObject? {
        return Failure(AttributeError);
      }
      var username := Get(item.fields, "value");
      var href := Get(item.fields, "href");
      var ts := Get(item.fields, "timestamp");

      if TruthyOpt(ts) {
        if ts.value.JInt? {
          timestamps := timestamps + [ts.value.n];
        } else if ts.value.JBool? {
          timestamps := timestamps + [1];
        } else {
          return Failure(UnsupportedTimestamp);
        }
      }

      if TruthyOpt(username) {
        if !username.value.JString? {
          return Failure(UnsupportedUsername);
        }
        accounts := Add(accounts, ExportAccount(href, username.value.s));
      }
      j := j + 1;
    }
    assert items[j..] == [];
    return Success(Parsed(accounts, timestamps));
  }

  // ---------------------------------------------------------------------------
  // What a successful parse contains
  // ---------------------------------------------------------------------------

  /** The username an item contributes, as a set of at most one name. */
  function ItemUsernames(item: Json): set<string>
  {
    if item.JObject? then
      var username := Get(item.fields, "value");
      if TruthyOpt(username) && username.value.JString? then {username.value.s} else {}
    else {}
  }

  /** The timestamp an item contributes, as a list of at most one. */
  function ItemTimestamps(item: Json): seq<int>
  {
    if item.JObject? then
      var ts := Get(item.fields, "timestamp");
      if TruthyOpt(ts) && ts.value.JInt? then [ts.value.n]
      else if TruthyOpt(ts) && ts.value.JBool? then [1]
      else []
    else []
  }

  /** The usernames of a list of items. */
  function ItemsUsernames(items: seq<Json>): set<string>
  {
    if items == [] then {} else ItemUsernames(items[0]) + ItemsUsernames(items[1..])
  }

  /** The timestamps of a list of items, in order. */
  function ItemsTimestamps(items: seq<Json>): seq<int>
  {
    if items == [] then [] else ItemTimestamps(items[0]) + ItemsTimestamps(items[1..])
  }

  /** The items of an entry: those of its list data, none for an entry that is skipped. */
  function EntryItems(entry: Json): seq<Json>
  {
    match StringListData(entry)
    case Success(Some(value)) => (match Iterate(value) case Success(items) => items case Failure(_) => [])
    case _ => []
  }

  /** The usernames of every item of every entry. */
  function EntriesUsernames(entries: seq<Json>): set<string>
  {
    if entries == [] then {} else ItemsUsernames(EntryItems(entries[0])) + EntriesUsernames(entries[1..])
  }

  /** The timestamps of every item of every entry, in order. */
  function EntriesTimestamps(entries: seq<Json>): seq<int>
  {
    if entries == [] then [] else ItemsTimestamps(EntryItems(entries[0])) + EntriesTimestamps(entries[1..])
  }

  /** The export pks of a set of usernames. */
  function ExportPks(usernames: set<string>): set<Pk>
  {
    set u | u in usernames :: ExtractPkFromHref(None, u)
  }

  /** Every account is an export account: keyed by `"username:" + username`, named, no full name. */
  predicate ExportAccounts(m: AccountSet)
  {
    forall pk | pk in m ::
      && m[pk].pk == pk
      && pk == ExportPkPrefix + m[pk].username
      && m[pk].username != ""
      && m[pk].fullName == None
  }

  /**
   * `after` is `before` with the export accounts of `usernames` added (accounts already
   * held are kept as they are) and `timestamps` appended; export accounts stay export
   * accounts.
   */
  predicate Grows(before: Parsed, after: Parsed, usernames: set<string>, timestamps: seq<int>)
  {
    && after.accounts.Keys == before.accounts.Keys + ExportPks(usernames)
    && (forall pk | pk in before.accounts :: after.accounts[pk] == before.accounts[pk])
    && after.timestamps == before.timestamps + timestamps
    && (ExportAccounts(before.accounts) ==> ExportAccounts(after.accounts))
  }

  /** Growing twice is growing once by both name sets and both timestamp lists. */
  lemma GrowsTwice(a: Parsed, b: Parsed, c: Parsed, u1: set<string>, t1: seq<int>, u2: set<string>, t2: seq<int>)
    requires Grows(a, b, u1, t1) && Grows(b, c, u2, t2)
    ensures Grows(a, c, u1 + u2, t1 + t2)
  {
    assert ExportPks(u1 + u2) == ExportPks(u1) + ExportPks(u2);
    assert c.timestamps == a.timestamps + (t1 + t2);
  }

  /**
   * One successful item keeps the accounts already held, adds the export account of
   * its username (if it has one), appends its timestamp (if it has one) and keeps the
   * accounts export accounts.
   */
  lemma ItemStepAdds(acc: Parsed, item: Json)
    requires ItemStep(acc, item).Success?
    ensures Grows(acc, ItemStep(acc, item).value, ItemUsernames(item), ItemTimestamps(item))
  {
    var username := Get(item.fields, "value");
    if TruthyOpt(username) && username.value.JString? {
      assert ExportPks(ItemUsernames(item)) == {ExtractPkFromHref(None, username.value.s)};
    } else {
      assert ExportPks(ItemUsernames(item)) == {};
    }
  }

  /** A successful run of the inner loop is a successful first item and a successful rest. */
  lemma ItemsStepUnfolds(acc: Parsed, items: seq<Json>)
    requires items != [] && ItemsStep(acc, items).Success?
    ensures ItemStep(acc, items[0]).Success?
    ensures ItemsStep(acc, items) == ItemsStep(ItemStep(acc, items[0]).value, items[1..])
  {
  }

  /** A successful run of the inner loop, described without its accumulator. */
  lemma {:induction false} ItemsStepAdds(acc: Parsed, items: seq<Json>)
    requires ItemsStep(acc, items).Success?
    ensures Grows(acc, ItemsStep(acc, items).value, ItemsUsernames(items), ItemsTimestamps(items))
    decreases |items|
  {
    if items == [] {
      assert ExportPks({}) == {};
    } else {
      ItemsStepUnfolds(acc, items);
      var next := ItemStep(acc, items[0]).value;
      ItemStepAdds(acc, items[0]);
      ItemsStepAdds(next, items[1..]);
      GrowsTwice(acc, next, ItemsStep(acc, items).value,
                 ItemUsernames(items[0]), ItemTimestamps(items[0]),
                 ItemsUsernames(items[1..]), ItemsTimestamps(items[1..]));
    }
  }

  /** A successful entry runs the inner loop over its items (none for a skipped entry). */
  lemma EntryStepRunsItems(acc: Parsed, entry: Json)
    requires EntryStep(acc, entry).Success?
    ensures EntryStep(acc, entry) == ItemsStep(acc, EntryItems(entry))
  {
  }

  /** A successful run of the outer loop is a successful first entry and a successful rest. */
  lemma EntriesStepUnfolds(acc: Parsed, entries: seq<Json>)
    requires entries != [] && EntriesStep(acc, entries).Success?
    ensures EntryStep(acc, entries[0]).Success?
    ensures EntriesStep(acc, entries) == EntriesStep(EntryStep(acc, entries[0]).value, entries[1..])
  {
  }

  /** A successful run of the outer loop, described without its accumulator. */
  lemma {:induction false} EntriesStepAdds(acc: Parsed, entries: seq<Json>)
    requires EntriesStep(acc, entries).Success?
    ensures Grows(acc, EntriesStep(acc, entries).value, EntriesUsernames(entries), EntriesTimestamps(entries))
    decreases |entries|
  {
    if entries == [] {
      assert ExportPks({}) == {};
    } else {
      EntriesStepUnfolds(acc, entries);
      var entry := entries[0];
      var next := EntryStep(acc, entry).value;
      EntryStepRunsItems(acc, entry);
      ItemsStepAdds(acc, EntryItems(entry));
      EntriesStepAdds(next, entries[1..]);
      GrowsTwice(acc, next, EntriesStep(acc, entries).value,
                 ItemsUsernames(EntryItems(entry)), ItemsTimestamps(EntryItems(entry)),
                 EntriesUsernames(entries[1..]), EntriesTimestamps(entries[1..]));
    }
  }

  /**
   * A successfully parsed export file holds exactly one export account per username
   * found in an item's `value`, that account carries the username and no full name,
   * and the timestamps are those of the items, in order.
   */
  lemma ParsedExportContents(data: Json)
    requires ParsedExport(data).Success?
    ensures var entries := RawEntries(data).value;
            var r := ParsedExport(data).value;
      && KeyedByPk(r.accounts)
      && ExportAccounts(r.accounts)
      && r.accounts.Keys == ExportPks(EntriesUsernames(entries))
      && (forall u | u in EntriesUsernames(entries) ::
            var pk := ExtractPkFromHref(None, u); pk in r.accounts && r.accounts[pk] == AccountIdentity(pk, u, None))
      && r.timestamps == EntriesTimestamps(entries)
  {
    var entries := RawEntries(data).value;
    var r := ParsedExport(data).value;
    EntriesStepAdds(NoneParsed, entries);
    forall u | u in EntriesUsernames(entries)
      ensures var pk := ExtractPkFromHref(None, u); pk in r.accounts && r.accounts[pk] == AccountIdentity(pk, u, None)
    {
      var pk := ExtractPkFromHref(None, u);
      assert pk in ExportPks(EntriesUsernames(entries));
      ExportPkIdentifiesUsername(None, u, None, r.accounts[pk].username);
    }
  }

  /** An entry without `string_list_data` contributes no account and no timestamp. */
  lemma EntryWithoutListDataIsSkipped(acc: Parsed, fields: seq<(string, Json)>)
    requires forall i | 0 <= i < |fields| :: fields[i].0 != ListDataKey
    ensures EntryStep(acc, JObject(fields)) == Success(acc)
  {
  }

  /**
   * An item whose `value` is missing or empty adds no account, but its truthy
   * timestamp, an integer or `true`, is still recorded.
   */
  lemma ItemWithoutUsernameKeepsTimestamp(acc: Parsed, fields: seq<(string, Json)>)
    requires !TruthyOpt(Get(fields, "value"))
    requires var ts := Get(fields, "timestamp"); !TruthyOpt(ts) || ts.value.JInt? || ts.value.JBool?
    ensures ItemStep(acc, JObject(fields)) ==
            Success(Parsed(acc.accounts, acc.timestamps + ItemTimestamps(JObject(fields))))
    ensures TruthyOpt(Get(fields, "timestamp")) <==> |ItemTimestamps(JObject(fields))| == 1
  {
    var ts := Get(fields, "timestamp");
    assert AppendTimestamp(acc.timestamps, ts) == Success(acc.timestamps + ItemTimestamps(JObject(fields))) by {
      assert ItemTimestamps(JObject(fields)) ==
             if TruthyOpt(ts) && ts.value.JInt? then [ts.value.n]
             else if TruthyOpt(ts) && ts.value.JBool? then [1]
             else [];
      if TruthyOpt(ts) && ts.value.JInt? {
        assert AppendTimestamp(acc.timestamps, ts) == Success(acc.timestamps + [ts.value.n]);
      } else if TruthyOpt(ts) {
        assert AppendTimestamp(acc.timestamps, ts) == Success(acc.timestamps + [1]);
      } else {
        assert acc.timestamps + [] == acc.timestamps;
      }
    }
  }

  /** Two items with the same username collapse into one account. */
  lemma RepeatedUsernameCollapses(acc: Parsed, item1: Json, item2: Json, u: string)
    requires ItemStep(acc, item1).Success?
    requires ItemStep(ItemStep(acc, item1).value, item2).Success?
    requires ItemUsernames(item1) == {u} && ItemUsernames(item2) == {u}
    ensures ItemStep(ItemStep(acc, item1).value, item2).value.accounts == ItemStep(acc, item1).value.accounts
  {
  }

  // ---------------------------------------------------------------------------
  // collect
  // ---------------------------------------------------------------------------

  /** `max(timestamps)`: the largest timestamp. */
  function MaxTimestamp(timestamps: seq<int>): (m: int)
    requires timestamps != []
    ensures m in timestamps
    ensures forall t | t in timestamps :: t <= m
    decreases |timestamps|
  {
    if |timestamps| == 1 then timestamps[0]
    else
      var rest := MaxTimestamp(timestamps[1..]);
      assert timestamps == [timestamps[0]] + timestamps[1..];
      if timestamps[0] >= rest then timestamps[0] else rest
  }

  /**
   * The snapshot time: the latest timestamp of either file, or the followers file's
   * modification time when there is none.
   */
  function SnapshotTime(timestamps: seq<int>, mtime: int): (t: int)
    ensures timestamps != [] ==> t in timestamps && forall x | x in timestamps :: x <= t
    ensures timestamps == [] ==> t == mtime
  {
    if timestamps != [] then MaxTimestamp(timestamps) else mtime
  }

  /** The snapshot `collect` builds from the decoded followers and following files. */
  function ExportSnapshot(followersData: Json, followingData: Json, mtime: int): (r: Result<Snapshot, IngestError>)
    ensures r.Success? <==> ParsedExport(followersData).Success? && ParsedExport(followingData).Success?
    ensures ParsedExport(followersData).Failure? ==> r == Failure(ParsedExport(followersData).error)
    ensures ParsedExport(followersData).Success? && ParsedExport(followingData).Failure? ==>
              r == Failure(ParsedExport(followingData).error)
    ensures r.Success? ==>
              var all := ParsedExport(followersData).value.timestamps + ParsedExport(followingData).value.timestamps;
              && r.value.followers == ParsedExport(followersData).value.accounts
              && r.value.following == ParsedExport(followingData).value.accounts
              && r.value.snapshotId == None && r.value.source == "export"
              && (all != [] ==> r.value.timestamp in all && forall t | t in all :: t <= r.value.timestamp)
              && (all == [] ==> r.value.timestamp == mtime)
  {
    match ParsedExport(followersData)
    case Failure(e) => Failure(e)
    case Success(followers) =>
      match ParsedExport(followingData)
      case Failure(e) => Failure(e)
      case Success(following) =>
        Success(Snapshot(SnapshotTime(followers.timestamps + following.timestamps, mtime),
                         followers.accounts, following.accounts, None, "export"))
  }

  /** `collect`: parse both files and stamp the snapshot with the latest timestamp. */
  method Collect(followersData: Json, followingData: Json, mtime: int) returns (r: Result<Snapshot, IngestError>)
    ensures r == ExportSnapshot(followersData, followingData, mtime)
  {
    var followers := ParseFile(followersData);
    if followers.Failure? {
      return Failure(followers.error);
    }
    var following := ParseFile(followingData);
    if following.Failure? {
      return Failure(following.error);
    }
    var allTimestamps := followers.value.timestamps + following.value.timestamps;
    var timestamp := SnapshotTime(allTimestamps, mtime);
    return Success(Snapshot(timestamp, followers.value.accounts, following.value.accounts, None, "export"));
  }

  /**
   * A collected snapshot is well formed, comes from an export, holds only export
   * accounts, and is stamped with the latest timestamp of either file when there is one.
   */
  lemma ExportSnapshotIsValid(followersData: Json, followingData: Json, mtime: int)
    requires ExportSnapshot(followersData, followingData, mtime).Success?
    ensures var s := ExportSnapshot(followersData, followingData, mtime).value;
      var all := ParsedExport(followersData).value.timestamps + ParsedExport(followingData).value.timestamps;
      && s.Valid() && s.source == "export" && s.snapshotId == None
      && ExportAccounts(s.followers) && ExportAccounts(s.following)
      && (all != [] ==> s.timestamp in all && forall t | t in all :: t <= s.timestamp)
      && (all == [] ==> s.timestamp == mtime)
  {
    ParsedExportContents(followersData);
    ParsedExportContents(followingData);
  }

  /** Two empty files give a snapshot with no followers, no following, at the fallback time. */
  lemma EmptyExportHasNoAccounts(mtime: int)
    ensures ExportSnapshot(JArray([]), JArray([]), mtime).Success?
    ensures var s := ExportSnapshot(JArray([]), JArray([]), mtime).value;
      s.FollowerCount() == 0 && s.FollowingCount() == 0 && s.timestamp == mtime
  {
  }
}
