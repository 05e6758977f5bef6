/**
 * The sync-frequency record of backend/utils/sync_manager.js: a persisted
 * document `{interval_hours, last_sync_time}` with operations to read it
 * (creating it when missing), merge a patch into it, test whether a sync is
 * due and record a completed sync.
 *
 * The file is the same abstract store as the gate's (`SyncGate.FileState`).
 * Unlike the gate, `getConfig` returns the parsed document itself, whatever
 * JSON value it is, and the callers never assign into the default object.
 */
module SyncManager {
  import opened JsStrings
  import opened JsValues
  import opened SyncGate

  const IntervalField: string := "interval_hours"
  const LastSyncField: string := "last_sync_time"

  /** `DEFAULT_CONFIG`: once a day, never synced. */
  const DefaultRecord: map<string, Json> := map[IntervalField := JNum(24), LastSyncField := JNum(0)]

  /** The config file and whether its directory accepts writes. */
  datatype Store = Store(file: FileState, writable: bool)

  /**
   * `getConfig`: a missing file is created holding the defaults (when that
   * write fails the error is caught); the document read is returned as
   * parsed; any read or parse failure gives the defaults. It never throws.
   */
  function GetConfig(s: Store): (FileState, Json) {
    match s.file
    case Absent =>
      if s.writable then (Holds(JObj(DefaultRecord)), JObj(DefaultRecord)) else (Absent, JObj(DefaultRecord))
    case Unreadable => (Unreadable, JObj(DefaultRecord))
    case Holds(doc) => (s.file, doc)
  }

  /**
   * `updateConfig(patch)`: `{...current, ...patch}` is written and returned;
   * the write is not guarded, so on a read-only disk the call throws.
   */
  function UpdateConfigStep(s: Store, patch: map<string, Json>): Outcome<(Store, map<string, Json>)> {
    var updated := Fields(GetConfig(s).1) + patch;
    if s.writable then Returned((Store(Holds(JObj(updated)), true), updated)) else Threw
  }

  /**
   * The comparison of `shouldExecuteSync`: the last sync time, or 0 when it is
   * falsy, against `interval_hours * 3600000`, both converted by `Number`;
   * NaN on either side is false.
   */
  predicate SyncDue(config: Json, now: int)
    requires config != JNull
  {
    var stored := Get(config, LastSyncField);
    var last := if Truthy(stored) then ToNumber(stored) else Some(0);
    var hours := ToNumber(Get(config, IntervalField));
    last.Some? && hours.Some? && now - last.value >= hours.value * HourMs
  }

  /** `shouldExecuteSync()` at `now` on the config `getConfig` gives: reading a field of `null` throws. */
  function ShouldExecute(config: Json, now: int): (r: Outcome<bool>)
    ensures r.Threw? <==> config == JNull
  {
    if config == JNull then Threw else Returned(SyncDue(config, now))
  }

  /** The patch `markSyncComplete()` applies at `now`. */
  function MarkPatch(now: int): map<string, Json> {
    map[LastSyncField := JNum(now)]
  }

  /** The persisted sync record. */
  class Manager {
    var file: FileState
    const writable: bool

    ghost function State(): Store
      reads this
    {
      Store(file, writable)
    }

    constructor (file: FileState, writable: bool)
      ensures this.file == file && this.writable == writable
    {
      this.file := file;
      this.writable := writable;
    }

    /** `getConfig()`. */
    method GetConfigNow() returns (config: Json)
      modifies this
      ensures (file, config) == GetConfig(old(State()))
    {
      match file
      case Absent =>
        if writable {
          file := Holds(JObj(DefaultRecord));
        }
        config := JObj(DefaultRecord);
      case Unreadable =>
        config := JObj(DefaultRecord);
      case Holds(doc) =>
        config := doc;
    }

    /** `updateConfig(patch)`. */
    method UpdateConfig(patch: map<string, Json>) returns (r: Outcome<map<string, Json>>)
      modifies this
      ensures r.Threw? <==> !writable
      ensures r.Threw? ==> file == old(file)
      ensures r.Returned? ==> UpdateConfigStep(old(State()), patch) == Returned((State(), r.value))
    {
      var current := GetConfigNow();
      var updated := Fields(current) + patch;
      if !writable {
        return Threw;
      }
      file := Holds(JObj(updated));
      r := Returned(updated);
    }

    /** `shouldExecuteSync()` at time `now`. */
    method ShouldExecuteSync(now: int) returns (r: Outcome<bool>)
      modifies this
      ensures (file, r) == (GetConfig(old(State())).0, ShouldExecute(GetConfig(old(State())).1, now))
    {
      var config := GetConfigNow();
      if config == JNull {
        return Threw;
      }
      var stored := Get(config, LastSyncField);
      var last := if Truthy(stored) then ToNumber(stored) else Some(0);
      var hours := ToNumber(Get(config, IntervalField));
      r := Returned(last.Some? && hours.Some? && now - last.value >= hours.value * HourMs);
    }

    /** `markSyncComplete()` at time `now`. */
    method MarkSyncComplete(now: int) returns (r: Outcome<()>)
      modifies this
      ensures r.Threw? <==> !writable
      ensures r.Threw? ==> file == old(file)
      ensures r.Returned? ==> UpdateConfigStep(old(State()), MarkPatch(now)).Returned?
      ensures r.Returned? ==> State() == UpdateConfigStep(old(State()), MarkPatch(now)).value.0
    {
      var updated := UpdateConfig(MarkPatch(now));
      if updated.Threw? {
        return Threw;
      }
      r := Returned(());
    }
  }

  // ---------------------------------------------------------------------------
  // Properties of the sync record

  /** A fresh config syncs every 24 hours and has never synced, and it is written to a writable disk. */
  lemma FreshRecord(writable: bool)
    ensures GetConfig(Store(Absent, writable)).1 == JObj(DefaultRecord)
    ensures writable ==> GetConfig(Store(Absent, writable)).0 == Holds(JObj(DefaultRecord))
    ensures DefaultRecord[IntervalField] == JNum(24) && DefaultRecord[LastSyncField] == JNum(0)
  {
  }

  /** On any read or parse failure `getConfig` gives the defaults, and a readable document is returned as it is. */
  lemma GetConfigFallback(s: Store)
    ensures !s.file.Holds? ==> GetConfig(s).1 == JObj(DefaultRecord)
    ensures s.file.Holds? ==> GetConfig(s) == (s.file, s.file.doc)
    ensures !s.writable ==> GetConfig(s).0 == s.file
  {
  }

  /**
   * `updateConfig` is a shallow merge: the patch's keys take the patch's
   * values, every other key of the current record is kept, no key is added
   * besides, and the merged record is both returned and what the file reads
   * back afterwards.
   */
  lemma UpdateIsShallowMerge(s: Store, patch: map<string, Json>)
    requires s.writable
    ensures var current := Fields(GetConfig(s).1);
      var (t, updated) := UpdateConfigStep(s, patch).value;
      && updated.Keys == current.Keys + patch.Keys
      && (forall k :: k in patch ==> updated[k] == patch[k])
      && (forall k :: k in current && k !in patch ==> updated[k] == current[k])
      && GetConfig(t) == (t.file, JObj(updated))
  {
  }

  /** Applying the same patch twice gives the same record, and the same file, as applying it once. */
  lemma UpdateIdempotent(s: Store, patch: map<string, Json>)
    requires s.writable
    ensures var once := UpdateConfigStep(s, patch).value;
      UpdateConfigStep(once.0, patch) == Returned(once)
  {
    var updated := Fields(GetConfig(s).1) + patch;
    assert updated + patch == updated;
  }

  /**
   * `shouldExecuteSync` is the integer comparison `now - last >= hours * 3600000`
   * where a missing, zero or otherwise falsy last sync time counts as 0.
   */
  lemma ShouldExecuteIff(config: map<string, Json>, now: int, last: int, hours: int)
    requires Lookup(config, IntervalField) == Some(JNum(hours))
    requires LastSyncField !in config || config[LastSyncField] == JNum(last)
    ensures var base := if LastSyncField in config then last else 0;
      ShouldExecute(JObj(config), now) == Returned(now - base >= hours * HourMs)
  {
  }

  /** `markSyncComplete` sets the last sync time to `now` and changes no other key of the record. */
  lemma MarkChangesOnlyLastSync(s: Store, now: int)
    requires s.writable
    ensures var current := Fields(GetConfig(s).1);
      var (t, updated) := UpdateConfigStep(s, MarkPatch(now)).value;
      && updated == current[LastSyncField := JNum(now)]
      && GetConfig(t).1 == JObj(updated)
  {
    var current := Fields(GetConfig(s).1);
    assert current + MarkPatch(now) == current[LastSyncField := JNum(now)];
  }

  /** Right after `markSyncComplete` at `now`, with an interval of at least one hour, no sync is due at `now`. */
  lemma MarkThenNotDue(s: Store, now: int, hours: int)
    requires s.writable
    requires Lookup(Fields(GetConfig(s).1), IntervalField) == Some(JNum(hours)) && hours >= 1
    ensures var t := UpdateConfigStep(s, MarkPatch(now)).value.0;
      ShouldExecute(GetConfig(t).1, now) == Returned(false)
  {
    MarkChangesOnlyLastSync(s, now);
    var updated := Fields(GetConfig(s).1)[LastSyncField := JNum(now)];
    ShouldExecuteIff(updated, now, now, hours);
  }
}
