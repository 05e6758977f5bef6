/**
 * The sync-interval gate of utils/sync-gate.js: a persisted record
 * `{intervalHours, lastRunTime}` that decides whether a scheduled sync may run
 * now, with operations to read the settings, change the interval, test the
 * gate and record a completed run.
 *
 * The JSON file is an abstract store (`FileState`) on a disk that either
 * accepts writes or not. The module-level default record is mutable state:
 * when the file cannot be read, `readConfig` hands out that very object and
 * the callers' assignments land in it, so the model keeps it as a field.
 */
module SyncGate {
  import opened JsStrings
  import opened JsNumbers
  import opened JsValues

  const IntervalKey: string := "intervalHours"
  const LastRunKey: string := "lastRunTime"
  /** One hour in milliseconds, `1000 * 60 * 60`. */
  const HourMs: int := 3600000

  /** `DEFAULT_CONFIG` as the module creates it. */
  const DefaultConfig: map<string, Json> := map[IntervalKey := JNum(1), LastRunKey := JNum(0)]

  /** The config file: missing, present but unreadable or not JSON, or holding a JSON document. */
  datatype FileState = Absent | Unreadable | Holds(doc: Json)

  /** What `readConfig` produced: the file afterwards, the config, and whether the config is the default object itself. */
  datatype Read = Read(file: FileState, config: map<string, Json>, isDefaults: bool)

  /** The whole state the gate depends on. */
  datatype GateState = GateState(file: FileState, defaults: map<string, Json>, writable: bool)

  /** `{ intervalHours }`, all that `getSettings` exposes. */
  datatype Settings = Settings(intervalHours: Json)

  /**
   * `readConfig`: a missing file is first created holding the defaults (that
   * write is outside the `try`, so on a read-only disk it throws); a readable
   * document is overlaid on the defaults; an unreadable one gives the defaults.
   */
  function ReadConfig(s: GateState): (r: Outcome<Read>)
    ensures r.Threw? <==> s.file.Absent? && !s.writable
    ensures r.Returned? && s.file.Holds? ==> r.value == Read(s.file, s.defaults + Fields(s.file.doc), false)
    ensures r.Returned? && s.file.Unreadable? ==> r.value == Read(Unreadable, s.defaults, true)
    ensures r.Returned? && s.file.Absent? ==> r.value == Read(Holds(JObj(s.defaults)), s.defaults, false)
  {
    match s.file
    case Absent =>
      if s.writable then Returned(Read(Holds(JObj(s.defaults)), s.defaults + Fields(JObj(s.defaults)), false))
      else Threw
    case Unreadable => Returned(Read(Unreadable, s.defaults, true))
    case Holds(doc) => Returned(Read(s.file, s.defaults + Fields(doc), false))
  }

  /** `parseInt(hours) || 1`: the stored interval for a requested one. */
  function NormalizeHours(hours: Json): int {
    OrElse(ParseInt(ToJsString(hours), 0), 1)
  }

  /**
   * The gate's comparison, `(now - lastRunTime) / 3600000 >= intervalHours`,
   * with both fields converted by `Number`; a NaN on either side is false.
   */
  predicate Due(config: map<string, Json>, now: int) {
    var last := ToNumber(Lookup(config, LastRunKey));
    var hours := ToNumber(Lookup(config, IntervalKey));
    last.Some? && hours.Some? && (now - last.value) as real / HourMs as real >= hours.value as real
  }

  /** The state after `updateSettings(hours)`, and what it returns. */
  function UpdateSettingsStep(s: GateState, hours: Json): (r: Outcome<(GateState, bool)>)
    ensures r.Threw? <==> ReadConfig(s).Threw?
  {
    match ReadConfig(s)
    case Threw => Threw
    case Returned(read) =>
      var config := read.config[IntervalKey := JNum(NormalizeHours(hours))];
      var defaults := if read.isDefaults then config else s.defaults;
      var file := if s.writable then Holds(JObj(config)) else read.file;
      Returned((GateState(file, defaults, s.writable), s.writable))
  }

  /** The state after `markRunComplete()` at time `now`. */
  function MarkRunStep(s: GateState, now: int): (r: Outcome<GateState>)
    ensures r.Threw? <==> ReadConfig(s).Threw?
  {
    match ReadConfig(s)
    case Threw => Threw
    case Returned(read) =>
      var config := read.config[LastRunKey := JNum(now)];
      var defaults := if read.isDefaults then config else s.defaults;
      var file := if s.writable then Holds(JObj(config)) else read.file;
      Returned(GateState(file, defaults, s.writable))
  }

  /** The default object always carries both fields; the callers only ever reassign them. */
  ghost predicate DefaultsComplete(defaults: map<string, Json>) {
    IntervalKey in defaults && LastRunKey in defaults
  }

  /** The gate's persisted record and the module's default object. */
  class Gate {
    var file: FileState
    var defaults: map<string, Json>
    const writable: bool

    ghost function State(): GateState
      reads this
    {
      GateState(file, defaults, writable)
    }

    ghost predicate Valid()
      reads this
    {
      DefaultsComplete(defaults)
    }

    /** Loading the module: the default object is fresh, the file is whatever the disk holds. */
    constructor (file: FileState, writable: bool)
      ensures Valid()
      ensures this.file == file && this.writable == writable && defaults == DefaultConfig
    {
      this.file := file;
      this.writable := writable;
      defaults := DefaultConfig;
    }

    /** `readConfig()`, including the creation of a missing file. */
    method ReadConfigNow() returns (r: Outcome<map<string, Json>>)
      requires Valid()
      modifies this
      ensures Valid() && defaults == old(defaults)
      ensures r.Threw? <==> ReadConfig(old(State())).Threw?
      ensures r.Returned? ==> r.value == ReadConfig(old(State())).value.config
      ensures file == if r.Returned? then ReadConfig(old(State())).value.file else old(file)
    {
      match file
      case Absent =>
        if writable {
          file := Holds(JObj(defaults));
          r := Returned(defaults + Fields(JObj(defaults)));
        } else {
          r := Threw;
        }
      case Unreadable =>
        r := Returned(defaults);
      case Holds(doc) =>
        r := Returned(defaults + Fields(doc));
    }

    /** `getSettings()`. */
    method GetSettings() returns (r: Outcome<Settings>)
      requires Valid()
      modifies this
      ensures Valid() && defaults == old(defaults)
      ensures r.Threw? <==> ReadConfig(old(State())).Threw?
      ensures r.Returned? ==> var config := ReadConfig(old(State())).value.config;
        IntervalKey in config && r.value == Settings(config[IntervalKey])
      ensures r.Returned? ==> file == ReadConfig(old(State())).value.file
    {
      var read := ReadConfigNow();
      if read.Threw? {
        return Threw;
      }
      var config := read.value;
      r := Returned(Settings(config[IntervalKey]));
    }

    /** `updateSettings(hours)`: store `parseInt(hours) || 1` as the interval; returns whether the write succeeded. */
    method UpdateSettings(hours: Json) returns (r: Outcome<bool>)
      requires Valid()
      modifies this
      ensures Valid()
      ensures r.Threw? <==> ReadConfig(old(State())).Threw?
      ensures r.Threw? ==> file == old(file) && defaults == old(defaults)
      ensures r.Returned? ==> UpdateSettingsStep(old(State()), hours) == Returned((State(), r.value))
    {
      // on an unreadable file readConfig returns the default object itself
      var shared := file.Unreadable?;
      var read := ReadConfigNow();
      if read.Threw? {
        return Threw;
      }
      var config := read.value;
      config := config[IntervalKey := JNum(NormalizeHours(hours))];
      if shared {
        defaults := config;
      }
      if writable {
        file := Holds(JObj(config));
      }
      r := Returned(writable);
    }

    /** `shouldRun()` at time `now`. */
    method ShouldRun(now: int) returns (r: Outcome<bool>)
      requires Valid()
      modifies this
      ensures Valid() && defaults == old(defaults)
      ensures r.Threw? <==> ReadConfig(old(State())).Threw?
      ensures r.Returned? ==> r.value == Due(ReadConfig(old(State())).value.config, now)
      ensures r.Returned? ==> file == ReadConfig(old(State())).value.file
    {
      var read := ReadConfigNow();
      if read.Threw? {
        return Threw;
      }
      r := Returned(Due(read.value, now));
    }

    /** `markRunComplete()` at time `now`: record the run and persist it. */
    method MarkRunComplete(now: int) returns (r: Outcome<()>)
      requires Valid()
      modifies this
      ensures Valid()
      ensures r.Threw? <==> ReadConfig(old(State())).Threw?
      ensures r.Threw? ==> file == old(file) && defaults == old(defaults)
      ensures r.Returned? ==> MarkRunStep(old(State()), now) == Returned(State())
    {
      var shared := file.Unreadable?;
      var read := ReadConfigNow();
      if read.Threw? {
        return Threw;
      }
      var config := read.value[LastRunKey := JNum(now)];
      if shared {
        defaults := config;
      }
      if writable {
        file := Holds(JObj(config));
      }
      r := Returned(());
    }
  }

  // ---------------------------------------------------------------------------
  // Properties of the gate

  /** A fresh config holds an interval of one hour and no run yet. */
  lemma FreshConfig()
    ensures ReadConfig(GateState(Absent, DefaultConfig, true))
      == Returned(Read(Holds(JObj(DefaultConfig)), DefaultConfig, false))
    ensures DefaultConfig[IntervalKey] == JNum(1) && DefaultConfig[LastRunKey] == JNum(0)
  {
    assert DefaultConfig + Fields(JObj(DefaultConfig)) == DefaultConfig;
  }

  /**
   * `readConfig` overlays what is stored on the defaults, so every field the
   * document lacks takes its default; an unreadable file gives the defaults.
   */
  lemma ReadConfigOverlays(s: GateState, doc: map<string, Json>)
    requires s.file == Holds(JObj(doc))
    ensures var config := ReadConfig(s).value.config;
      && (forall k :: k in doc ==> k in config && config[k] == doc[k])
      && (forall k :: k !in doc && k in s.defaults ==> k in config && config[k] == s.defaults[k])
      && (forall k :: k in config ==> k in doc || k in s.defaults)
  {
  }

  /**
   * A file holding a JSON string is spread character by character: the config
   * gains the keys `"0"`, `"1"`, ... holding the characters, and the interval
   * and last run time, whose keys are not numerals, stay the defaults.
   */
  lemma ReadStringDocument(s: GateState, text: string)
    requires s.file == Holds(JStr(text))
    ensures var config := ReadConfig(s).value.config;
      && (forall i: nat :: i < |text| ==> NatToDecimal(i) in config && config[NatToDecimal(i)] == JStr([text[i]]))
      && Lookup(config, IntervalKey) == Lookup(s.defaults, IntervalKey)
      && Lookup(config, LastRunKey) == Lookup(s.defaults, LastRunKey)
  {
    SpreadStringIndices(text);
    var f := Fields(JStr(text));
    forall k | k in f
      ensures k != IntervalKey && k != LastRunKey
    {
      var i: nat :| i < |text| && k == NatToDecimal(i);
      assert IsDigitIn(k[0], 10);
    }
  }

  /** On a read or parse failure the config is the default object, unchanged. */
  lemma ReadFailureGivesDefaults(s: GateState)
    requires s.file.Unreadable?
    ensures ReadConfig(s) == Returned(Read(Unreadable, s.defaults, true))
  {
  }

  /** The interval `updateSettings` stores for a number: the number itself, or 1 for 0; negatives are kept. */
  lemma NormalizeNumber(n: int)
    ensures NormalizeHours(JNum(n)) == if n == 0 then 1 else n
  {
    ParseIntOfDecimal(n, 0);
  }

  /** The interval `updateSettings` stores is never 0. */
  lemma NormalizeNeverZero(hours: Json)
    ensures NormalizeHours(hours) != 0
  {
  }

  /**
   * `updateSettings` stores the normalised interval and keeps the last run
   * time, the config read back afterwards shows it when the write succeeded,
   * and the call reports whether it did.
   */
  lemma UpdateSettingsEffect(s: GateState, hours: Json)
    requires DefaultsComplete(s.defaults)
    requires ReadConfig(s).Returned?
    ensures var (t, ok) := UpdateSettingsStep(s, hours).value;
      var before := ReadConfig(s).value.config;
      && ok == s.writable
      && DefaultsComplete(t.defaults)
      && (s.writable ==> ReadConfig(t) == Returned(Read(t.file, before[IntervalKey := JNum(NormalizeHours(hours))], false)))
      && (!s.writable && s.file.Holds? ==> t == s)
  {
    var (t, ok) := UpdateSettingsStep(s, hours).value;
    var before := ReadConfig(s).value.config;
    var config := before[IntervalKey := JNum(NormalizeHours(hours))];
    if s.writable {
      assert t.file == Holds(JObj(config));
      OverlayAbsorbs(t.defaults, config);
    }
  }

  /** Overlaying a record that already has every default key on the defaults gives that record. */
  lemma OverlayAbsorbs(defaults: map<string, Json>, config: map<string, Json>)
    requires defaults.Keys <= config.Keys
    ensures defaults + Fields(JObj(config)) == config
  {
  }

  /** Calling `updateSettings(h)` twice leaves the same state, and the same answer, as calling it once. */
  lemma UpdateSettingsIdempotent(s: GateState, hours: Json)
    requires DefaultsComplete(s.defaults)
    requires ReadConfig(s).Returned?
    ensures var once := UpdateSettingsStep(s, hours).value;
      UpdateSettingsStep(once.0, hours) == Returned(once)
  {
    var read := ReadConfig(s).value;
    var v := JNum(NormalizeHours(hours));
    var config := read.config[IntervalKey := v];
    var t := UpdateSettingsStep(s, hours).value.0;
    assert config[IntervalKey := v] == config;
    if s.writable {
      WrittenUpdateStable(s, hours);
    } else if s.file.Unreadable? {
      assert t == GateState(Unreadable, config, false);
      assert ReadConfig(t) == Returned(Read(Unreadable, config, true));
    } else {
      assert t == s && !read.isDefaults;
    }
  }

  /** After a written update the file holds a record with every default key, and updating again reads it back unchanged. */
  lemma WrittenUpdateStable(s: GateState, hours: Json)
    requires DefaultsComplete(s.defaults)
    requires ReadConfig(s).Returned? && s.writable
    ensures var once := UpdateSettingsStep(s, hours).value;
      UpdateSettingsStep(once.0, hours) == Returned(once)
  {
    var read := ReadConfig(s).value;
    var v := JNum(NormalizeHours(hours));
    var config := read.config[IntervalKey := v];
    var t := UpdateSettingsStep(s, hours).value.0;
    assert config[IntervalKey := v] == config;
    assert t == GateState(Holds(JObj(config)), t.defaults, true);
    assert t.defaults.Keys <= config.Keys;
    OverlayAbsorbs(t.defaults, config);
    assert ReadConfig(t) == Returned(Read(t.file, config, false));
  }

  /** The gate's real-valued comparison is the integer test `now - last >= hours * 3600000`. */
  lemma DueIffElapsed(config: map<string, Json>, now: int, last: int, hours: int)
    requires Lookup(config, LastRunKey) == Some(JNum(last))
    requires Lookup(config, IntervalKey) == Some(JNum(hours))
    ensures Due(config, now) <==> now - last >= hours * HourMs
  {
    var d := (now - last) as real;
    assert d / HourMs as real >= hours as real <==> d >= hours as real * HourMs as real;
  }

  /**
   * Right after `markRunComplete()` at `now`, with an interval of at least one
   * hour, the gate is closed at that same `now`, provided the run was recorded
   * (the write succeeded, or the file is unreadable and the default object
   * took the assignment).
   */
  lemma MarkRunCloses(s: GateState, now: int, hours: int)
    requires DefaultsComplete(s.defaults)
    requires ReadConfig(s).Returned?
    requires Lookup(ReadConfig(s).value.config, IntervalKey) == Some(JNum(hours)) && hours >= 1
    requires s.writable || s.file.Unreadable?
    ensures var t := MarkRunStep(s, now).value;
      ReadConfig(t).Returned? && !Due(ReadConfig(t).value.config, now)
  {
    var read := ReadConfig(s).value;
    var config := read.config[LastRunKey := JNum(now)];
    var t := MarkRunStep(s, now).value;
    if s.writable {
      OverlayAbsorbs(t.defaults, config);
    }
    assert ReadConfig(t).value.config == config;
    DueIffElapsed(config, now, now, hours);
  }

  /** `markRunComplete` touches only the last run time: the interval read back is the one before. */
  lemma MarkRunKeepsInterval(s: GateState, now: int)
    requires DefaultsComplete(s.defaults)
    requires ReadConfig(s).Returned?
    requires s.writable || s.file.Unreadable?
    ensures var t := MarkRunStep(s, now).value;
      ReadConfig(t).Returned?
      && ReadConfig(t).value.config == ReadConfig(s).value.config[LastRunKey := JNum(now)]
  {
    var config := ReadConfig(s).value.config[LastRunKey := JNum(now)];
    var t := MarkRunStep(s, now).value;
    if s.writable {
      OverlayAbsorbs(t.defaults, config);
    }
  }

  /** Lowering the interval while already past the old threshold keeps the gate open without another run. */
  lemma LoweringIntervalKeepsDue(config: map<string, Json>, now: int, last: int, hours: int, lower: int)
    requires Lookup(config, LastRunKey) == Some(JNum(last))
    requires Lookup(config, IntervalKey) == Some(JNum(hours))
    requires lower <= hours && Due(config, now)
    ensures Due(config[IntervalKey := JNum(lower)], now)
  {
    DueIffElapsed(config, now, last, hours);
    DueIffElapsed(config[IntervalKey := JNum(lower)], now, last, lower);
  }

  /**
   * On an unreadable file and a read-only disk, `updateSettings` reports the
   * failed write, yet the default object has taken the new interval, so the
   * next `getSettings` shows it.
   */
  lemma FailedUpdateStillApplies(s: GateState, hours: Json)
    requires s.file.Unreadable? && !s.writable
    ensures var (t, ok) := UpdateSettingsStep(s, hours).value;
      && !ok
      && ReadConfig(t).value.config[IntervalKey] == JNum(NormalizeHours(hours))
  {
  }
}
