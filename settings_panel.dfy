/**
 * The per-user settings panel of frontend/dashboard/components/SettingsPanel.jsx:
 * its default settings record, the dotted-path field update `updateField`,
 * and the outcome of regenerating the access path.
 *
 * `updateField` copies the record, walks all keys of the path but the last
 * through nested objects and assigns the value at the last key. Reading a
 * property of `undefined` and assigning a property on a non-object (module
 * code is strict) both throw; the model reports that as None.
 */
module SettingsPanel {
  import opened JsStrings
  import opened JsValues

  /** The record the panel starts with before the server's settings load. */
  const DefaultSettings: Json := JObj(map[
    "surgeVersion" := JStr("5.0.0"),
    "surgeBuild" := JStr("2000"),
    "cronEnabled" := JBool(true),
    "notification" := JObj(map[
      "type" := JStr("none"),
      "bark" := JObj(map["serverUrl" := JStr("https://api.day.app"), "deviceKey" := JStr(""), "group" := JStr("SubStore")]),
      "pushover" := JObj(map["userKey" := JStr(""), "appToken" := JStr("")])])])

  /** Reading `doc[k0][k1]...`: None as soon as a step leaves the objects or misses its key. */
  function Walk(doc: Json, keys: seq<string>): Option<Json>
    decreases |keys|
  {
    if keys == [] then Some(doc)
    else if doc.JObj? && keys[0] in doc.fields then Walk(doc.fields[keys[0]], keys[1..])
    else None
  }

  /** Assigning `value` at the end of a non-empty key path, or None where the walk or the assignment throws. */
  function SetPath(doc: Json, keys: seq<string>, value: Json): Option<Json>
    requires |keys| >= 1
    decreases |keys|
  {
    if !doc.JObj? then None
    else if |keys| == 1 then Some(JObj(doc.fields[keys[0] := value]))
    else if keys[0] !in doc.fields then None
    else
      match SetPath(doc.fields[keys[0]], keys[1..], value)
      case None => None
      case Some(sub) => Some(JObj(doc.fields[keys[0] := sub]))
  }

  /** Putting updated objects back into the objects the walk passed through, innermost first. */
  function Plug(stack: seq<map<string, Json>>, keys: seq<string>, inner: Option<Json>): Option<Json>
    requires |stack| == |keys|
    decreases |stack|
  {
    if stack == [] then inner
    else
      var n := |stack| - 1;
      Plug(stack[..n], keys[..n], match inner case None => None case Some(x) => Some(JObj(stack[n][keys[n] := x])))
  }

  lemma {:induction false} PlugNone(stack: seq<map<string, Json>>, keys: seq<string>)
    requires |stack| == |keys|
    ensures Plug(stack, keys, None) == None
    decreases |stack|
  {
    if stack != [] {
      PlugNone(stack[..|stack| - 1], keys[..|stack| - 1]);
    }
  }

  /** One step of the walk: descending into `obj` moves it from the path still to assign onto the stack. */
  lemma PlugDescend(stack: seq<map<string, Json>>, keys: seq<string>, obj: Json, tail: seq<string>, value: Json)
    requires |stack| == |keys| && obj.JObj? && |tail| >= 2 && tail[0] in obj.fields
    ensures Plug(stack, keys, SetPath(obj, tail, value))
         == Plug(stack + [obj.fields], keys + [tail[0]], SetPath(obj.fields[tail[0]], tail[1..], value))
  {
    assert (stack + [obj.fields])[..|stack|] == stack && (keys + [tail[0]])[..|stack|] == keys;
  }

  /** `updateField(path, value)` applied to the record `prev`. */
  method UpdateField(prev: Json, path: string, value: Json) returns (r: Option<Json>)
    ensures r == SetPath(prev, Split(path, '.'), value)
  {
    var keys := Split(path, '.');
    var stack: seq<map<string, Json>> := [];
    var obj := prev;
    var i := 0;
    while i < |keys| - 1
      invariant 0 <= i <= |keys| - 1 && |stack| == i
      invariant SetPath(prev, keys, value) == Plug(stack, keys[..i], SetPath(obj, keys[i..], value))
    {
      if !obj.JObj? || keys[i] !in obj.fields {
        assert SetPath(obj, keys[i..], value) == None;
        PlugNone(stack, keys[..i]);
        return None;
      }
      PlugDescend(stack, keys[..i], obj, keys[i..], value);
      assert keys[i..][1..] == keys[i + 1..] && keys[..i] + [keys[i]] == keys[..i + 1];
      stack := stack + [obj.fields];
      obj := obj.fields[keys[i]];
      i := i + 1;
    }
    if !obj.JObj? {
      PlugNone(stack, keys[..i]);
      return None;
    }
    assert keys[i..] == [keys[|keys| - 1]];
    var result := JObj(obj.fields[keys[|keys| - 1] := value]);
    assert SetPath(obj, keys[i..], value) == Some(result);
    assert stack[..|stack|] == stack;
    var j := |stack|;
    while j > 0
      invariant 0 <= j <= |stack|
      invariant SetPath(prev, keys, value) == Plug(stack[..j], keys[..j], Some(result))
    {
      assert stack[..j][..j - 1] == stack[..j - 1] && keys[..j][..j - 1] == keys[..j - 1];
      j := j - 1;
      result := JObj(stack[j][keys[j] := result]);
    }
    r := Some(result);
  }

  /** After a successful update, reading the path gives the value that was assigned. */
  lemma {:induction false} SetThenGet(doc: Json, keys: seq<string>, value: Json)
    requires |keys| >= 1 && SetPath(doc, keys, value).Some?
    ensures Walk(SetPath(doc, keys, value).value, keys) == Some(value)
    decreases |keys|
  {
    if |keys| > 1 {
      SetThenGet(doc.fields[keys[0]], keys[1..], value);
    }
  }

  /**
   * The update throws exactly when the keys before the last do not lead
   * through existing fields to an object.
   */
  lemma {:induction false} SetPathDefinedIff(doc: Json, keys: seq<string>, value: Json)
    requires |keys| >= 1
    ensures SetPath(doc, keys, value).Some? <==>
      var parent := Walk(doc, keys[..|keys| - 1]);
      parent.Some? && parent.value.JObj?
    decreases |keys|
  {
    if |keys| > 1 && doc.JObj? && keys[0] in doc.fields {
      assert keys[..|keys| - 1][1..] == keys[1..][..|keys[1..]| - 1];
      SetPathDefinedIff(doc.fields[keys[0]], keys[1..], value);
    }
  }

  /** Whether two key paths part ways: at some position both have a key, and the keys differ. */
  predicate Diverge(a: seq<string>, b: seq<string>) {
    exists j :: 0 <= j < |a| && j < |b| && a[j] != b[j]
  }

  /** Every path that parts ways with the updated one reads what it read before: no other leaf changes. */
  lemma {:induction false} SetKeepsOthers(doc: Json, keys: seq<string>, value: Json, other: seq<string>)
    requires |keys| >= 1 && SetPath(doc, keys, value).Some?
    requires Diverge(keys, other)
    ensures Walk(SetPath(doc, keys, value).value, other) == Walk(doc, other)
    decreases |keys|
  {
    var d := SetPath(doc, keys, value).value;
    if other[0] != keys[0] {
      assert d.fields.Keys == doc.fields.Keys + {keys[0]};
    } else {
      var j :| 0 <= j < |keys| && j < |other| && keys[j] != other[j];
      assert keys[1..][j - 1] != other[1..][j - 1];
      SetKeepsOthers(doc.fields[keys[0]], keys[1..], value, other[1..]);
    }
  }

  /** A one-segment path sets a top-level field of an object; no walk step is taken. */
  lemma OneSegmentSetsTopLevel(fields: map<string, Json>, key: string, value: Json)
    requires '.' !in key
    ensures Split(key, '.') == [key]
    ensures SetPath(JObj(fields), Split(key, '.'), value) == Some(JObj(fields[key := value]))
  {
    SplitPiecesLackSeparator(key, '.');
    SplitLength(key, '.');
    JoinSplit(key, '.');
    CountAbsent(key, '.');
  }

  lemma {:induction false} CountAbsent(s: string, c: char)
    requires c !in s
    ensures Count(s, c) == 0
  {
    if s != [] {
      assert c !in s[1..];
      CountAbsent(s[1..], c);
    }
  }

  /** The default record: sync on, no notification channel, the public Bark server and group `SubStore`. */
  lemma DefaultSettingsValues()
    ensures Walk(DefaultSettings, ["cronEnabled"]) == Some(JBool(true))
    ensures Walk(DefaultSettings, ["notification", "type"]) == Some(JStr("none"))
    ensures Walk(DefaultSettings, ["notification", "bark", "serverUrl"]) == Some(JStr("https://api.day.app"))
    ensures Walk(DefaultSettings, ["notification", "bark", "group"]) == Some(JStr("SubStore"))
  {
    var n := DefaultSettings.fields["notification"];
    assert Walk(DefaultSettings, ["notification", "type"]) == Walk(n, ["type"]);
    assert Walk(DefaultSettings, ["notification", "bark", "serverUrl"]) == Walk(n, ["bark", "serverUrl"]);
    assert Walk(DefaultSettings, ["notification", "bark", "group"]) == Walk(n, ["bark", "group"]);
  }

  // ---------------------------------------------------------------------------
  // Regenerating the access path

  /** What the regenerate request gave: a failure (network or body), or its `ok` flag and parsed body. */
  datatype RegenerateAnswer = RegenerateFailed | RegenerateReply(ok: bool, body: Json)

  /** What `handleRegeneratePath` does: whether it asked, what it passed to `onPathChange`, its message and its error toast. */
  datatype RegenerateEffect = RegenerateEffect(requested: bool, pathChange: Option<Json>, message: Option<string>, errorToast: bool)

  /**
   * `handleRegeneratePath` after the user answered the confirmation and the
   * request answered. `res.ok && data.path` reads `path` only on an ok reply,
   * so only an ok reply whose body is `null` throws there.
   */
  function Regenerate(confirmed: bool, answer: RegenerateAnswer): RegenerateEffect {
    if !confirmed then RegenerateEffect(false, None, None, false)
    else
      match answer
      case RegenerateFailed => RegenerateEffect(true, None, None, true)
      case RegenerateReply(ok, body) =>
        if !ok then RegenerateEffect(true, None, None, false)
        else if body == JNull then RegenerateEffect(true, None, None, true)
        else if Truthy(Get(body, "path")) then RegenerateEffect(true, Get(body, "path"), Some("✓ 路径已重新生成"), false)
        else RegenerateEffect(true, None, None, false)
  }

  /**
   * `onPathChange` is called exactly when the user confirmed, the response is
   * ok and its `path` is truthy, and then with that path; a declined
   * confirmation sends nothing; the error toast shows exactly when the request
   * or its body failed or an ok reply's body is `null`; a response that is not
   * ok is dropped silently, whatever its body.
   */
  lemma RegenerateOnPathChangeIff(confirmed: bool, answer: RegenerateAnswer)
    ensures var e := Regenerate(confirmed, answer);
      && (e.pathChange.Some? <==> confirmed && answer.RegenerateReply? && answer.ok && answer.body != JNull
                                  && Truthy(Get(answer.body, "path")))
      && (e.pathChange.Some? ==> e.pathChange == Get(answer.body, "path"))
      && (e.requested <==> confirmed)
      && (e.errorToast <==> confirmed && (answer.RegenerateFailed? || (answer.ok && answer.body == JNull)))
      && (e.message.Some? <==> e.pathChange.Some?)
      && (confirmed && answer.RegenerateReply? && !answer.ok ==> e == RegenerateEffect(true, None, None, false))
  {
  }
}
