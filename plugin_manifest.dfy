/**
 * bin/config/plugin.ts: the plugin's manifest.json split into the metadata
 * written into the plugin header and the build configuration.
 */
module PluginManifest {
  import opened Wrappers
  import opened JsValues
  import opened Reports

  const MetaKeys: seq<string> := [
    "name", "author", "description", "version", "invite", "authorId",
    "authorLink", "donate", "patreon", "website", "source"
  ]

  const RequiredMetaKeys: seq<string> := ["name", "author", "description", "version"]

  const PluginConfigKeys: seq<string> := ["entry", "installScript"]

  /** The initial contents of the module-level `defaultPluginConfig` object. */
  const DefaultPluginConfig: Record<JsValue> := [("entry", Str("index")), ("installScript", Bool(true))]

  const NoManifestMessage := "No manifest.json found. A plugin configuration is required."

  function MissingKeyMessage(key: string): string {
    "Missing required configuration option '" + key + "' in manifest.json."
  }

  /** The first `n` manifest entries whose key is in `allow`, assigned in order onto `target`. */
  function Route(target: Record<JsValue>, entries: Record<JsValue>, n: nat, allow: seq<string>): Record<JsValue>
    requires n <= |entries|
  {
    if n == 0 then target
    else
      var prev := Route(target, entries, n - 1, allow);
      if entries[n - 1].0 in allow then Put(prev, entries[n - 1].0, entries[n - 1].1) else prev
  }

  /** The value of the last of the first `n` entries with key `k`. */
  function LastValue(entries: Record<JsValue>, n: nat, k: string): Option<JsValue>
    requires n <= |entries|
  {
    if n == 0 then None
    else if entries[n - 1].0 == k then Some(entries[n - 1].1)
    else LastValue(entries, n - 1, k)
  }

  /** There is a last value exactly when some entry has the key. */
  lemma {:induction false} LastValueFound(entries: Record<JsValue>, n: nat, k: string)
    requires n <= |entries|
    ensures LastValue(entries, n, k).Some? <==> exists i :: 0 <= i < n && entries[i].0 == k
  {
    if n > 0 {
      LastValueFound(entries, n - 1, k);
    }
  }

  /**
   * After routing, a key has the manifest's (last) value when it is allowed
   * and the manifest has it; otherwise it keeps whatever the target had.
   */
  lemma {:induction false} RouteGet(target: Record<JsValue>, entries: Record<JsValue>, n: nat, allow: seq<string>, k: string)
    requires n <= |entries|
    ensures Get(Route(target, entries, n, allow), k)
            == if k in allow && LastValue(entries, n, k).Some? then LastValue(entries, n, k) else Get(target, k)
  {
    if n > 0 {
      RouteGet(target, entries, n - 1, allow, k);
      var prev := Route(target, entries, n - 1, allow);
      var (key, value) := entries[n - 1];
      if key in allow {
        GetPut(prev, key, value, k);
        assert Route(target, entries, n, allow) == Put(prev, key, value);
      } else {
        assert Route(target, entries, n, allow) == prev;
      }
    }
  }

  /** In a parsed JSON object (no repeated key) the last value is the value. */
  lemma {:induction false} LastValueUnique(entries: Record<JsValue>, n: nat, k: string)
    requires n <= |entries| && Unique(entries)
    ensures LastValue(entries, n, k) == Get(entries[..n], k)
  {
    if n > 0 {
      LastValueUnique(entries, n - 1, k);
      assert entries[..n] == entries[..n - 1] + [entries[n - 1]];
      UniqueIndex(entries);
      HasKeyIndex(entries[..n - 1], entries[n - 1].0);
      GetAppend(entries[..n - 1], entries[n - 1], k);
    }
  }

  /** A key reaches the routed object only if it was there already or is allowed and in the manifest. */
  lemma RouteKeys(target: Record<JsValue>, entries: Record<JsValue>, n: nat, allow: seq<string>, k: string)
    requires n <= |entries|
    ensures HasKey(Route(target, entries, n, allow), k)
            <==> HasKey(target, k) || (k in allow && exists i :: 0 <= i < n && entries[i].0 == k)
  {
    RouteGet(target, entries, n, allow, k);
    LastValueFound(entries, n, k);
  }

  /** The first of `keys`, in order, that `meta` lacks. */
  function FirstMissing(meta: Record<JsValue>, keys: seq<string>): (r: Option<string>)
    ensures r.None? <==> forall k :: k in keys ==> HasKey(meta, k)
    ensures forall j :: 0 <= j < |keys| && !HasKey(meta, keys[j]) && (forall m :: 0 <= m < j ==> HasKey(meta, keys[m]))
                        ==> r == Some(keys[j])
  {
    if keys == [] then None
    else if !HasKey(meta, keys[0]) then
      assert keys[0] in keys;
      Some(keys[0])
    else
      var rest := keys[1..];
      var r := FirstMissing(meta, rest);
      assert forall k :: k in keys <==> k == keys[0] || k in rest;
      forall j | 0 <= j < |keys| && !HasKey(meta, keys[j]) && (forall m :: 0 <= m < j ==> HasKey(meta, keys[m]))
        ensures r == Some(keys[j])
      {
        assert j != 0;
        assert rest[j - 1] == keys[j];
        assert forall m :: 0 <= m < j - 1 ==> rest[m] == keys[m + 1];
      }
      r
  }

  /** The metadata's own value for `version`, with `-dev` appended. */
  function DevVersion(meta: Record<JsValue>): JsValue {
    Str(ToJsString(Prop(meta, "version")) + "-dev")
  }

  /**
   * What follows the partition: the first missing required key is fatal;
   * otherwise in dev mode `version` gets one `-dev` and nothing else changes.
   */
  function Finish(meta: Record<JsValue>, dev: JsValue): (r: Resolved<Record<JsValue>>)
    ensures r.Printed() == []
    ensures r.Resolved? <==> forall k :: k in RequiredMetaKeys ==> HasKey(meta, k)
    ensures r.Fatal? ==> exists k :: FirstMissing(meta, RequiredMetaKeys) == Some(k) && r.error == MissingKeyMessage(k)
    ensures r.Resolved? && !Truthy(dev) ==> r.value == meta
    ensures r.Resolved? && Truthy(dev) ==>
      Get(r.value, "version") == Some(DevVersion(meta))
      && forall k :: k != "version" ==> Get(r.value, k) == Get(meta, k)
  {
    match FirstMissing(meta, RequiredMetaKeys)
    case Some(k) => Fatal([], MissingKeyMessage(k))
    case None =>
      if Truthy(dev) then
        var meta' := Put(meta, "version", DevVersion(meta));
        assert forall k :: Get(meta', k) == if k == "version" then Some(DevVersion(meta)) else Get(meta, k) by {
          forall k ensures Get(meta', k) == if k == "version" then Some(DevVersion(meta)) else Get(meta, k) {
            GetPut(meta, "version", DevVersion(meta), k);
          }
        }
        Resolved(meta', [])
      else Resolved(meta, [])
  }

  /** The `for (const key of requiredMetaKeys)` loop, up to its first (fatal) error. */
  method CheckRequired(meta: Record<JsValue>) returns (missing: Option<string>)
    ensures missing == FirstMissing(meta, RequiredMetaKeys)
  {
    var j := 0;
    while j < |RequiredMetaKeys|
      invariant 0 <= j <= |RequiredMetaKeys|
      invariant forall m :: 0 <= m < j ==> HasKey(meta, RequiredMetaKeys[m])
    {
      if !HasKey(meta, RequiredMetaKeys[j]) {
        return Some(RequiredMetaKeys[j]);
      }
      j := j + 1;
    }
    return None;
  }

  /** The `for (const key in config)` loop: metadata keys into a fresh object, build keys into `pluginConfig`. */
  method Partition(config: Record<JsValue>, pluginConfig: JsObject) returns (meta: Record<JsValue>)
    modifies pluginConfig
    ensures meta == Route([], config, |config|, MetaKeys)
    ensures pluginConfig.fields == Route(old(pluginConfig.fields), config, |config|, PluginConfigKeys)
  {
    meta := [];
    var i := 0;
    while i < |config|
      invariant 0 <= i <= |config|
      invariant meta == Route([], config, i, MetaKeys)
      invariant pluginConfig.fields == Route(old(pluginConfig.fields), config, i, PluginConfigKeys)
    {
      var (key, value) := config[i];
      if key in MetaKeys {
        meta := Put(meta, key, value);
      } else if key in PluginConfigKeys {
        pluginConfig.fields := Put(pluginConfig.fields, key, value);
      }
      i := i + 1;
    }
  }

  /**
   * `getPluginConfig(options)`: routes the manifest's keys into a fresh
   * metadata object and into the shared `pluginConfig` object, then checks the
   * required keys and applies the dev suffix.
   */
  method GetPluginConfig(manifest: Option<JsValue>, dev: JsValue, pluginConfig: JsObject)
    returns (pluginMeta: Resolved<Record<JsValue>>)
    modifies pluginConfig
    ensures manifest.None? ==> pluginMeta == Fatal([], NoManifestMessage) && pluginConfig.fields == old(pluginConfig.fields)
    ensures manifest.Some? ==>
      var entries := OwnProps(manifest.value);
      pluginMeta == Finish(Route([], entries, |entries|, MetaKeys), dev)
      && pluginConfig.fields == Route(old(pluginConfig.fields), entries, |entries|, PluginConfigKeys)
  {
    if manifest.None? {
      return Fatal([], NoManifestMessage);
    }
    var config := OwnProps(manifest.value);
    var meta := Partition(config, pluginConfig);
    var missing := CheckRequired(meta);
    if missing.Some? {
      return Fatal([], MissingKeyMessage(missing.value));
    }
    if Truthy(dev) {
      meta := Put(meta, "version", Str(ToJsString(Prop(meta, "version")) + "-dev"));
    }
    return Resolved(meta, []);
  }

  /** Only the eleven metadata keys reach the metadata; `zlibrary`, for one, never does. */
  lemma MetaOnlyMetaKeys(entries: Record<JsValue>, k: string)
    ensures HasKey(Route([], entries, |entries|, MetaKeys), k)
            <==> k in MetaKeys && exists i :: 0 <= i < |entries| && entries[i].0 == k
  {
    RouteKeys([], entries, |entries|, MetaKeys, k);
  }

  /**
   * Starting from the defaults, the build configuration has exactly `entry`
   * and `installScript`; each keeps its default unless the manifest gives it.
   */
  lemma BuildConfigFromDefaults(entries: Record<JsValue>, k: string)
    ensures var config := Route(DefaultPluginConfig, entries, |entries|, PluginConfigKeys);
            (HasKey(config, k) <==> k in PluginConfigKeys)
            && Get(config, "entry") == (if LastValue(entries, |entries|, "entry").Some? then LastValue(entries, |entries|, "entry") else Some(Str("index")))
            && Get(config, "installScript") == (if LastValue(entries, |entries|, "installScript").Some? then LastValue(entries, |entries|, "installScript") else Some(Bool(true)))
  {
    assert HasKey(DefaultPluginConfig, k) <==> k in PluginConfigKeys by {
      var tail := DefaultPluginConfig[1..];
      assert tail == [("installScript", Bool(true))] && tail[1..] == [];
      assert HasKey(tail, k) <==> k == "installScript";
      assert k in PluginConfigKeys <==> k == "entry" || k == "installScript";
    }
    RouteKeys(DefaultPluginConfig, entries, |entries|, PluginConfigKeys, k);
    RouteGet(DefaultPluginConfig, entries, |entries|, PluginConfigKeys, "entry");
    RouteGet(DefaultPluginConfig, entries, |entries|, PluginConfigKeys, "installScript");
  }

  /**
   * Because `pluginConfig` is the module-level default object itself, a
   * second call in the same process starts from the first manifest's values:
   * a key the second manifest lacks keeps the first manifest's value.
   */
  lemma SharedDefaultsPersist(first: Record<JsValue>, second: Record<JsValue>, k: string)
    requires k in PluginConfigKeys
    requires LastValue(first, |first|, k).Some? && LastValue(second, |second|, k).None?
    ensures Get(Route(Route(DefaultPluginConfig, first, |first|, PluginConfigKeys), second, |second|, PluginConfigKeys), k)
            == LastValue(first, |first|, k)
  {
    var once := Route(DefaultPluginConfig, first, |first|, PluginConfigKeys);
    RouteGet(once, second, |second|, PluginConfigKeys, k);
    RouteGet(DefaultPluginConfig, first, |first|, PluginConfigKeys, k);
  }
}
