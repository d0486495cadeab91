/**
 * src/bin/config/plugin.ts: the earlier plugin.json reader. Missing metadata
 * falls back to defaults instead of being an error, `zlibrary` is a build
 * option, and unknown keys are warned about.
 */
module LegacyPluginManifest {
  import opened Wrappers
  import opened JsValues
  import PluginManifest

  const LegacyConfigKeys: seq<string> := ["entry", "installScript", "zlibrary"]

  /** The initial contents of the module-level `defaultPluginMeta` object. */
  const DefaultPluginMeta: Record<JsValue> := [
    ("name", Str("Plugin")), ("author", Str("Unknown")),
    ("description", Str("Plugin bundled with BundleBD")), ("version", Str("1.0.0"))
  ]

  /** The initial contents of the module-level `defaultPluginConfig` object. */
  const DefaultLegacyConfig: Record<JsValue> := [("entry", Str("index")), ("installScript", Bool(true)), ("zlibrary", Bool(false))]

  const NoPluginJsonWarning := "No plugin.json found. Using default configuration."

  function UnknownKeyWarning(key: string): string {
    "Unknown key '" + key + "' in plugin.json"
  }

  predicate Known(key: string) {
    key in PluginManifest.MetaKeys || key in LegacyConfigKeys
  }

  /** The warnings for the first `n` entries: one per key in neither list. */
  function UnknownKeyWarnings(entries: Record<JsValue>, n: nat): seq<string>
    requires n <= |entries|
  {
    if n == 0 then []
    else UnknownKeyWarnings(entries, n - 1) + if Known(entries[n - 1].0) then [] else [UnknownKeyWarning(entries[n - 1].0)]
  }

  /**
   * `getPluginConfig(input)`: every key of plugin.json goes into the shared
   * metadata object, the shared build-configuration object, or a warning.
   */
  method GetPluginConfig(pluginJson: Option<JsValue>, pluginConfig: JsObject, pluginMeta: JsObject)
    returns (warnings: seq<string>)
    requires pluginConfig != pluginMeta
    modifies pluginConfig, pluginMeta
    ensures pluginJson.None? ==>
      warnings == [NoPluginJsonWarning]
      && pluginConfig.fields == old(pluginConfig.fields) && pluginMeta.fields == old(pluginMeta.fields)
    ensures pluginJson.Some? ==>
      var entries := OwnProps(pluginJson.value);
      warnings == UnknownKeyWarnings(entries, |entries|)
      && pluginMeta.fields == PluginManifest.Route(old(pluginMeta.fields), entries, |entries|, PluginManifest.MetaKeys)
      && pluginConfig.fields == PluginManifest.Route(old(pluginConfig.fields), entries, |entries|, LegacyConfigKeys)
  {
    if pluginJson.None? {
      return [NoPluginJsonWarning];
    }
    var config := OwnProps(pluginJson.value);
    warnings := [];
    assert forall k :: k in PluginManifest.MetaKeys ==> k !in LegacyConfigKeys;
    var i := 0;
    while i < |config|
      invariant 0 <= i <= |config|
      invariant warnings == UnknownKeyWarnings(config, i)
      invariant pluginMeta.fields == PluginManifest.Route(old(pluginMeta.fields), config, i, PluginManifest.MetaKeys)
      invariant pluginConfig.fields == PluginManifest.Route(old(pluginConfig.fields), config, i, LegacyConfigKeys)
    {
      var (key, value) := config[i];
      if key in PluginManifest.MetaKeys {
        pluginMeta.fields := Put(pluginMeta.fields, key, value);
      } else if key in LegacyConfigKeys {
        pluginConfig.fields := Put(pluginConfig.fields, key, value);
      } else {
        warnings := warnings + [UnknownKeyWarning(key)];
      }
      i := i + 1;
    }
  }

  /** Number of entries among the first `n` whose key is in neither list. */
  function UnknownCount(entries: Record<JsValue>, n: nat): nat
    requires n <= |entries|
  {
    if n == 0 then 0 else UnknownCount(entries, n - 1) + if Known(entries[n - 1].0) then 0 else 1
  }

  /** One warning per unknown key, each naming it. */
  lemma {:induction false} OneWarningPerUnknownKey(entries: Record<JsValue>, n: nat)
    requires n <= |entries|
    ensures |UnknownKeyWarnings(entries, n)| == UnknownCount(entries, n)
  {
    if n > 0 {
      OneWarningPerUnknownKey(entries, n - 1);
    }
  }

  /**
   * Starting from the defaults, the metadata always has a name, author,
   * description and version: a missing one keeps its default.
   */
  lemma MetaAlwaysComplete(entries: Record<JsValue>, k: string)
    requires k in PluginManifest.RequiredMetaKeys
    ensures var meta := PluginManifest.Route(DefaultPluginMeta, entries, |entries|, PluginManifest.MetaKeys);
            HasKey(meta, k)
            && (PluginManifest.LastValue(entries, |entries|, k).None? ==> Get(meta, k) == Get(DefaultPluginMeta, k))
  {
    PluginManifest.RouteGet(DefaultPluginMeta, entries, |entries|, PluginManifest.MetaKeys, k);
    assert HasKey(DefaultPluginMeta, k) by {
      var t1 := DefaultPluginMeta[1..];
      var t2 := t1[1..];
      var t3 := t2[1..];
      assert t3 == [("version", Str("1.0.0"))];
      assert k == "name" || k == "author" || k == "description" || k == "version";
    }
  }

  /** Unlike the later manifest, plugin.json may set `zlibrary`; without it the default is `false`. */
  lemma ZLibraryDefault(entries: Record<JsValue>)
    ensures Get(PluginManifest.Route(DefaultLegacyConfig, entries, |entries|, LegacyConfigKeys), "zlibrary")
            == if PluginManifest.LastValue(entries, |entries|, "zlibrary").Some?
               then PluginManifest.LastValue(entries, |entries|, "zlibrary") else Some(Bool(false))
  {
    PluginManifest.RouteGet(DefaultLegacyConfig, entries, |entries|, LegacyConfigKeys, "zlibrary");
  }
}
