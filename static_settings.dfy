/**
 * `Settings`, the static settings store of the earlier runtime library
 * (settings.ts): like `SettingsManager`, but the defaults are set after the
 * fact and each `get` may pass its own default.
 */
module StaticSettings {
  import opened Wrappers
  import opened JsValues
  import opened Listeners
  import SettingsManager

  /** `settings?.[key] ?? defaultValue ?? defaultSettings?.[key]` */
  function Lookup(settings: Record<JsValue>, defaultValue: JsValue, defaults: JsValue, key: string): JsValue {
    Coalesce(Coalesce(Prop(settings, key), defaultValue), Member(defaults, key))
  }

  /**
   * The order of precedence: the stored value, then the `defaultValue`
   * argument, then the defaults object, each skipped only when nullish.
   */
  lemma LookupPrecedence(settings: Record<JsValue>, defaultValue: JsValue, defaults: JsValue, key: string)
    ensures HasKey(settings, key) && !Nullish(Get(settings, key).value) ==>
              Lookup(settings, defaultValue, defaults, key) == Get(settings, key).value
    ensures (!HasKey(settings, key) || Nullish(Get(settings, key).value)) && !Nullish(defaultValue) ==>
              Lookup(settings, defaultValue, defaults, key) == defaultValue
    ensures (!HasKey(settings, key) || Nullish(Get(settings, key).value)) && Nullish(defaultValue) ==>
              Lookup(settings, defaultValue, defaults, key) == Member(defaults, key)
  {
  }

  /**
   * Without a `defaultValue` argument the static store reads exactly as a
   * `SettingsManager` over the same settings and defaults.
   */
  lemma AgreesWithManager(settings: Record<JsValue>, defaults: JsValue, key: string)
    ensures Lookup(settings, Undefined, defaults, key) == SettingsManager.Lookup(settings, defaults, key)
  {
  }

  /**
   * After `set(key, value)` the key reads `value` unless it is nullish, and
   * every other key reads what it did before.
   */
  lemma LookupAfterSet(settings: Record<JsValue>, defaultValue: JsValue, defaults: JsValue, key: string, value: JsValue, other: string)
    ensures Lookup(Put(settings, key, value), defaultValue, defaults, other)
         == if other != key then Lookup(settings, defaultValue, defaults, other)
            else if Nullish(value) then Coalesce(defaultValue, Member(defaults, key))
            else value
  {
    GetPut(settings, key, value, other);
  }

  /** The static fields of `Settings`, as one object. */
  class Settings {
    var settings: Record<JsValue>
    var defaultSettings: JsValue
    var listeners: seq<Listener>

    /** The listeners form a set. */
    predicate Valid()
      reads this
    {
      Distinct(listeners)
    }

    /**
     * The static initialisers: the saved settings or `{}`, no defaults until
     * `setDefaults` (the field starts `undefined`), no listeners. `loaded` is
     * what `BdApi.loadData(meta.name, "settings")` returned, `None` when
     * nothing was saved.
     */
    constructor(loaded: Option<Record<JsValue>>)
      ensures settings == (if loaded.Some? then loaded.value else [])
      ensures defaultSettings == Undefined
      ensures listeners == [] && Valid()
    {
      settings := if loaded.Some? then loaded.value else [];
      defaultSettings := Undefined;
      listeners := [];
    }

    /** `setDefaults(settings)`: replaces the defaults object and nothing else. */
    method SetDefaults(defaults: JsValue)
      modifies this
      ensures defaultSettings == defaults
      ensures settings == old(settings) && listeners == old(listeners)
    {
      defaultSettings := defaults;
    }

    /** `get(key, defaultValue)`; an omitted `defaultValue` is `Undefined`. */
    method Get(key: string, defaultValue: JsValue) returns (value: JsValue)
      ensures value == Lookup(settings, defaultValue, defaultSettings, key)
    {
      value := Coalesce(Coalesce(Prop(settings, key), defaultValue), Member(defaultSettings, key));
    }

    /**
     * `set(key, value)`: assigns the key, saves the whole settings object, then
     * calls each listener with `(key, value)` through `forEach`.
     */
    method Set(key: string, value: JsValue) returns (calls: seq<Call>)
      modifies this
      ensures settings == Put(old(settings), key, value)
      ensures defaultSettings == old(defaultSettings) && listeners == old(listeners)
      ensures calls == [SaveData(settings)] + Notifications(listeners, key, value)
    {
      settings := Put(settings, key, value);
      var notified := NotifyAll(listeners, key, value);
      calls := [SaveData(settings)] + notified;
    }

    /** `addListener(listener)`: registers it and returns its remover. */
    method AddListener(listener: Listener) returns (remover: Remover)
      requires Valid()
      modifies this
      ensures listeners == Added(old(listeners), listener) && Valid()
      ensures settings == old(settings) && defaultSettings == old(defaultSettings)
      ensures remover == Remover(listener)
    {
      listeners := Added(listeners, listener);
      remover := Remover(listener);
    }

    /** Calling a remover returned by `addListener`. */
    method Remove(remover: Remover)
      requires Valid()
      modifies this
      ensures listeners == Deleted(old(listeners), remover.listener) && Valid()
      ensures settings == old(settings) && defaultSettings == old(defaultSettings)
    {
      listeners := Deleted(listeners, remover.listener);
    }

    /** `clearListeners()` */
    method ClearListeners()
      modifies this
      ensures listeners == [] && Valid()
      ensures settings == old(settings) && defaultSettings == old(defaultSettings)
    {
      listeners := [];
    }
  }
}
