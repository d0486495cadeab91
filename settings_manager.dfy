/**
 * `SettingsManager`, the per-instance settings store of the runtime library
 * (lib/settings.ts): stored values that fall back to the defaults, saving on
 * every change, and a set of listeners told about each change.
 */
module SettingsManager {
  import opened Wrappers
  import opened JsValues
  import opened Listeners

  /**
   * `settings[key] ?? defaultSettings?.[key]`: the defaults object itself may
   * be `null` or `undefined`, in which case the default is `undefined`.
   */
  function Lookup(settings: Record<JsValue>, defaults: JsValue, key: string): JsValue {
    Coalesce(Prop(settings, key), Member(defaults, key))
  }

  /**
   * A stored value wins unless it is `null` or `undefined`; a missing or
   * nullish one reads the default.
   */
  lemma LookupFallsBack(settings: Record<JsValue>, defaults: JsValue, key: string)
    ensures HasKey(settings, key) && !Nullish(Get(settings, key).value) ==>
              Lookup(settings, defaults, key) == Get(settings, key).value
    ensures !HasKey(settings, key) || Nullish(Get(settings, key).value) ==>
              Lookup(settings, defaults, key) == Member(defaults, key)
  {
  }

  /**
   * After `set(key, value)` the key reads `value`, or the default when `value`
   * is nullish, and every other key reads what it did before.
   */
  lemma LookupAfterSet(settings: Record<JsValue>, defaults: JsValue, key: string, value: JsValue, other: string)
    ensures Lookup(Put(settings, key, value), defaults, other)
         == if other != key then Lookup(settings, defaults, other)
            else if Nullish(value) then Member(defaults, key)
            else value
  {
    GetPut(settings, key, value, other);
  }

  class SettingsManager {
    var settings: Record<JsValue>
    var defaultSettings: JsValue
    var listeners: seq<Listener>

    /** The listeners form a set. */
    predicate Valid()
      reads this
    {
      Distinct(listeners)
    }

    /**
     * `new SettingsManager(defaultSettings)`. `loaded` is what
     * `BdApi.loadData(pluginName, "settings")` returned: the object last saved,
     * or `None` when nothing was saved (`|| {}` then starts empty).
     */
    constructor(defaultSettings: JsValue, loaded: Option<Record<JsValue>>)
      ensures this.defaultSettings == defaultSettings
      ensures settings == (if loaded.Some? then loaded.value else [])
      ensures listeners == [] && Valid()
    {
      this.defaultSettings := defaultSettings;
      settings := if loaded.Some? then loaded.value else [];
      listeners := [];
    }

    /** `get(key)` */
    method Get(key: string) returns (value: JsValue)
      ensures value == Lookup(settings, defaultSettings, key)
    {
      value := Coalesce(Prop(settings, key), Member(defaultSettings, key));
    }

    /**
     * `set(key, value)`: assigns the key, saves the whole settings object, then
     * calls each listener with `(key, value)`.
     */
    method Set(key: string, value: JsValue) returns (calls: seq<Call>)
      modifies this
      ensures settings == Put(old(settings), key, value)
      ensures defaultSettings == old(defaultSettings) && listeners == old(listeners)
      ensures calls == [SaveData(settings)] + Notifications(listeners, key, value)
    {
      settings := Put(settings, key, value);
      var notified := NotifyAll(listeners, key, value);
      calls := [SaveData(settings)] + notified;
    }

    /** `addListener(listener)`: registers it and returns its remover. */
    method AddListener(listener: Listener) returns (remover: Remover)
      requires Valid()
      modifies this
      ensures listeners == Added(old(listeners), listener) && Valid()
      ensures settings == old(settings) && defaultSettings == old(defaultSettings)
      ensures remover == Remover(listener)
    {
      listeners := Added(listeners, listener);
      remover := Remover(listener);
    }

    /** Calling a remover returned by `addListener`. */
    method Remove(remover: Remover)
      requires Valid()
      modifies this
      ensures listeners == Deleted(old(listeners), remover.listener) && Valid()
      ensures settings == old(settings) && defaultSettings == old(defaultSettings)
    {
      listeners := Deleted(listeners, remover.listener);
    }

    /** `clearListeners()` */
    method ClearListeners()
      modifies this
      ensures listeners == [] && Valid()
      ensures settings == old(settings) && defaultSettings == old(defaultSettings)
    {
      listeners := [];
    }
  }
}
