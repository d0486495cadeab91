/**
 * `StringsManager`, the per-instance strings store of the runtime library
 * (lib/strings.ts). Discord's current locale (`LocaleManager.getLocale()`)
 * is a parameter; the Dispatcher subscription is recorded as a flag.
 */
module StringsManager {
  import opened Wrappers
  import opened JsValues
  import opened Locales

  class StringsManager {
    var strings: Option<Table>
    var defaultLocale: string
    var locales: Record<Table>
    var subscribed: bool

    /**
     * `new StringsManager(locales, defaultLocale)`: selects the strings at
     * once and subscribes to `I18N_LOAD_SUCCESS`.
     */
    constructor(locales: Record<Table>, defaultLocale: Option<string>, current: string)
      ensures this.locales == locales && this.defaultLocale == DefaultLocale(defaultLocale)
      ensures strings == Select(locales, current, this.defaultLocale)
      ensures subscribed
    {
      this.locales := locales;
      this.defaultLocale := if defaultLocale.Some? && defaultLocale.value != [] then defaultLocale.value else FallbackLocale;
      new;
      SetLocale(current);
      subscribed := true;
    }

    /** `setLocale()`, called on the store itself. */
    method SetLocale(current: string)
      modifies this
      ensures strings == Select(locales, current, defaultLocale)
      ensures locales == old(locales) && defaultLocale == old(defaultLocale) && subscribed == old(subscribed)
    {
      strings := if HasKey(locales, current) then JsValues.Get(locales, current) else JsValues.Get(locales, defaultLocale);
    }

    /**
     * An `I18N_LOAD_SUCCESS` dispatch as subscribed: the unbound handler
     * throws and nothing changes.
     */
    method OnLocaleLoadedAsWritten(current: string) returns (error: Option<string>)
      ensures LocaleLoadedAsWritten(strings, locales, current, defaultLocale) == Handled(strings, error)
    {
      error := Some(PropertyOfNullish(Undefined, "locales"));
    }

    /** `get(key)` */
    method Get(key: string) returns (r: Result<Option<string>, string>)
      ensures r == Lookup(strings, locales, defaultLocale, key)
    {
      if strings.None? {
        r := Err(PropertyOfNullish(Undefined, key));
      } else {
        var selected := JsValues.Get(strings.value, key);
        if selected.Some? && selected.value != [] {
          r := Ok(selected);
        } else if HasKey(locales, defaultLocale) {
          r := Ok(JsValues.Get(JsValues.Get(locales, defaultLocale).value, key));
        } else {
          r := Err(PropertyOfNullish(Undefined, key));
        }
      }
    }

    /** `unsubscribe()` */
    method Unsubscribe()
      modifies this
      ensures !subscribed
      ensures strings == old(strings) && locales == old(locales) && defaultLocale == old(defaultLocale)
    {
      subscribed := false;
    }
  }
}
