/**
 * `Strings`, the static strings store of the earlier runtime library
 * (strings.ts): the locales arrive with `initialize`, and the default locale
 * can be changed at any time. Discord's current locale is a parameter.
 */
module StaticStrings {
  import opened Wrappers
  import opened JsValues
  import opened Locales

  /** The static fields of `Strings`, as one object. */
  class Strings {
    var strings: Option<Table>
    var defaultLocale: string
    var locales: Option<Record<Table>>
    var subscribed: bool

    /** No strings are selected before the locales are known. */
    predicate Valid()
      reads this
    {
      locales.None? ==> strings.None?
    }

    /** The static initialisers: only `defaultLocale` has a value, `"en-US"`. */
    constructor()
      ensures strings.None? && locales.None? && !subscribed
      ensures defaultLocale == FallbackLocale && Valid()
    {
      strings := None;
      defaultLocale := FallbackLocale;
      locales := None;
      subscribed := false;
    }

    /**
     * `setDefaultLocale(locale)`: replaces the fallback locale; the strings
     * already selected stay until the next `setLocale`.
     */
    method SetDefaultLocale(locale: string)
      requires Valid()
      modifies this
      ensures defaultLocale == locale && Valid()
      ensures strings == old(strings) && locales == old(locales) && subscribed == old(subscribed)
    {
      defaultLocale := locale;
    }

    /**
     * `initialize(locales)`: stores the locales, selects the strings for
     * Discord's locale at once, and subscribes to `I18N_LOAD_SUCCESS`.
     */
    method Initialize(locales: Record<Table>, current: string)
      modifies this
      ensures this.locales == Some(locales) && Valid()
      ensures strings == Select(locales, current, defaultLocale)
      ensures defaultLocale == old(defaultLocale) && subscribed
    {
      this.locales := Some(locales);
      SetLocale(current);
      subscribed := true;
    }

    /** `setLocale()`, called on the class itself once the locales are stored. */
    method SetLocale(current: string)
      requires locales.Some?
      modifies this
      ensures locales == old(locales) && defaultLocale == old(defaultLocale) && subscribed == old(subscribed)
      ensures strings == Select(locales.value, current, defaultLocale) && Valid()
    {
      var table := locales.value;
      strings := if HasKey(table, current) then JsValues.Get(table, current) else JsValues.Get(table, defaultLocale);
    }

    /**
     * An `I18N_LOAD_SUCCESS` dispatch as subscribed: the unbound handler
     * throws and nothing changes.
     */
    method OnLocaleLoadedAsWritten(current: string) returns (error: Option<string>)
      requires locales.Some?
      ensures LocaleLoadedAsWritten(strings, locales.value, current, defaultLocale) == Handled(strings, error)
    {
      error := Some(PropertyOfNullish(Undefined, "locales"));
    }

    /** `get(key)`; before `initialize` no table is selected and the read throws. */
    method Get(key: string) returns (r: Result<Option<string>, string>)
      requires Valid()
      ensures r == Lookup(strings, if locales.Some? then locales.value else [], defaultLocale, key)
      ensures locales.None? ==> r.Err?
    {
      if strings.None? {
        r := Err(PropertyOfNullish(Undefined, key));
      } else {
        var selected := JsValues.Get(strings.value, key);
        if selected.Some? && selected.value != [] {
          r := Ok(selected);
        } else if HasKey(locales.value, defaultLocale) {
          r := Ok(JsValues.Get(JsValues.Get(locales.value, defaultLocale).value, key));
        } else {
          r := Err(PropertyOfNullish(Undefined, key));
        }
      }
    }

    /** `unsubscribe()` */
    method Unsubscribe()
      modifies this
      ensures !subscribed
      ensures strings == old(strings) && locales == old(locales) && defaultLocale == old(defaultLocale)
    {
      subscribed := false;
    }
  }
}
