/**
 * Locale selection and string lookup shared by both strings stores of the
 * runtime library: the strings of Discord's current locale, falling back to
 * a default locale table as a whole and key by key.
 */
module Locales {
  import opened Wrappers
  import opened JsValues

  /** The strings of one locale. */
  type Table = Record<string>

  const FallbackLocale: string := "en-US"

  /** A string property is used only when truthy: present and not empty. */
  predicate Usable(s: Option<string>) {
    s.Some? && s.value != []
  }

  /** `defaultLocale || "en-US"` */
  function DefaultLocale(given: Option<string>): (r: string)
    ensures Usable(given) ==> r == given.value
    ensures !Usable(given) ==> r == FallbackLocale
    ensures r != []
  {
    if Usable(given) then given.value else FallbackLocale
  }

  /**
   * `locales[currentLocale] || locales[defaultLocale]`; a locale table is an
   * object, so a present one is always truthy.
   */
  function Select(locales: Record<Table>, current: string, defaultLocale: string): (r: Option<Table>)
    ensures HasKey(locales, current) ==> r == Get(locales, current)
    ensures !HasKey(locales, current) ==> r == Get(locales, defaultLocale)
    ensures r.Some? <==> HasKey(locales, current) || HasKey(locales, defaultLocale)
  {
    if HasKey(locales, current) then Get(locales, current) else Get(locales, defaultLocale)
  }

  /**
   * `strings[key] || locales[defaultLocale][key]`. Reading a key of an
   * undefined table throws: no table was selected, or the selected one lacks
   * the string and there is no default table.
   */
  function Lookup(strings: Option<Table>, locales: Record<Table>, defaultLocale: string, key: string): (r: Result<Option<string>, string>)
    ensures r.Err? <==> strings.None? || (!Usable(Get(strings.value, key)) && !HasKey(locales, defaultLocale))
    ensures r.Err? ==> r.error == PropertyOfNullish(Undefined, key)
    ensures strings.Some? && Usable(Get(strings.value, key)) ==> r == Ok(Get(strings.value, key))
    ensures strings.Some? && !Usable(Get(strings.value, key)) && HasKey(locales, defaultLocale) ==>
              r == Ok(Get(Get(locales, defaultLocale).value, key))
  {
    if strings.None? then Err(PropertyOfNullish(Undefined, key))
    else if Usable(Get(strings.value, key)) then Ok(Get(strings.value, key))
    else
      match Get(locales, defaultLocale)
      case None => Err(PropertyOfNullish(Undefined, key))
      case Some(table) => Ok(Get(table, key))
  }

  /**
   * When Discord's locale has no table, every lookup reads the default
   * locale's table, whatever the key.
   */
  lemma MissingLocaleReadsDefault(locales: Record<Table>, current: string, defaultLocale: string, key: string)
    requires !HasKey(locales, current) && HasKey(locales, defaultLocale)
    ensures Lookup(Select(locales, current, defaultLocale), locales, defaultLocale, key)
         == Ok(Get(Get(locales, defaultLocale).value, key))
  {
  }

  /**
   * A string the current locale leaves out, or leaves empty, is read from the
   * default locale instead.
   */
  lemma MissingStringReadsDefault(locales: Record<Table>, current: string, defaultLocale: string, key: string)
    requires HasKey(locales, current) && HasKey(locales, defaultLocale)
    requires !Usable(Get(Get(locales, current).value, key))
    ensures Lookup(Select(locales, current, defaultLocale), locales, defaultLocale, key)
         == Ok(Get(Get(locales, defaultLocale).value, key))
  {
  }

  /**
   * The effect of a dispatched `I18N_LOAD_SUCCESS` on a strings store: the
   * table it selects afterwards, and the error the handler throws, if any.
   */
  datatype Handled = Handled(strings: Option<Table>, error: Option<string>)

  /**
   * As written, the handler is subscribed as the bare `this.setLocale`, so
   * when the dispatcher calls it `this` is not the store: reading
   * `this.locales` throws and the selected table stays as it was.
   */
  function LocaleLoadedAsWritten(strings: Option<Table>, locales: Record<Table>, current: string, defaultLocale: string): (h: Handled)
    ensures h.strings == strings && h.error.Some?
  {
    Handled(strings, Some(PropertyOfNullish(Undefined, "locales")))
  }

  /** A handler bound to its store: selects the new locale's table. */
  function LocaleLoaded(strings: Option<Table>, locales: Record<Table>, current: string, defaultLocale: string): (h: Handled)
    ensures h.error.None?
    ensures HasKey(locales, current) ==> h.strings == Get(locales, current)
  {
    Handled(Select(locales, current, defaultLocale), None)
  }

  /** English and French strings for one key. */
  const HelloLocales: Record<Table> := [("en-US", [("hello", "Hello")]), ("fr", [("hello", "Bonjour")])]

  /**
   * Switching Discord to French after the plugin started: as written the
   * store keeps reading English, while a bound handler reads French.
   */
  lemma LocaleSwitchIgnoredAsWritten()
    ensures var before := Select(HelloLocales, "en-US", FallbackLocale);
            var h := LocaleLoadedAsWritten(before, HelloLocales, "fr", FallbackLocale);
            Lookup(h.strings, HelloLocales, FallbackLocale, "hello") == Ok(Some("Hello"))
    ensures var before := Select(HelloLocales, "en-US", FallbackLocale);
            var h := LocaleLoaded(before, HelloLocales, "fr", FallbackLocale);
            Lookup(h.strings, HelloLocales, FallbackLocale, "hello") == Ok(Some("Bonjour"))
  {
    assert HasKey(HelloLocales, "en-US");
    assert Get(HelloLocales, "en-US") == Some([("hello", "Hello")]);
    assert Get(HelloLocales, "fr") == Some([("hello", "Bonjour")]);
  }
}
