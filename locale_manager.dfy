/** LocaleManager: the per-session locale cell, started from the configured options. */
module Locale {
  import opened Wrappers
  import opened Models

  /** LocaleManagerOptions; the default StartingLocale is "default". */
  datatype LocaleManagerOptions = LocaleManagerOptions(startingLocale: string := DefaultLocale)

  /** The locale a new manager starts with: options.Value ?? LocaleManagerOptions.Default. */
  function StartingLocale(options: Option<LocaleManagerOptions>): (r: string)
    ensures options.None? ==> r == DefaultLocale
    ensures options.Some? ==> r == options.value.startingLocale
  {
    options.UnwrapOr(LocaleManagerOptions()).startingLocale
  }

  class LocaleManager {
    var locale: string

    constructor(options: Option<LocaleManagerOptions>)
      ensures locale == StartingLocale(options)
    {
      locale := StartingLocale(options);
    }

    /** GetLocale reads the cell and changes nothing. */
    method GetLocale() returns (r: string)
      ensures r == locale
    {
      return locale;
    }

    method SetLocale(l: string)
      modifies this
      ensures locale == l
    {
      locale := l;
    }
  }

  /** The locale starts as configured, and a set is seen by the next get. */
  method SetThenGet(l: string)
  {
    var m := new LocaleManager(None);
    var r0 := m.GetLocale();
    assert r0 == "default";
    var n := new LocaleManager(Some(LocaleManagerOptions("uk")));
    var r1 := n.GetLocale();
    assert r1 == "uk";
    m.SetLocale(l);
    var r2 := m.GetLocale();
    assert r2 == l;
  }
}
