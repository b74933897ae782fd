/** The theme provider: the preference resolved once on activation from the stored
    value, a configured default and the operating system's dark-mode flag; the
    application of a theme to the root element (a class token or a `data-theme`
    attribute); and `setTheme`, which stores and applies its argument as given. */
module ThemeProvider {
  import opened Wrappers

  /** The provider's props. */
  datatype Config = Config(attribute: string, defaultTheme: string, enableSystem: bool, storageKey: string)

  /** The props' defaults: class strategy, "system", detection on, key "theme". */
  const DefaultConfig: Config := Config("class", "system", true, "theme")

  /** The root element as far as the provider touches it: the tokens of its `class`
      attribute (its `classList`) and its other attributes, `data-theme` among them. */
  datatype Document = Document(classes: set<string>, attributes: map<string, string>)

  /** `localStorage.getItem(key)`: `null` when nothing is stored under the key. */
  function StoredValue(storage: map<string, string>, key: string): (r: Option<string>)
    ensures r.Some? <==> key in storage
    ensures r.Some? ==> r.value == storage[key]
  {
    if key in storage then Some(storage[key]) else None
  }

  /** `stored || defaultTheme`: a missing or empty stored value yields the default. */
  function StartingPreference(stored: Option<string>, defaultTheme: string): (r: string)
    ensures stored.Some? && stored.value != "" ==> r == stored.value
    ensures stored.None? || stored.value == "" ==> r == defaultTheme
  {
    if stored.Some? && stored.value != "" then stored.value else defaultTheme
  }

  /** The theme chosen on activation. Outside a browser nothing is read and the
      default is kept; with detection on, "system" becomes "dark" or "light" from
      the OS flag; with detection off, "system" stays as it is. */
  function ResolveInitial(config: Config, hasWindow: bool, storage: map<string, string>, osDark: bool): (r: string)
    ensures !hasWindow ==> r == config.defaultTheme
    ensures hasWindow && config.enableSystem ==> r != "system"
    ensures r == "dark" || r == "light"
         || r == StartingPreference(if hasWindow then StoredValue(storage, config.storageKey) else None, config.defaultTheme)
  {
    var stored := if hasWindow then StoredValue(storage, config.storageKey) else None;
    var preference := StartingPreference(stored, config.defaultTheme);
    if config.enableSystem && preference == "system" && hasWindow then
      (if osDark then "dark" else "light")
    else
      preference
  }

  /** With detection on in a browser, a "system" preference resolves to "dark"
      exactly when the OS flag says dark, and to "light" otherwise. */
  lemma ResolveSystemFollowsOs(config: Config, storage: map<string, string>, osDark: bool)
    requires config.enableSystem
    requires StartingPreference(StoredValue(storage, config.storageKey), config.defaultTheme) == "system"
    ensures ResolveInitial(config, true, storage, osDark) == "dark" <==> osDark
    ensures ResolveInitial(config, true, storage, osDark) == "light" <==> !osDark
  {
  }

  /** Without detection, or outside a browser, resolution is just the starting
      preference and does not depend on the OS flag; outside a browser that is the
      default. */
  lemma ResolveWithoutSystem(config: Config, hasWindow: bool, storage: map<string, string>, osDark: bool)
    requires !config.enableSystem || !hasWindow
    ensures ResolveInitial(config, hasWindow, storage, osDark)
         == StartingPreference(if hasWindow then StoredValue(storage, config.storageKey) else None, config.defaultTheme)
    ensures !hasWindow ==> ResolveInitial(config, hasWindow, storage, osDark) == config.defaultTheme
  {
  }

  /** With the default props, an empty store resolves from the OS flag alone. */
  lemma ResolveDefaultsEmptyStore(osDark: bool)
    ensures ResolveInitial(DefaultConfig, true, map[], osDark) == if osDark then "dark" else "light"
  {
  }

  /** In a browser, a starting preference other than "system", stored or the
      default, is the theme, whether detection is on or off. */
  lemma ResolveNonSystemPreference(config: Config, storage: map<string, string>, osDark: bool)
    requires StartingPreference(StoredValue(storage, config.storageKey), config.defaultTheme) != "system"
    ensures ResolveInitial(config, true, storage, osDark)
         == StartingPreference(StoredValue(storage, config.storageKey), config.defaultTheme)
  {
  }

  /** A non-"system" default with nothing stored is used even with detection on. */
  lemma ResolveNonSystemDefault(config: Config, osDark: bool)
    requires config.defaultTheme != "system"
    ensures ResolveInitial(config, true, map[], osDark) == config.defaultTheme
  {
    ResolveNonSystemPreference(config, map[], osDark);
  }

  /** A stored non-empty preference other than "system" is used as it is. */
  lemma ResolveStored(config: Config, hasWindow: bool, storage: map<string, string>, osDark: bool)
    requires hasWindow && config.storageKey in storage
    requires storage[config.storageKey] != "" && storage[config.storageKey] != "system"
    ensures ResolveInitial(config, hasWindow, storage, osDark) == storage[config.storageKey]
  {
  }

  /** `applyTheme`. In class mode "light" and "dark" are removed, `newTheme` is
      added and every other class is kept; in "data-theme" mode only that attribute
      is set; any other mode, or no window, leaves the document alone. */
  function ApplyTheme(doc: Document, hasWindow: bool, newTheme: string, attribute: string): (d: Document)
    ensures !hasWindow || (attribute != "class" && attribute != "data-theme") ==> d == doc
    ensures hasWindow && attribute == "class" ==>
      d.attributes == doc.attributes &&
      newTheme in d.classes &&
      forall c :: c != newTheme ==> (c in d.classes <==> c in doc.classes && c != "light" && c != "dark")
    ensures hasWindow && attribute == "data-theme" ==>
      d.classes == doc.classes &&
      "data-theme" in d.attributes && d.attributes["data-theme"] == newTheme &&
      forall a :: a != "data-theme" ==> (a in d.attributes <==> a in doc.attributes) &&
                                         (a in doc.attributes ==> d.attributes[a] == doc.attributes[a])
  {
    if !hasWindow then doc
    else if attribute == "class" then doc.(classes := doc.classes - {"light", "dark"} + {newTheme})
    else if attribute == "data-theme" then doc.(attributes := doc.attributes["data-theme" := newTheme])
    else doc
  }

  /** Applying the same theme again changes nothing. */
  lemma ApplyThemeIdempotent(doc: Document, hasWindow: bool, t: string, attribute: string)
    ensures ApplyTheme(ApplyTheme(doc, hasWindow, t, attribute), hasWindow, t, attribute)
         == ApplyTheme(doc, hasWindow, t, attribute)
  {
  }

  /** Applying "light" or "dark" and then another theme is the same as applying
      only the other one: the earlier token is removed. */
  lemma ApplyThemeLastWins(doc: Document, hasWindow: bool, t1: string, t2: string, attribute: string)
    requires t1 == "light" || t1 == "dark"
    ensures ApplyTheme(ApplyTheme(doc, hasWindow, t1, attribute), hasWindow, t2, attribute)
         == ApplyTheme(doc, hasWindow, t2, attribute)
  {
    if hasWindow && attribute == "class" {
      assert doc.classes - {"light", "dark"} + {t1} - {"light", "dark"} + {t2}
          == doc.classes - {"light", "dark"} + {t2};
    }
  }

  /** In class mode a "system" token, once applied, is never removed by a later
      apply: only "light" and "dark" are cleared. */
  lemma SystemClassPersists(doc: Document, t: string)
    requires "system" in doc.classes
    ensures "system" in ApplyTheme(doc, true, t, "class").classes
  {
  }

  /** The provider's value as `useTheme` sees it. */
  datatype ThemeContext = ThemeContext(theme: string)

  /** `useTheme`: throws outside a provider, otherwise returns the provider's value. */
  function UseTheme(context: Option<ThemeContext>): (r: Result<ThemeContext>)
    ensures context.None? <==> r.Throw?
    ensures context.None? ==> r.message == "useTheme must be used within a ThemeProvider"
    ensures context.Some? ==> r.value == context.value
  {
    UseContext(context, "useTheme must be used within a ThemeProvider")
  }

  /** One mounted provider with the browser state it reads and writes. */
  class Provider {
    const config: Config
    /** `typeof window !== "undefined"`. */
    const hasWindow: bool
    var theme: string
    var mounted: bool
    /** `localStorage`. */
    var storage: map<string, string>
    /** `document.documentElement`. */
    var document: Document

    /** Before activation the in-memory theme is the empty string. */
    constructor (config: Config, hasWindow: bool, storage: map<string, string>, document: Document)
      ensures this.config == config && this.hasWindow == hasWindow
      ensures theme == "" && !mounted
      ensures this.storage == storage && this.document == document
    {
      this.config, this.hasWindow := config, hasWindow;
      theme, mounted := "", false;
      this.storage, this.document := storage, document;
    }

    /** The activation effect: resolve once, remember and apply the result; the
        store is only read. */
    method Activate(osDark: bool)
      modifies this`theme, this`mounted, this`document
      ensures mounted
      ensures theme == ResolveInitial(config, hasWindow, storage, osDark)
      ensures document == ApplyTheme(old(document), hasWindow, theme, config.attribute)
    {
      mounted := true;
      var stored := if hasWindow then StoredValue(storage, config.storageKey) else None;
      var current := StartingPreference(stored, config.defaultTheme);
      if config.enableSystem && current == "system" && hasWindow {
        current := if osDark then "dark" else "light";
      }
      theme := current;
      document := ApplyTheme(document, hasWindow, current, config.attribute);
    }

    /** `setTheme` (the provider's `updateTheme`): the value is kept, stored under
        the configured key and applied exactly as given, so "system" is stored and
        applied as "system" and is not resolved against the OS. Outside a browser
        the write to `localStorage` throws after the in-memory theme was set, and
        nothing is applied. */
    method SetTheme(newTheme: string) returns (threw: bool)
      modifies this`theme, this`storage, this`document
      ensures theme == newTheme
      ensures threw <==> !hasWindow
      ensures !threw ==> storage == old(storage)[config.storageKey := newTheme]
      ensures !threw ==> document == ApplyTheme(old(document), hasWindow, newTheme, config.attribute)
      ensures threw ==> storage == old(storage) && document == old(document)
    {
      theme := newTheme;
      if !hasWindow {
        return true;
      }
      storage := storage[config.storageKey := newTheme];
      document := ApplyTheme(document, hasWindow, newTheme, config.attribute);
      threw := false;
    }
  }

  /** Setting "system" stores "system" and, in class mode, adds the "system" token
      to the root element whatever the OS flag says. */
  method SetSystemIsVerbatim(storage: map<string, string>, doc: Document, osDark: bool)
    returns (theme: string, stored: Option<string>, classes: set<string>)
    ensures theme == "system" && stored == Some("system")
    ensures "system" in classes && "light" !in classes && "dark" !in classes
  {
    var p := new Provider(DefaultConfig, true, storage, doc);
    p.Activate(osDark);
    var threw := p.SetTheme("system");
    theme, stored, classes := p.theme, StoredValue(p.storage, "theme"), p.document.classes;
  }
}
