/** src/context/ThemeContext.jsx: the theme state, seeded from the store, its
    toggle, and the effect that runs after every theme change (swap the root
    element's light/dark class, persist the theme). */
module ThemeContext {
  import StorageService

  /** toggleTheme's updater: light becomes dark, anything else becomes light. */
  function Toggled(theme: string): (r: string)
    ensures r == "dark" <==> theme == "light"
    ensures r == "light" <==> theme != "light"
  {
    if theme == "light" then "dark" else "light"
  }

  /** Toggling twice restores light and dark; any other stored theme becomes
      dark, after first becoming light. */
  lemma ToggleTwice(theme: string)
    ensures theme == "light" || theme == "dark" ==> Toggled(Toggled(theme)) == theme
    ensures theme != "light" && theme != "dark" ==> Toggled(Toggled(theme)) == "dark"
  {
  }

  /** The root's classes after the effect for `theme`. */
  function EffectClasses(classes: set<string>, theme: string): (r: set<string>)
    ensures theme in r
    ensures forall c :: c in r && c != theme ==> c in classes && c != "light" && c != "dark"
    ensures forall c :: c in classes && c != "light" && c != "dark" ==> c in r
  {
    classes - {"light", "dark"} + {theme}
  }

  class ThemeProvider {
    var theme: string
    /** document.documentElement.classList */
    var rootClasses: set<string>
    const store: StorageService.Storage

    /** The class list shows exactly the current theme among light/dark, and the
        store holds the current theme. */
    predicate Valid()
      reads this, store
    {
      && theme != ""
      && theme in rootClasses
      && (theme != "light" ==> "light" !in rootClasses)
      && (theme != "dark" ==> "dark" !in rootClasses)
      && store.Theme() == theme
    }

    /** Mounting: the initial state is the stored theme ("light" by default), and
        the effect runs once. */
    constructor(store: StorageService.Storage, rootClasses: set<string>)
      modifies store
      ensures this.store == store
      ensures theme == old(store.Theme())
      ensures this.rootClasses == EffectClasses(rootClasses, theme)
      ensures store.items == old(store.items)[StorageService.ThemeKey := theme]
      ensures Valid()
    {
      this.store := store;
      theme := store.Theme();
      this.rootClasses := rootClasses;
      new;
      ApplyEffect();
    }

    /** The effect: remove light and dark, add the theme, persist it. It runs
        right after the theme changes, before the classes and the store have
        caught up, so it asks only for a theme (getTheme never yields ""). */
    method ApplyEffect()
      requires theme != ""
      modifies this`rootClasses, store
      ensures rootClasses == EffectClasses(old(rootClasses), theme)
      ensures store.items == old(store.items)[StorageService.ThemeKey := theme]
      ensures Valid()
    {
      rootClasses := EffectClasses(rootClasses, theme);
      store.SetTheme(theme);
    }

    /** toggleTheme, followed by the effect the new theme triggers. */
    method ToggleTheme()
      requires Valid()
      modifies this`theme, this`rootClasses, store
      ensures theme == Toggled(old(theme))
      ensures rootClasses == EffectClasses(old(rootClasses), theme)
      ensures store.items == old(store.items)[StorageService.ThemeKey := theme]
      ensures Valid()
    {
      theme := Toggled(theme);
      ApplyEffect();
    }
  }
}
