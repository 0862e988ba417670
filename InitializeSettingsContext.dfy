/**
 * The settings store of src/initializeSettingsContext/initializeSettingsContext.tsx,
 * with the framework's context, provider and memoisation machinery stripped
 * away: what remains is an object holding the immutable settings collection,
 * the current theming variant (the provider's state) and the settings derived
 * from it, plus the hooks that read them and the setter that changes them.
 */
module InitializeSettingsContext {

  /** `ComponentThemeFactoryArgs`: what a component theme factory is called with. */
  datatype ComponentThemeFactoryArgs<Settings, Variant> =
    ComponentThemeFactoryArgs(settings: Settings, themingVariant: Variant)

  /**
   * What `initializeSettingsContext` sets up, once its provider is mounted.
   * The closed variant type of the source is the key set of
   * `settingsCollection`: only its members may become the current variant.
   */
  class SettingsStore<Settings, Variant(==)> {
    /** The collection passed at initialisation; never changed afterwards. */
    const settingsCollection: map<Variant, Settings>
    /** The provider's state variable. */
    var themingVariant: Variant
    /** The provider's memoised `settings`, recomputed whenever the variant changes. */
    var settings: Settings

    /** The current variant is a declared one and the settings are the ones it selects. */
    ghost predicate Valid()
      reads this
    {
      themingVariant in settingsCollection && settings == settingsCollection[themingVariant]
    }

    /** `initializeSettingsContext({ settingsCollection, initialThemingVariant })`, with its provider mounted. */
    constructor (settingsCollection: map<Variant, Settings>, initialThemingVariant: Variant)
      requires initialThemingVariant in settingsCollection
      ensures Valid()
      ensures this.settingsCollection == settingsCollection
      ensures themingVariant == initialThemingVariant
      ensures settings == settingsCollection[initialThemingVariant]
    {
      this.settingsCollection := settingsCollection;
      themingVariant := initialThemingVariant;
      settings := settingsCollection[initialThemingVariant];
    }

    /** `setThemingVariant(newThemingVariant)`: the state update, then the recomputed memo. */
    method SetThemingVariant(newThemingVariant: Variant)
      requires Valid()
      requires newThemingVariant in settingsCollection
      modifies this`themingVariant, this`settings
      ensures Valid()
      ensures themingVariant == newThemingVariant
      ensures settings == settingsCollection[newThemingVariant]
    {
      themingVariant := newThemingVariant;
      settings := settingsCollection[themingVariant];
    }

    /** `useSettingsCollection()`: reads no state, so it gives the initial collection whatever the variant. */
    function UseSettingsCollection(): (collection: map<Variant, Settings>)
      ensures collection == settingsCollection
    {
      settingsCollection
    }

    /** `useThemingVariant()`: the current variant, always one the collection declares. */
    function UseThemingVariant(): (variant: Variant)
      reads this
      requires Valid()
      ensures variant in settingsCollection
    {
      themingVariant
    }

    /** `useSettings()`: the settings observed belong to the variant observed. */
    function UseSettings(): (current: Settings)
      reads this
      requires Valid()
      ensures current == settingsCollection[UseThemingVariant()]
    {
      settings
    }

    /** `useComponentTheme(componentThemeFactory)`: the factory applied to the current settings and variant. */
    function UseComponentTheme<ComponentTheme>(
      componentThemeFactory: ComponentThemeFactoryArgs<Settings, Variant> -> ComponentTheme
    ): (componentTheme: ComponentTheme)
      reads this
      requires Valid()
      ensures componentTheme ==
        componentThemeFactory(ComponentThemeFactoryArgs(settingsCollection[themingVariant], themingVariant))
    {
      componentThemeFactory(ComponentThemeFactoryArgs(UseSettings(), UseThemingVariant()))
    }
  }

  /** A store's observable state: what the hooks can read. */
  datatype Observed<Settings, Variant> =
    Observed(themingVariant: Variant, settings: Settings, settingsCollection: map<Variant, Settings>)

  /**
   * Setting the same variant twice leaves the state of setting it once; the
   * collection survives both calls unchanged and is the same for every variant.
   */
  method SetTwice<Settings, Variant(==)>(store: SettingsStore<Settings, Variant>, variant: Variant)
    returns (once: Observed<Settings, Variant>, twice: Observed<Settings, Variant>)
    requires store.Valid() && variant in store.settingsCollection
    modifies store`themingVariant, store`settings
    ensures once == twice
    ensures once.themingVariant == variant && once.settings == store.settingsCollection[variant]
    ensures once.settingsCollection == store.settingsCollection
  {
    store.SetThemingVariant(variant);
    once := Observed(store.UseThemingVariant(), store.UseSettings(), store.UseSettingsCollection());
    store.SetThemingVariant(variant);
    twice := Observed(store.UseThemingVariant(), store.UseSettings(), store.UseSettingsCollection());
  }

  /** The scenarios of the store's test suite, with settings as string maps. */
  method TestSuiteScenarios()
  {
    // The initial variant is provided after initialisation.
    var single := new SettingsStore<map<string, string>, string>(map["variant" := map[]], "variant");
    assert single.UseThemingVariant() == "variant";

    // The variant can be changed, and the settings follow it.
    var collection := map["variant1" := map["test" := "variant1"], "variant2" := map["test" := "variant2"]];
    var store := new SettingsStore(collection, "variant1");
    assert store.UseSettings()["test"] == "variant1";
    store.SetThemingVariant("variant2");
    assert store.UseThemingVariant() == "variant2";
    assert store.UseSettings()["test"] == "variant2";

    // The entire collection is provided, whatever the variant.
    assert store.UseSettingsCollection()["variant1"]["test"] == "variant1";
    assert store.UseSettingsCollection()["variant2"]["test"] == "variant2";

    // A component theme is derived from the current settings and variant.
    var theme := store.UseComponentTheme((args: ComponentThemeFactoryArgs<map<string, string>, string>) =>
      if "test" in args.settings then args.settings["test"] + "/" + args.themingVariant else "");
    assert theme == "variant2/variant2";
  }
}
