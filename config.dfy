/**
 * The persisted configuration store (src/contexts/ConfigContext.tsx): the build-time defaults,
 * the lazy load from local storage, the save effect, `updateConfig` and `resetConfig`.
 */
module Config {
  import opened Wrappers
  import opened ConfigCodec

  /** The local-storage key the configuration lives under. */
  const StorageKey := "encore-ui-config"

  const FallbackApiUrl := "http://localhost:8080"

  /**
   * `defaultConfig`, from the two build-time variables (absent when unset); an empty value
   * counts as unset because the fallback is chosen with `||`.
   */
  function DefaultConfig(viteUrl: Option<string>, viteToken: Option<string>): (d: AppConfig)
    ensures viteUrl.Some? && viteUrl.value != "" ==> d.encoreApiUrl == viteUrl.value
    ensures viteUrl.None? || viteUrl.value == "" ==> d.encoreApiUrl == FallbackApiUrl
    ensures viteToken.Some? ==> d.bearerToken == viteToken.value
    ensures viteToken.None? ==> d.bearerToken == ""
  {
    AppConfig(
      if viteUrl.Some? && viteUrl.value != "" then viteUrl.value else FallbackApiUrl,
      viteToken.GetOr(""))
  }

  /** A `Partial<AppConfig>`: `None` is a field the caller left out. */
  datatype PartialConfig = PartialConfig(encoreApiUrl: Option<string>, bearerToken: Option<string>)

  /** `{ ...prev, ...partial }`: exactly the provided fields are replaced. */
  function Merge(prev: AppConfig, partial: PartialConfig): (r: AppConfig)
    ensures partial.encoreApiUrl.Some? ==> r.encoreApiUrl == partial.encoreApiUrl.value
    ensures partial.encoreApiUrl.None? ==> r.encoreApiUrl == prev.encoreApiUrl
    ensures partial.bearerToken.Some? ==> r.bearerToken == partial.bearerToken.value
    ensures partial.bearerToken.None? ==> r.bearerToken == prev.bearerToken
  {
    AppConfig(partial.encoreApiUrl.GetOr(prev.encoreApiUrl), partial.bearerToken.GetOr(prev.bearerToken))
  }

  /** Merging the same fields twice is merging them once, and merging nothing changes nothing. */
  lemma MergeIdempotent(prev: AppConfig, partial: PartialConfig)
    ensures Merge(Merge(prev, partial), partial) == Merge(prev, partial)
    ensures Merge(prev, PartialConfig(None, None)) == prev
  {
  }

  /** `{ ...defaultConfig, ...parsed }` for a parsed flat object; keys other than the two fields are ignored. */
  function Overlay(defaults: AppConfig, saved: map<string, string>): (r: AppConfig)
    ensures UrlKey in saved ==> r.encoreApiUrl == saved[UrlKey]
    ensures UrlKey !in saved ==> r.encoreApiUrl == defaults.encoreApiUrl
    ensures TokenKey in saved ==> r.bearerToken == saved[TokenKey]
    ensures TokenKey !in saved ==> r.bearerToken == defaults.bearerToken
  {
    AppConfig(
      if UrlKey in saved then saved[UrlKey] else defaults.encoreApiUrl,
      if TokenKey in saved then saved[TokenKey] else defaults.bearerToken)
  }

  /** The saved entry, when there is a non-empty one and it parses. */
  function LoadSaved(storage: map<string, string>): (r: Option<map<string, string>>)
    ensures StorageKey !in storage || storage[StorageKey] == "" ==> r.None?
    ensures StorageKey in storage && storage[StorageKey] != "" ==> r == Parse(storage[StorageKey])
  {
    if StorageKey in storage && storage[StorageKey] != "" then Parse(storage[StorageKey]) else None
  }

  /**
   * The lazy initial state: the defaults when nothing usable is saved (no entry, an empty entry, a
   * parse failure), otherwise the saved fields over the defaults.
   */
  function InitialConfig(defaults: AppConfig, storage: map<string, string>): (r: AppConfig)
    ensures LoadSaved(storage).None? ==> r == defaults
    ensures LoadSaved(storage).Some? ==> r == Overlay(defaults, LoadSaved(storage).value)
  {
    match LoadSaved(storage)
    case None => defaults
    case Some(saved) => Overlay(defaults, saved)
  }

  /** Whatever the store saved is what the next load starts from. */
  lemma ReloadRestores(defaults: AppConfig, c: AppConfig, storage: map<string, string>)
    ensures InitialConfig(defaults, storage[StorageKey := Serialize(c)]) == c
  {
    SerializeRoundTrip(c);
  }

  /**
   * The provider's state. `isDefaultRef` records that `config` is the very `defaultConfig`
   * object, which decides whether `setConfig(defaultConfig)` re-renders and so re-runs the save
   * effect. `storage` is the whole of local storage.
   */
  class ConfigStore {
    const defaults: AppConfig
    var config: AppConfig
    var isDefaultRef: bool
    var storage: map<string, string>

    /**
     * After every transition the saved entry is the serialised config, except right after a reset
     * of a config that already was the default object: then the entry stays removed.
     */
    predicate Valid()
      reads this
    {
      && (isDefaultRef ==> config == defaults)
      && (StorageKey in storage ==> storage[StorageKey] == Serialize(config))
      && (StorageKey !in storage ==> isDefaultRef)
    }

    /**
     * Mounting: the lazy load, then the save effect's first run. `defaultConfig` is the
     * module-level constant the provider closes over, that is `DefaultConfig` of the two
     * build-time variables.
     */
    constructor (defaultConfig: AppConfig, initialStorage: map<string, string>)
      ensures Valid()
      ensures defaults == defaultConfig
      ensures config == InitialConfig(defaults, initialStorage)
      ensures isDefaultRef <==> LoadSaved(initialStorage).None?
      ensures storage == initialStorage[StorageKey := Serialize(config)]
    {
      var c := InitialConfig(defaultConfig, initialStorage);
      defaults := defaultConfig;
      config := c;
      isDefaultRef := LoadSaved(initialStorage).None?;
      storage := initialStorage[StorageKey := Serialize(c)];
    }

    /** `updateConfig`: always a new object, so the save effect always runs. */
    method Update(partial: PartialConfig)
      requires Valid()
      modifies this
      ensures Valid()
      ensures config == Merge(old(config), partial)
      ensures !isDefaultRef
      ensures storage == old(storage)[StorageKey := Serialize(config)]
    {
      config := Merge(config, partial);
      isDefaultRef := false;
      storage := storage[StorageKey := Serialize(config)];
    }

    /**
     * `resetConfig`: the config becomes the default object and the entry is removed. When that
     * changed the state, the re-render's save effect writes the default back; when the config
     * already was the default object, nothing re-renders and the entry stays removed.
     */
    method Reset()
      requires Valid()
      modifies this
      ensures Valid()
      ensures config == defaults && isDefaultRef
      ensures old(isDefaultRef) ==> storage == old(storage) - {StorageKey}
      ensures !old(isDefaultRef) ==> storage == old(storage)[StorageKey := Serialize(defaults)]
    {
      var changed := !isDefaultRef;
      config := defaults;
      isDefaultRef := true;
      storage := storage - {StorageKey};
      if changed {
        storage := storage[StorageKey := Serialize(config)];
      }
    }

    /** What a reload of the page would start from. */
    function Reloaded(): (r: AppConfig)
      reads this
      requires Valid()
      ensures r == config
    {
      if StorageKey in storage then
        ReloadRestores(defaults, config, storage);
        assert storage[StorageKey := Serialize(config)] == storage;
        InitialConfig(defaults, storage)
      else
        InitialConfig(defaults, storage)
    }
  }
}
