/**
 * The settings page (src/pages/Settings.tsx): the form over the persisted configuration, the
 * change detector, save, reset and the connection test.
 */
module SettingsPage {
  import opened Wrappers
  import opened Strings
  import opened ConfigCodec
  import Config
  import Api

  /** `url.replace(/\/$/, '') + '/'`: at most one trailing slash is dropped, then one is added. */
  function TestUrl(url: string): (r: string)
    ensures url != [] && url[|url| - 1] == '/' ==> r == url
    ensures url == [] || url[|url| - 1] != '/' ==> r == url + "/"
  {
    (if url != [] && url[|url| - 1] == '/' then url[..|url| - 1] else url) + "/"
  }

  /** The test URL always ends in '/', and normalising it again changes nothing. */
  lemma TestUrlNormal(url: string)
    ensures TestUrl(url) != [] && TestUrl(url)[|TestUrl(url)| - 1] == '/'
    ensures TestUrl(TestUrl(url)) == TestUrl(url)
    ensures TestUrl(url + "/") == url + "/"
  {
  }

  /** The form differs from a configuration: `hasChanges`. */
  predicate Differs(url: string, token: string, config: AppConfig) {
    url != config.encoreApiUrl || token != config.bearerToken
  }

  datatype ConnectionStatus = Idle | Success | Failure

  /** What the `fetch` of the test URL did: a response with its `ok` flag, or an exception. */
  datatype FetchOutcome = Responded(ok: bool) | Threw

  /** The connection test's request: `GET <test URL>` with the form's headers. */
  datatype TestRequest = TestRequest(url: string, headers: map<string, string>)

  /** The form state: the two fields, the test flag and the test result, over the shared store. */
  class SettingsForm {
    const store: Config.ConfigStore
    var url: string
    var token: string
    var isTesting: bool
    var status: ConnectionStatus

    predicate Valid()
      reads this, store
    {
      store.Valid()
    }

    /** The fields start from the configuration (the token as `config.bearerToken || ''`). */
    constructor (s: Config.ConfigStore)
      requires s.Valid()
      ensures Valid() && store == s
      ensures url == s.config.encoreApiUrl && token == s.config.bearerToken
      ensures !isTesting && status == Idle
      ensures !HasChanges()
    {
      store := s;
      url := s.config.encoreApiUrl;
      token := s.config.bearerToken;
      isTesting := false;
      status := Idle;
    }

    /** Save is enabled exactly when the form differs from the live configuration. */
    predicate HasChanges()
      reads this, store
    {
      Differs(url, token, store.config)
    }

    method EditUrl(value: string)
      modifies this
      ensures url == value && token == old(token) && isTesting == old(isTesting) && status == old(status)
    {
      url := value;
    }

    method EditToken(value: string)
      modifies this
      ensures token == value && url == old(url) && isTesting == old(isTesting) && status == old(status)
    {
      token := value;
    }

    /**
     * The Save button: disabled without changes; otherwise `updateConfig` with both fields. Either
     * way the configuration then equals the form, so nothing is left to save.
     */
    method Save()
      requires Valid()
      modifies store
      ensures Valid()
      ensures store.config == AppConfig(url, token)
      ensures !HasChanges()
      ensures old(HasChanges()) ==> store.storage == old(store.storage)[Config.StorageKey := Serialize(store.config)]
      ensures !old(HasChanges()) ==> store.storage == old(store.storage)
    {
      if HasChanges() {
        store.Update(Config.PartialConfig(Some(url), Some(token)));
      }
    }

    /**
     * `handleReset` as written: the store is reset, but the fields are set from the `config`
     * captured when the page rendered, which is the configuration from before the reset.
     */
    method ResetAsWritten()
      requires Valid()
      modifies this, store
      ensures Valid()
      ensures store.config == store.defaults
      ensures url == old(store.config).encoreApiUrl && token == old(store.config).bearerToken
      ensures HasChanges() <==> old(store.config) != store.defaults
      ensures isTesting == old(isTesting) && status == old(status)
    {
      var rendered := store.config;
      store.Reset();
      url := rendered.encoreApiUrl;
      token := rendered.bearerToken;
    }

    /** The reset the page evidently intends: the store and the fields both return to the defaults. */
    method Reset()
      requires Valid()
      modifies this, store
      ensures Valid()
      ensures store.config == store.defaults
      ensures url == store.defaults.encoreApiUrl && token == store.defaults.bearerToken
      ensures !HasChanges()
      ensures isTesting == old(isTesting) && status == old(status)
    {
      store.Reset();
      url := store.defaults.encoreApiUrl;
      token := store.defaults.bearerToken;
    }

    /**
     * The button press that starts `testConnection`: ignored while a test runs; otherwise the
     * flag is raised, the status cleared and the request built from the current fields.
     */
    method StartTest() returns (request: Option<TestRequest>)
      modifies this
      ensures old(isTesting) ==> request.None? && isTesting && status == old(status)
      ensures !old(isTesting) ==> request.Some? && isTesting && status == Idle
      ensures request.Some? ==> request.value.url == TestUrl(url)
      ensures request.Some? ==> ("Authorization" in request.value.headers <==> Api.HasToken(Some(token)))
      ensures request.Some? && "Authorization" in request.value.headers ==>
        request.value.headers["Authorization"] == "Bearer " + Trim(token)
      ensures url == old(url) && token == old(token)
    {
      if isTesting {
        return None;
      }
      isTesting := true;
      status := Idle;
      var headers := Api.ClientHeaders(Some(token));
      request := Some(TestRequest(TestUrl(url), headers));
    }

    /** The settled `fetch`: success exactly on an ok response; the flag drops in `finally`. */
    method FinishTest(outcome: FetchOutcome)
      modifies this
      ensures status == Success <==> outcome == Responded(true)
      ensures status == Failure <==> outcome != Responded(true)
      ensures !isTesting
      ensures url == old(url) && token == old(token)
    {
      if outcome.Responded? && outcome.ok {
        status := Success;
      } else {
        status := Failure;
      }
      isTesting := false;
    }
  }

  /**
   * The stale reset, on values: with a saved configuration that differs from the defaults, the
   * fields after `handleReset` still differ from the live (default) configuration, so Save stays
   * enabled and would write the old configuration back.
   */
  lemma ResetLeavesStaleFields(rendered: AppConfig, defaults: AppConfig)
    requires rendered != defaults
    ensures Differs(rendered.encoreApiUrl, rendered.bearerToken, defaults)
  {
  }

  /** A concrete case: a saved custom URL and token survive a reset in the form. */
  lemma ResetCounterexample()
    ensures var rendered := AppConfig("http://encore.example:8080", "secret");
      var defaults := Config.DefaultConfig(None, None);
      Differs(rendered.encoreApiUrl, rendered.bearerToken, defaults)
  {
  }
}
