/** Defaults layers: each offers values for the fields of a client configuration
    and fills only the fields that are still unset, so that a value already
    present (set by the customer or by an earlier layer) always wins. */
module ConfigurationDefaults {
  import opened Wrappers
  import opened ClientConfiguration

  /** Which finalization is running: a synchronous or an asynchronous client's. */
  datatype Variant = Sync | Async

  /** The values one defaults layer offers. The asynchronous executor is offered
      only when an asynchronous configuration is finalized. */
  datatype Defaults = Defaults(
    endpoint: Option<Uri>,
    credentialsProvider: Option<CredentialsProvider>,
    asyncExecutorService: Option<Executor>,
    advancedOptions: map<AdvancedOption, OptionValue>)

  /** A layer that offers nothing (the default service-specific hook). */
  const NoDefaults := Defaults(None, None, None, map[])

  /** `current` if it is set, otherwise `default`. */
  function Fill<T>(current: Option<T>, default: Option<T>): Option<T> {
    if current.Some? then current else default
  }

  /** `after` keeps every value that is set in `before`. */
  ghost predicate KeepsSetValues(before: ConfigState, after: ConfigState) {
    (before.endpoint.Some? ==> after.endpoint == before.endpoint) &&
    (before.credentialsProvider.Some? ==> after.credentialsProvider == before.credentialsProvider) &&
    (before.asyncExecutorService.Some? ==> after.asyncExecutorService == before.asyncExecutorService) &&
    (before.httpClient.Some? ==> after.httpClient == before.httpClient) &&
    (before.asyncHttpClient.Some? ==> after.asyncHttpClient == before.asyncHttpClient) &&
    forall key :: key in before.overrideConfiguration.advancedOptions ==>
      AdvancedOptionValue(after.overrideConfiguration, key) == AdvancedOptionValue(before.overrideConfiguration, key)
  }

  /** Applies one defaults layer: every unset field takes the layer's value.
      The transport clients are not a layer's business. */
  function ApplyLayer(c: ConfigState, d: Defaults, v: Variant): (r: ConfigState)
    ensures KeepsSetValues(c, r)
    ensures r.httpClient == c.httpClient && r.asyncHttpClient == c.asyncHttpClient
    ensures v == Sync ==> r.asyncExecutorService == c.asyncExecutorService
    ensures forall key :: key in r.overrideConfiguration.advancedOptions ==>
      key in c.overrideConfiguration.advancedOptions || key in d.advancedOptions
  {
    c.(endpoint := Fill(c.endpoint, d.endpoint),
       credentialsProvider := Fill(c.credentialsProvider, d.credentialsProvider),
       asyncExecutorService :=
         if v == Async then Fill(c.asyncExecutorService, d.asyncExecutorService) else c.asyncExecutorService,
       overrideConfiguration :=
         OverrideConfiguration(d.advancedOptions + c.overrideConfiguration.advancedOptions))
  }

  /** A layer that offers nothing leaves every configuration as it is. */
  lemma NoDefaultsChangesNothing(c: ConfigState, v: Variant)
    ensures ApplyLayer(c, NoDefaults, v) == c
  {
    assert NoDefaults.advancedOptions + c.overrideConfiguration.advancedOptions == c.overrideConfiguration.advancedOptions;
  }

  /** Applies the layers in order, highest precedence first. */
  function ApplyLayers(c: ConfigState, layers: seq<Defaults>, v: Variant): (r: ConfigState)
    ensures KeepsSetValues(c, r)
    ensures r.httpClient == c.httpClient && r.asyncHttpClient == c.asyncHttpClient
    ensures v == Sync ==> r.asyncExecutorService == c.asyncExecutorService
    decreases |layers|
  {
    if layers == [] then c else ApplyLayers(ApplyLayer(c, layers[0], v), layers[1..], v)
  }

  /** Two layers in a row: the first one, then the second over its result. */
  lemma ApplyTwoLayers(c: ConfigState, first: Defaults, second: Defaults, v: Variant)
    ensures ApplyLayers(c, [first, second], v) == ApplyLayer(ApplyLayer(c, first, v), second, v)
  {
    var afterFirst := ApplyLayer(c, first, v);
    assert [first, second][1..] == [second];
    assert ApplyLayers(c, [first, second], v) == ApplyLayers(afterFirst, [second], v);
    assert [second][1..] == [];
    assert ApplyLayers(afterFirst, [second], v) == ApplyLayers(ApplyLayer(afterFirst, second, v), [], v);
  }

  /** Writes advanced options over whatever is there (an override-configuration
      builder's `advancedOption(key, value)`: the last write for a key wins). */
  function WriteAdvancedOptions(c: ConfigState, written: map<AdvancedOption, OptionValue>): (r: ConfigState)
    ensures forall key :: key in written ==> AdvancedOptionValue(r.overrideConfiguration, key) == Some(written[key])
    ensures forall key :: key !in written ==>
      AdvancedOptionValue(r.overrideConfiguration, key) == AdvancedOptionValue(c.overrideConfiguration, key)
    ensures r.(overrideConfiguration := c.overrideConfiguration) == c
  {
    c.(overrideConfiguration := OverrideConfiguration(c.overrideConfiguration.advancedOptions + written))
  }

  /** Binds the default transport client of the variant being finalized, unless
      one is configured: the blocking default for a synchronous client, the
      non-blocking default for an asynchronous one. The other variant's client
      and every other field stay as they are. */
  function ApplyHttpClient(c: ConfigState, syncDefault: HttpClient, asyncDefault: HttpClient, v: Variant)
    : (r: ConfigState)
    ensures KeepsSetValues(c, r)
    ensures v == Sync ==> r.asyncHttpClient == c.asyncHttpClient
    ensures v == Sync && c.httpClient.None? ==> r.httpClient == Some(syncDefault)
    ensures v == Async ==> r.httpClient == c.httpClient
    ensures v == Async && c.asyncHttpClient.None? ==> r.asyncHttpClient == Some(asyncDefault)
    ensures r.(httpClient := c.httpClient, asyncHttpClient := c.asyncHttpClient) == c
  {
    if v == Sync then c.(httpClient := Fill(c.httpClient, Some(syncDefault)))
    else c.(asyncHttpClient := Fill(c.asyncHttpClient, Some(asyncDefault)))
  }

  /** The first candidate that is set: the value that wins when candidates are
      listed from the highest precedence to the lowest. */
  function FirstPresent<T>(candidates: seq<Option<T>>): Option<T> {
    if candidates == [] then None
    else if candidates[0].Some? then candidates[0]
    else FirstPresent(candidates[1..])
  }

  lemma {:induction false} FirstPresentIsFirstSet<T>(candidates: seq<Option<T>>, i: nat)
    requires i < |candidates| && candidates[i].Some?
    requires forall j | 0 <= j < i :: candidates[j].None?
    ensures FirstPresent(candidates) == candidates[i]
  {
    if i > 0 {
      FirstPresentIsFirstSet(candidates[1..], i - 1);
    }
  }

  lemma {:induction false} FirstPresentNone<T>(candidates: seq<Option<T>>)
    ensures FirstPresent(candidates).None? <==> forall j | 0 <= j < |candidates| :: candidates[j].None?
  {
    if candidates != [] {
      FirstPresentNone(candidates[1..]);
      assert forall j | 1 <= j < |candidates| :: candidates[j] == candidates[1..][j - 1];
    }
  }

  /** Filling `current` from `default` and then looking further down the list
      is the same as looking at `current`, then `default`, then the list. */
  lemma FirstPresentFill<T>(current: Option<T>, default: Option<T>, rest: seq<Option<T>>)
    ensures FirstPresent([Fill(current, default)] + rest) == FirstPresent([current] + ([default] + rest))
  {
    assert ([Fill(current, default)] + rest)[1..] == rest;
    assert ([current] + ([default] + rest))[1..] == [default] + rest;
    assert ([default] + rest)[1..] == rest;
  }

  function EndpointDefault(d: Defaults): Option<Uri> { d.endpoint }
  function CredentialsDefault(d: Defaults): Option<CredentialsProvider> { d.credentialsProvider }
  function ExecutorDefault(d: Defaults): Option<Executor> { d.asyncExecutorService }

  /** The value each layer offers for one field, in layer order. */
  function Offered<T>(layers: seq<Defaults>, field: Defaults -> Option<T>): seq<Option<T>>
    decreases |layers|
  {
    if layers == [] then [] else [field(layers[0])] + Offered(layers[1..], field)
  }

  /** What a layer offers for one advanced option. */
  function OptionDefault(key: AdvancedOption): Defaults -> Option<OptionValue> {
    (d: Defaults) => Get(d.advancedOptions, key)
  }

  /** What two layers offer, listed. */
  lemma OfferedByTwo<T>(first: Defaults, second: Defaults, field: Defaults -> Option<T>)
    ensures Offered([first, second], field) == [field(first), field(second)]
  {
    assert [first, second][1..] == [second];
    assert [second][1..] == [];
    assert Offered([second], field) == [field(second)] + Offered([], field);
  }

  /** Precedence of a sequence of layers: each field ends up with the value of the
      first source that sets it, the configuration itself first, then the layers
      in order. */
  lemma {:induction false} LayersPrecedence(c: ConfigState, layers: seq<Defaults>, v: Variant, key: AdvancedOption)
    ensures ApplyLayers(c, layers, v).endpoint == FirstPresent([c.endpoint] + Offered(layers, EndpointDefault))
    ensures ApplyLayers(c, layers, v).credentialsProvider ==
      FirstPresent([c.credentialsProvider] + Offered(layers, CredentialsDefault))
    ensures v == Async ==>
              ApplyLayers(c, layers, v).asyncExecutorService ==
              FirstPresent([c.asyncExecutorService] + Offered(layers, ExecutorDefault))
    ensures AdvancedOptionValue(ApplyLayers(c, layers, v).overrideConfiguration, key) ==
      FirstPresent([AdvancedOptionValue(c.overrideConfiguration, key)] + Offered(layers, OptionDefault(key)))
    decreases |layers|
  {
    if layers == [] {
      assert [c.endpoint] + Offered(layers, EndpointDefault) == [c.endpoint];
      assert [c.credentialsProvider] + Offered(layers, CredentialsDefault) == [c.credentialsProvider];
      assert [c.asyncExecutorService] + Offered(layers, ExecutorDefault) == [c.asyncExecutorService];
      assert [AdvancedOptionValue(c.overrideConfiguration, key)] + Offered(layers, OptionDefault(key)) ==
        [AdvancedOptionValue(c.overrideConfiguration, key)];
    } else {
      var d := layers[0];
      var next := ApplyLayer(c, d, v);
      LayersPrecedence(next, layers[1..], v, key);
      FirstPresentFill(c.endpoint, d.endpoint, Offered(layers[1..], EndpointDefault));
      FirstPresentFill(c.credentialsProvider, d.credentialsProvider, Offered(layers[1..], CredentialsDefault));
      FirstPresentFill(c.asyncExecutorService, d.asyncExecutorService, Offered(layers[1..], ExecutorDefault));
      FirstPresentFill(AdvancedOptionValue(c.overrideConfiguration, key), Get(d.advancedOptions, key),
                       Offered(layers[1..], OptionDefault(key)));
      assert AdvancedOptionValue(next.overrideConfiguration, key) ==
        Fill(AdvancedOptionValue(c.overrideConfiguration, key), Get(d.advancedOptions, key));
    }
  }

  /** Precedence of two layers in a row, listed out. */
  lemma TwoLayersPrecedence(c: ConfigState, first: Defaults, second: Defaults, v: Variant, key: AdvancedOption)
    ensures ApplyLayers(c, [first, second], v).endpoint == FirstPresent([c.endpoint, first.endpoint, second.endpoint])
    ensures ApplyLayers(c, [first, second], v).credentialsProvider ==
            FirstPresent([c.credentialsProvider, first.credentialsProvider, second.credentialsProvider])
    ensures v == Async ==>
              ApplyLayers(c, [first, second], v).asyncExecutorService ==
              FirstPresent([c.asyncExecutorService, first.asyncExecutorService, second.asyncExecutorService])
    ensures AdvancedOptionValue(ApplyLayers(c, [first, second], v).overrideConfiguration, key) ==
            FirstPresent([AdvancedOptionValue(c.overrideConfiguration, key),
                          Get(first.advancedOptions, key), Get(second.advancedOptions, key)])
  {
    LayersPrecedence(c, [first, second], v, key);
    OfferedByTwo(first, second, EndpointDefault);
    OfferedByTwo(first, second, CredentialsDefault);
    OfferedByTwo(first, second, ExecutorDefault);
    OfferedByTwo(first, second, OptionDefault(key));
    assert [c.endpoint] + [first.endpoint, second.endpoint] == [c.endpoint, first.endpoint, second.endpoint];
    assert [c.credentialsProvider] + [first.credentialsProvider, second.credentialsProvider] ==
           [c.credentialsProvider, first.credentialsProvider, second.credentialsProvider];
    assert [c.asyncExecutorService] + [first.asyncExecutorService, second.asyncExecutorService] ==
           [c.asyncExecutorService, first.asyncExecutorService, second.asyncExecutorService];
    assert [AdvancedOptionValue(c.overrideConfiguration, key)] +
           [Get(first.advancedOptions, key), Get(second.advancedOptions, key)] ==
           [AdvancedOptionValue(c.overrideConfiguration, key), Get(first.advancedOptions, key),
            Get(second.advancedOptions, key)];
  }

  /** A value filled from a default, then two more candidates, is the first set of all four. */
  lemma FirstPresentFillThenTwo<T>(current: Option<T>, default: Option<T>, third: Option<T>, fourth: Option<T>)
    ensures FirstPresent([Fill(current, default), third, fourth]) == FirstPresent([current, default, third, fourth])
  {
    FirstPresentFill(current, default, [third, fourth]);
    assert [Fill(current, default)] + [third, fourth] == [Fill(current, default), third, fourth];
    assert [current] + ([default] + [third, fourth]) == [current, default, third, fourth];
  }

  /** The imperative form of ApplyLayer: fills the unset fields of `config` in place. */
  method ApplyDefaults(config: MutableConfiguration, d: Defaults, v: Variant)
    modifies config
    ensures config.Snapshot() == ApplyLayer(old(config.Snapshot()), d, v)
  {
    if config.endpoint.None? {
      config.endpoint := d.endpoint;
    }
    if config.credentialsProvider.None? {
      config.credentialsProvider := d.credentialsProvider;
    }
    if v == Async && config.asyncExecutorService.None? {
      config.asyncExecutorService := d.asyncExecutorService;
    }
    config.overrideConfiguration :=
      OverrideConfiguration(d.advancedOptions + config.overrideConfiguration.advancedOptions);
  }

  /** The imperative form of WriteAdvancedOptions. */
  method PutAdvancedOptions(config: MutableConfiguration, written: map<AdvancedOption, OptionValue>)
    modifies config
    ensures config.Snapshot() == WriteAdvancedOptions(old(config.Snapshot()), written)
  {
    config.overrideConfiguration := OverrideConfiguration(config.overrideConfiguration.advancedOptions + written);
  }

  /** The imperative form of ApplyHttpClient. */
  method BindHttpClient(config: MutableConfiguration, syncDefault: HttpClient, asyncDefault: HttpClient, v: Variant)
    modifies config
    ensures config.Snapshot() == ApplyHttpClient(old(config.Snapshot()), syncDefault, asyncDefault, v)
  {
    if v == Sync && config.httpClient.None? {
      config.httpClient := Some(syncDefault);
    } else if v == Async && config.asyncHttpClient.None? {
      config.asyncHttpClient := Some(asyncDefault);
    }
  }
}
