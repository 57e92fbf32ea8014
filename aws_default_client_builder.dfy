/** The configuration resolution of an AWS client builder: the effective region,
    endpoint and signing region derived from what the caller set on the builder,
    the builder-specific defaults layer, and the finalization that clones the
    builder's mutable configuration and runs the defaults layers over the clone. */
module AwsClientBuilder {
  import opened Wrappers
  import opened ClientConfiguration
  import opened ConfigurationDefaults

  /** The protocol of an endpoint derived from a region. */
  const DefaultEndpointProtocol := "https"

  const RegionNotProvidedMessage := "AWS region not provided"
  const SigningRegionUndeterminedMessage := "The signing region could not be determined."

  /** The exceptions finalization can raise. */
  datatype BuildError =
    | SdkClientException(message: string)
    | IllegalStateException(message: string)

  /** What a concrete service client builder supplies: its endpoint prefix, its
      signing name, and its service-specific defaults hook. */
  datatype ServiceIdentity = ServiceIdentity(endpointPrefix: string, signingName: string, serviceDefaults: Defaults)

  /** The collaborators the builder consults but does not implement.
      - providerRegion: the answer of the default region provider chain (null read as None);
        it is a value, so asking again gives the same answer.
      - signingRegionOf(prefix, region): the service metadata's signing region.
      - buildEndpoint(protocol, prefix, region): the endpoint for a region.
      - defaultCredentialsProvider: the default credentials provider chain.
      - asyncExecutor: what the builder's async executor provider yields, if one is set.
      - globalDefaults: the global defaults layer.
      - defaultHttpClient, defaultAsyncHttpClient: the transport clients bound when none is configured. */
  datatype Environment = Environment(
    providerRegion: Option<Region>,
    signingRegionOf: (string, Region) -> Region,
    buildEndpoint: (string, string, Region) -> Uri,
    defaultCredentialsProvider: CredentialsProvider,
    asyncExecutor: Option<Executor>,
    globalDefaults: Defaults,
    defaultHttpClient: HttpClient,
    defaultAsyncHttpClient: HttpClient)

  /** What the caller put on the builder: the region field and the builder's own
      mutable configuration. */
  datatype BuilderState = BuilderState(region: Option<Region>, config: ConfigState)

  /** Whether the region provider chain may be consulted: only an explicit `false`
      under ENABLE_DEFAULT_REGION_DETECTION turns it off. */
  function UseRegionProviderChain(s: BuilderState): (use: bool)
    ensures !use <==>
            AdvancedOptionValue(s.config.overrideConfiguration, EnableDefaultRegionDetection) == Some(BoolValue(false))
  {
    match AdvancedOptionValue(s.config.overrideConfiguration, EnableDefaultRegionDetection)
    case Some(BoolValue(enabled)) => enabled
    case _ => true
  }

  /** The region of the default provider chain, when the chain may be used. */
  function RegionFromDefaultProvider(s: BuilderState, env: Environment): (r: Option<Region>)
    ensures !UseRegionProviderChain(s) ==> r.None?
    ensures UseRegionProviderChain(s) ==> r == env.providerRegion
  {
    if UseRegionProviderChain(s) then env.providerRegion else None
  }

  /** The effective region: the explicit one, else the provider chain's. */
  function ResolveRegion(s: BuilderState, env: Environment): (r: Option<Region>)
    ensures s.region.Some? ==> r == s.region
    ensures r.Some? <==> s.region.Some? || (UseRegionProviderChain(s) && env.providerRegion.Some?)
    ensures s.region.None? && r.Some? ==> r == env.providerRegion
  {
    if s.region.Some? then s.region else RegionFromDefaultProvider(s, env)
  }

  /** The endpoint derived from the resolved region, using "https". */
  function EndpointFromRegion(s: BuilderState, svc: ServiceIdentity, env: Environment): (r: Option<Uri>)
    ensures r.Some? <==> ResolveRegion(s, env).Some?
    ensures r.Some? ==>
            r.value == env.buildEndpoint(DefaultEndpointProtocol, svc.endpointPrefix, ResolveRegion(s, env).value)
  {
    match ResolveRegion(s, env)
    case Some(region) => Some(env.buildEndpoint(DefaultEndpointProtocol, svc.endpointPrefix, region))
    case None => None
  }

  /** The effective endpoint: the configured one verbatim, else the one derived
      from the resolved region, else none. */
  function ResolveEndpoint(s: BuilderState, svc: ServiceIdentity, env: Environment): (r: Option<Uri>)
    ensures s.config.endpoint.Some? ==> r == s.config.endpoint
    ensures r.None? <==> s.config.endpoint.None? && ResolveRegion(s, env).None?
    ensures s.config.endpoint.None? && r.Some? ==>
            r.value == env.buildEndpoint(DefaultEndpointProtocol, svc.endpointPrefix, ResolveRegion(s, env).value)
  {
    if s.config.endpoint.Some? then s.config.endpoint else EndpointFromRegion(s, svc, env)
  }

  /** The region requests are signed for: the service metadata's signing region of
      the resolved region; an IllegalStateException when no region resolves. */
  function ResolveSigningRegion(s: BuilderState, svc: ServiceIdentity, env: Environment): (r: Result<Region, BuildError>)
    ensures r.Failure? <==> ResolveRegion(s, env).None?
    ensures r.Failure? ==> r.error == IllegalStateException(SigningRegionUndeterminedMessage)
    ensures r.Success? ==> r.value == env.signingRegionOf(svc.endpointPrefix, ResolveRegion(s, env).value)
  {
    match ResolveRegion(s, env)
    case None => Failure(IllegalStateException(SigningRegionUndeterminedMessage))
    case Some(region) => Success(env.signingRegionOf(svc.endpointPrefix, region))
  }

  /** The values the builder-specific layer offers for unset fields, all computed
      from the builder's own state: the resolved endpoint, the default credentials
      provider and the executor of the builder's executor provider. It offers no
      advanced options; those it writes (BuilderOverrideDefaults). */
  function BuilderFieldDefaults(s: BuilderState, svc: ServiceIdentity, env: Environment): (d: Defaults)
    ensures s.config.endpoint.Some? ==> d.endpoint == s.config.endpoint
    ensures d.endpoint.Some? <==> s.config.endpoint.Some? || ResolveRegion(s, env).Some?
    ensures s.config.endpoint.None? && d.endpoint.Some? ==>
              d.endpoint.value == env.buildEndpoint(DefaultEndpointProtocol, svc.endpointPrefix, ResolveRegion(s, env).value)
    ensures d.credentialsProvider == Some(env.defaultCredentialsProvider)
    ensures d.asyncExecutorService == env.asyncExecutor
    ensures d.advancedOptions == map[]
  {
    Defaults(ResolveEndpoint(s, svc, env), Some(env.defaultCredentialsProvider), env.asyncExecutor, map[])
  }

  /** The advanced options the builder-specific layer writes: AWS_REGION (or an
      SdkClientException when no region resolves), SERVICE_SIGNING_NAME and
      SIGNING_REGION, in that order. SIGNING_REGION re-resolves the same region,
      so once AWS_REGION has been written it cannot fail. */
  function BuilderOverrideDefaults(s: BuilderState, svc: ServiceIdentity, env: Environment)
    : (r: Result<map<AdvancedOption, OptionValue>, BuildError>)
    ensures r.Failure? <==> ResolveRegion(s, env).None?
    ensures r.Failure? ==> r.error == SdkClientException(RegionNotProvidedMessage)
    ensures r.Success? ==>
              && ResolveSigningRegion(s, svc, env).Success?
              && r.value.Keys == {AwsRegion, ServiceSigningName, SigningRegion}
              && r.value[AwsRegion] == RegionValue(ResolveRegion(s, env).value)
              && r.value[ServiceSigningName] == TextValue(svc.signingName)
              && r.value[SigningRegion] == RegionValue(ResolveSigningRegion(s, svc, env).value)
  {
    match ResolveRegion(s, env)
    case None => Failure(SdkClientException(RegionNotProvidedMessage))
    case Some(region) =>
      Success(map[AwsRegion := RegionValue(region),
                  ServiceSigningName := TextValue(svc.signingName),
                  SigningRegion := RegionValue(env.signingRegionOf(svc.endpointPrefix, region))])
  }

  /** The builder-specific layer applied to the configuration `c` being finalized.
      Its values come from the builder state `s`, not from `c`: the endpoint,
      credentials provider and (for an asynchronous client) executor only where
      `c` has none, and AWS_REGION, SERVICE_SIGNING_NAME and SIGNING_REGION over
      whatever `c` holds under those keys. */
  function ApplyBuilderLayer(c: ConfigState, s: BuilderState, svc: ServiceIdentity, env: Environment, v: Variant)
    : (r: Result<ConfigState, BuildError>)
    ensures r.Failure? <==> ResolveRegion(s, env).None?
    ensures r.Failure? ==> r.error == SdkClientException(RegionNotProvidedMessage)
    ensures r.Success? ==>
              && r.value.endpoint == Fill(c.endpoint, ResolveEndpoint(s, svc, env))
              && r.value.credentialsProvider == Fill(c.credentialsProvider, Some(env.defaultCredentialsProvider))
              && r.value.asyncExecutorService ==
                 (if v == Async then Fill(c.asyncExecutorService, env.asyncExecutor) else c.asyncExecutorService)
              && r.value.httpClient == c.httpClient
              && r.value.asyncHttpClient == c.asyncHttpClient
    ensures r.Success? ==>
              && AdvancedOptionValue(r.value.overrideConfiguration, AwsRegion) ==
                 Some(RegionValue(ResolveRegion(s, env).value))
              && AdvancedOptionValue(r.value.overrideConfiguration, ServiceSigningName) ==
                 Some(TextValue(svc.signingName))
              && AdvancedOptionValue(r.value.overrideConfiguration, SigningRegion) ==
                 Some(RegionValue(ResolveSigningRegion(s, svc, env).value))
    ensures r.Success? ==>
              forall key | key != AwsRegion && key != ServiceSigningName && key != SigningRegion ::
                AdvancedOptionValue(r.value.overrideConfiguration, key) == AdvancedOptionValue(c.overrideConfiguration, key)
  {
    match BuilderOverrideDefaults(s, svc, env)
    case Failure(e) => Failure(e)
    case Success(written) => Success(WriteAdvancedOptions(ApplyLayer(c, BuilderFieldDefaults(s, svc, env), v), written))
  }

  /** The layers below the builder-specific one, highest precedence first: the
      service-specific layer, then the global one. */
  function LowerLayers(svc: ServiceIdentity, env: Environment): seq<Defaults> {
    [svc.serviceDefaults, env.globalDefaults]
  }

  /** The finalized configuration: a copy of the builder's configuration, then the
      builder-specific, service-specific and global layers, then the transport
      client. A successful finalization always has an endpoint, a credentials
      provider and the transport client of its variant. */
  function Finalized(s: BuilderState, svc: ServiceIdentity, env: Environment, v: Variant)
    : (r: Result<ConfigState, BuildError>)
    ensures r.Success? ==> r.value.endpoint.Some? && r.value.credentialsProvider.Some?
    ensures r.Success? && v == Sync ==> r.value.httpClient.Some?
    ensures r.Success? && v == Async ==> r.value.asyncHttpClient.Some?
  {
    match ApplyBuilderLayer(s.config, s, svc, env, v)
    case Failure(e) => Failure(e)
    case Success(afterBuilder) =>
      var merged := ApplyLayers(afterBuilder, LowerLayers(svc, env), v);
      Success(ApplyHttpClient(merged, env.defaultHttpClient, env.defaultAsyncHttpClient, v))
  }

  /** A client builder: the region field and the mutable configuration the
      setters write, plus what the concrete service builder supplies. Not safe for
      concurrent use. */
  class AwsDefaultClientBuilder {
    const service: ServiceIdentity
    const environment: Environment
    const awsMutableClientConfiguration: MutableConfiguration
    var region: Option<Region>

    /** What the caller has put on the builder. */
    function State(): BuilderState
      reads this, awsMutableClientConfiguration
    {
      BuilderState(region, awsMutableClientConfiguration.Snapshot())
    }

    constructor (service: ServiceIdentity, environment: Environment)
      ensures this.service == service && this.environment == environment
      ensures fresh(awsMutableClientConfiguration)
      ensures State() == BuilderState(None, EmptyConfiguration)
    {
      this.service := service;
      this.environment := environment;
      awsMutableClientConfiguration := new MutableConfiguration();
      region := None;
    }

    /** Sets (or, with None, clears) the explicit region; nothing else changes. */
    method WithRegion(r: Option<Region>)
      modifies this`region
      ensures State() == old(State()).(region := r)
    {
      region := r;
    }

    /** The setter form of WithRegion. */
    method SetRegion(r: Option<Region>)
      modifies this`region
      ensures State() == old(State()).(region := r)
    {
      WithRegion(r);
    }

    /** Sets (or clears) the endpoint override; nothing else changes. */
    method EndpointOverride(e: Option<Uri>)
      modifies awsMutableClientConfiguration
      ensures State() == old(State()).(config := old(State()).config.(endpoint := e))
    {
      awsMutableClientConfiguration.SetEndpoint(e);
    }

    /** Replaces the override configuration; nothing else changes. */
    method WithOverrideConfiguration(oc: OverrideConfiguration)
      modifies awsMutableClientConfiguration
      ensures State() == old(State()).(config := old(State()).config.(overrideConfiguration := oc))
    {
      awsMutableClientConfiguration.SetOverrideConfiguration(oc);
    }

    /** Sets (or clears) the credentials provider; nothing else changes. */
    method WithCredentialsProvider(p: Option<CredentialsProvider>)
      modifies awsMutableClientConfiguration
      ensures State() == old(State()).(config := old(State()).config.(credentialsProvider := p))
    {
      awsMutableClientConfiguration.SetCredentialsProvider(p);
    }

    /** The setter form of WithCredentialsProvider. */
    method SetCredentialsProvider(p: Option<CredentialsProvider>)
      modifies awsMutableClientConfiguration
      ensures State() == old(State()).(config := old(State()).config.(credentialsProvider := p))
    {
      WithCredentialsProvider(p);
    }

    /** Runs the builder-specific layer over `configuration`, computing every value
        from this builder's state; on failure it reports the exception. */
    method ApplyBuilderDefaults(configuration: MutableConfiguration, v: Variant) returns (failure: Option<BuildError>)
      modifies configuration
      ensures ApplyBuilderLayer(old(configuration.Snapshot()), old(State()), service, environment, v) ==
              if failure.Some? then Failure(failure.value) else Success(configuration.Snapshot())
    {
      var s := State();
      var written := BuilderOverrideDefaults(s, service, environment);
      if written.Failure? {
        return Some(written.error);
      }
      ApplyDefaults(configuration, BuilderFieldDefaults(s, service, environment), v);
      PutAdvancedOptions(configuration, written.value);
      failure := None;
    }

    /** Clones the builder's configuration and runs the layers over the clone in the
        fixed order builder, service, global, transport client. */
    method FinalizeClone(v: Variant) returns (r: Result<ConfigState, BuildError>)
      ensures r == Finalized(State(), service, environment, v)
    {
      var configuration := awsMutableClientConfiguration.Clone();
      var failure := ApplyBuilderDefaults(configuration, v);
      if failure.Some? {
        return Failure(failure.value);
      }
      ghost var afterBuilder := configuration.Snapshot();
      ApplyDefaults(configuration, service.serviceDefaults, v);
      ApplyDefaults(configuration, environment.globalDefaults, v);
      ApplyTwoLayers(afterBuilder, service.serviceDefaults, environment.globalDefaults, v);
      BindHttpClient(configuration, environment.defaultHttpClient, environment.defaultAsyncHttpClient, v);
      r := Success(configuration.Snapshot());
    }

    /** The finalized configuration of a synchronous client. */
    method SyncClientConfiguration() returns (r: Result<ConfigState, BuildError>)
      ensures r == Finalized(State(), service, environment, Sync)
    {
      r := FinalizeClone(Sync);
    }

    /** The finalized configuration of an asynchronous client. */
    method AsyncClientConfiguration() returns (r: Result<ConfigState, BuildError>)
      ensures r == Finalized(State(), service, environment, Async)
    {
      r := FinalizeClone(Async);
    }
  }
}
