/** What finalization guarantees: when it fails, that the region and signing
    options agree, the precedence of customer values over the defaults layers,
    and the fallback scenarios of region and endpoint resolution. */
module BuilderProperties {
  import opened Wrappers
  import opened ClientConfiguration
  import opened ConfigurationDefaults
  import opened AwsClientBuilder

  /** Finalization fails exactly when no region resolves, and then with the
      SdkClientException of AWS_REGION, never the IllegalStateException of the
      signing region, which is asked for after it. */
  lemma FinalizationFailsExactlyWithoutRegion(s: BuilderState, svc: ServiceIdentity, env: Environment, v: Variant)
    ensures Finalized(s, svc, env, v).Failure? <==> ResolveRegion(s, env).None?
    ensures Finalized(s, svc, env, v).Failure? ==>
            Finalized(s, svc, env, v).error == SdkClientException(RegionNotProvidedMessage)
  {
  }

  /** A successful finalization is the lower layers and the transport client over
      the builder-specific layer's result. */
  lemma FinalizedUnfolds(s: BuilderState, svc: ServiceIdentity, env: Environment, v: Variant)
    requires ResolveRegion(s, env).Some?
    ensures Finalized(s, svc, env, v) ==
            Success(ApplyHttpClient(ApplyLayers(ApplyBuilderLayer(s.config, s, svc, env, v).value,
                                                LowerLayers(svc, env), v),
                                    env.defaultHttpClient, env.defaultAsyncHttpClient, v))
  {
  }

  /** AWS_REGION, SERVICE_SIGNING_NAME and SIGNING_REGION of a finalized
      configuration come from one resolved region and the signing name, whatever
      the customer or the lower layers put under those keys. */
  lemma FinalizedRegionOptionsAgree(s: BuilderState, svc: ServiceIdentity, env: Environment, v: Variant)
    requires Finalized(s, svc, env, v).Success?
    ensures ResolveRegion(s, env).Some?
    ensures AdvancedOptionValue(Finalized(s, svc, env, v).value.overrideConfiguration, AwsRegion) ==
            Some(RegionValue(ResolveRegion(s, env).value))
    ensures AdvancedOptionValue(Finalized(s, svc, env, v).value.overrideConfiguration, ServiceSigningName) ==
            Some(TextValue(svc.signingName))
    ensures AdvancedOptionValue(Finalized(s, svc, env, v).value.overrideConfiguration, SigningRegion) ==
            Some(RegionValue(ResolveSigningRegion(s, svc, env).value))
  {
    FinalizedUnfolds(s, svc, env, v);
    var afterBuilder := ApplyBuilderLayer(s.config, s, svc, env, v).value;
    var written := BuilderOverrideDefaults(s, svc, env).value;
    assert AwsRegion in written && ServiceSigningName in written && SigningRegion in written;
    assert AwsRegion in afterBuilder.overrideConfiguration.advancedOptions;
    assert ServiceSigningName in afterBuilder.overrideConfiguration.advancedOptions;
    assert SigningRegion in afterBuilder.overrideConfiguration.advancedOptions;
  }

  /** A successful finalization holds the values the lower layers leave over the
      builder-specific layer's result; binding the transport client changes none of them. */
  lemma FinalizedFields(s: BuilderState, svc: ServiceIdentity, env: Environment, v: Variant)
    requires Finalized(s, svc, env, v).Success?
    ensures ResolveRegion(s, env).Some?
    ensures var merged := ApplyLayers(ApplyBuilderLayer(s.config, s, svc, env, v).value, LowerLayers(svc, env), v);
            && Finalized(s, svc, env, v).value.endpoint == merged.endpoint
            && Finalized(s, svc, env, v).value.credentialsProvider == merged.credentialsProvider
            && Finalized(s, svc, env, v).value.asyncExecutorService == merged.asyncExecutorService
            && Finalized(s, svc, env, v).value.overrideConfiguration == merged.overrideConfiguration
  {
    FinalizedUnfolds(s, svc, env, v);
  }

  /** The endpoint of a finalized configuration is the first set among the
      customer's, the builder-specific layer's, the service layer's and the global
      layer's. */
  lemma FinalizationEndpointPrecedence(s: BuilderState, svc: ServiceIdentity, env: Environment, v: Variant)
    requires Finalized(s, svc, env, v).Success?
    ensures Finalized(s, svc, env, v).value.endpoint ==
            FirstPresent([s.config.endpoint, ResolveEndpoint(s, svc, env),
                          svc.serviceDefaults.endpoint, env.globalDefaults.endpoint])
  {
    FinalizedFields(s, svc, env, v);
    var afterBuilder := ApplyBuilderLayer(s.config, s, svc, env, v).value;
    TwoLayersPrecedence(afterBuilder, svc.serviceDefaults, env.globalDefaults, v, AwsRegion);
    FirstPresentFillThenTwo(s.config.endpoint, ResolveEndpoint(s, svc, env),
                            svc.serviceDefaults.endpoint, env.globalDefaults.endpoint);
  }

  /** The credentials provider of a finalized configuration is the first set among
      the customer's, the default credentials provider, the service layer's and the
      global layer's. */
  lemma FinalizationCredentialsPrecedence(s: BuilderState, svc: ServiceIdentity, env: Environment, v: Variant)
    requires Finalized(s, svc, env, v).Success?
    ensures Finalized(s, svc, env, v).value.credentialsProvider ==
            FirstPresent([s.config.credentialsProvider, Some(env.defaultCredentialsProvider),
                          svc.serviceDefaults.credentialsProvider, env.globalDefaults.credentialsProvider])
  {
    FinalizedFields(s, svc, env, v);
    var afterBuilder := ApplyBuilderLayer(s.config, s, svc, env, v).value;
    TwoLayersPrecedence(afterBuilder, svc.serviceDefaults, env.globalDefaults, v, AwsRegion);
    FirstPresentFillThenTwo(s.config.credentialsProvider, Some(env.defaultCredentialsProvider),
                            svc.serviceDefaults.credentialsProvider, env.globalDefaults.credentialsProvider);
  }

  /** The executor of a finalized asynchronous configuration is the first set
      among the customer's, the builder's executor provider's, the service
      layer's and the global layer's; a synchronous finalization leaves it as the
      customer set it. */
  lemma FinalizationExecutorPrecedence(s: BuilderState, svc: ServiceIdentity, env: Environment, v: Variant)
    requires Finalized(s, svc, env, v).Success?
    ensures v == Async ==>
              Finalized(s, svc, env, v).value.asyncExecutorService ==
              FirstPresent([s.config.asyncExecutorService, env.asyncExecutor,
                            svc.serviceDefaults.asyncExecutorService, env.globalDefaults.asyncExecutorService])
    ensures v == Sync ==> Finalized(s, svc, env, v).value.asyncExecutorService == s.config.asyncExecutorService
  {
    FinalizedFields(s, svc, env, v);
    var afterBuilder := ApplyBuilderLayer(s.config, s, svc, env, v).value;
    TwoLayersPrecedence(afterBuilder, svc.serviceDefaults, env.globalDefaults, v, AwsRegion);
    FirstPresentFillThenTwo(s.config.asyncExecutorService, env.asyncExecutor,
                            svc.serviceDefaults.asyncExecutorService, env.globalDefaults.asyncExecutorService);
  }

  /** Precedence of advanced options in a finalized configuration: an option the
      builder-specific layer does not write holds the first value set among the
      customer's, the service layer's and the global layer's, so a value the
      customer set (an ENABLE_DEFAULT_REGION_DETECTION of `false`, say) is never
      replaced by a lower layer. */
  lemma FinalizationOptionPrecedence(s: BuilderState, svc: ServiceIdentity, env: Environment, v: Variant,
                                     key: AdvancedOption)
    requires Finalized(s, svc, env, v).Success?
    requires key != AwsRegion && key != ServiceSigningName && key != SigningRegion
    ensures AdvancedOptionValue(Finalized(s, svc, env, v).value.overrideConfiguration, key) ==
            FirstPresent([AdvancedOptionValue(s.config.overrideConfiguration, key),
                          Get(svc.serviceDefaults.advancedOptions, key),
                          Get(env.globalDefaults.advancedOptions, key)])
  {
    FinalizedFields(s, svc, env, v);
    var afterBuilder := ApplyBuilderLayer(s.config, s, svc, env, v).value;
    TwoLayersPrecedence(afterBuilder, svc.serviceDefaults, env.globalDefaults, v, key);
    assert AdvancedOptionValue(afterBuilder.overrideConfiguration, key) ==
           AdvancedOptionValue(s.config.overrideConfiguration, key);
  }

  /** A finalized configuration always has an endpoint: the configured one
      verbatim, otherwise the one built from the resolved region with "https". */
  lemma FinalizedEndpoint(s: BuilderState, svc: ServiceIdentity, env: Environment, v: Variant)
    requires Finalized(s, svc, env, v).Success?
    ensures s.config.endpoint.Some? ==> Finalized(s, svc, env, v).value.endpoint == s.config.endpoint
    ensures s.config.endpoint.None? ==>
              Finalized(s, svc, env, v).value.endpoint ==
              Some(env.buildEndpoint(DefaultEndpointProtocol, svc.endpointPrefix, ResolveRegion(s, env).value))
  {
    FinalizedUnfolds(s, svc, env, v);
    assert ApplyBuilderLayer(s.config, s, svc, env, v).value.endpoint == ResolveEndpoint(s, svc, env);
  }

  /** A credentials provider the customer set survives every defaults layer. */
  lemma CustomerCredentialsProviderWins(s: BuilderState, svc: ServiceIdentity, env: Environment, v: Variant,
                                        p: CredentialsProvider)
    requires s.config.credentialsProvider == Some(p)
    requires Finalized(s, svc, env, v).Success?
    ensures Finalized(s, svc, env, v).value.credentialsProvider == Some(p)
  {
    FinalizedUnfolds(s, svc, env, v);
  }

  /** Region resolution reads the builder's own configuration, so what the
      service and global layers offer (an ENABLE_DEFAULT_REGION_DETECTION of
      `false`, say) changes neither whether finalization succeeds nor the region
      options it writes. */
  lemma LowerLayersCannotChangeRegion(s: BuilderState, svc: ServiceIdentity, env: Environment, v: Variant,
                                      serviceDefaults: Defaults, globalDefaults: Defaults)
    ensures Finalized(s, svc.(serviceDefaults := serviceDefaults), env.(globalDefaults := globalDefaults), v).Success?
            == Finalized(s, svc, env, v).Success?
    ensures Finalized(s, svc, env, v).Success? ==>
              var oc := Finalized(s, svc, env, v).value.overrideConfiguration;
              var oc' := Finalized(s, svc.(serviceDefaults := serviceDefaults),
                                   env.(globalDefaults := globalDefaults), v).value.overrideConfiguration;
              && AdvancedOptionValue(oc', AwsRegion) == AdvancedOptionValue(oc, AwsRegion)
              && AdvancedOptionValue(oc', SigningRegion) ==
                 AdvancedOptionValue(oc, SigningRegion)
  {
    var svc' := svc.(serviceDefaults := serviceDefaults);
    var env' := env.(globalDefaults := globalDefaults);
    if Finalized(s, svc, env, v).Success? {
      FinalizedRegionOptionsAgree(s, svc, env, v);
      FinalizedRegionOptionsAgree(s, svc', env', v);
    }
  }

  /** The builder-specific layer resolves the region from the builder's own
      configuration, not from the configuration it fills: whatever `c` holds (an
      ENABLE_DEFAULT_REGION_DETECTION of `false`, say), the layer succeeds and
      writes AWS_REGION and SIGNING_REGION just as over the builder's configuration. */
  lemma BuilderLayerReadsBuilderState(c: ConfigState, s: BuilderState, svc: ServiceIdentity, env: Environment,
                                      v: Variant)
    ensures ApplyBuilderLayer(c, s, svc, env, v).Success? == ApplyBuilderLayer(s.config, s, svc, env, v).Success?
    ensures ApplyBuilderLayer(c, s, svc, env, v).Success? ==>
              var oc := ApplyBuilderLayer(c, s, svc, env, v).value.overrideConfiguration;
              var oc' := ApplyBuilderLayer(s.config, s, svc, env, v).value.overrideConfiguration;
              && AdvancedOptionValue(oc, AwsRegion) == AdvancedOptionValue(oc', AwsRegion)
              && AdvancedOptionValue(oc, SigningRegion) == AdvancedOptionValue(oc', SigningRegion)
  {
  }

  /** No explicit region and region detection switched off: no region resolves,
      the endpoint is only what was configured, the signing region is an
      IllegalStateException and finalization fails with "AWS region not provided". */
  lemma DetectionDisabledWithoutRegion(s: BuilderState, svc: ServiceIdentity, env: Environment, v: Variant)
    requires s.region.None?
    requires AdvancedOptionValue(s.config.overrideConfiguration, EnableDefaultRegionDetection) == Some(BoolValue(false))
    ensures ResolveRegion(s, env).None?
    ensures ResolveEndpoint(s, svc, env) == s.config.endpoint
    ensures ResolveSigningRegion(s, svc, env) == Failure(IllegalStateException(SigningRegionUndeterminedMessage))
    ensures Finalized(s, svc, env, v) == Failure(SdkClientException(RegionNotProvidedMessage))
  {
  }

  /** No explicit region and the provider chain answers `region`: that one region
      is used for AWS_REGION, for the derived endpoint and for the signing region. */
  lemma ProviderRegionUsedThroughout(s: BuilderState, svc: ServiceIdentity, env: Environment, v: Variant,
                                     region: Region)
    requires s.region.None? && s.config.endpoint.None?
    requires AdvancedOptionValue(s.config.overrideConfiguration, EnableDefaultRegionDetection) != Some(BoolValue(false))
    requires env.providerRegion == Some(region)
    ensures Finalized(s, svc, env, v).Success?
    ensures Finalized(s, svc, env, v).value.endpoint ==
            Some(env.buildEndpoint(DefaultEndpointProtocol, svc.endpointPrefix, region))
    ensures AdvancedOptionValue(Finalized(s, svc, env, v).value.overrideConfiguration, AwsRegion) ==
            Some(RegionValue(region))
    ensures AdvancedOptionValue(Finalized(s, svc, env, v).value.overrideConfiguration, SigningRegion) ==
            Some(RegionValue(env.signingRegionOf(svc.endpointPrefix, region)))
  {
    FinalizedRegionOptionsAgree(s, svc, env, v);
    FinalizedEndpoint(s, svc, env, v);
  }

  /** With an endpoint override and an explicit region, the override is the
      endpoint and the signing region still comes from the explicit region. */
  lemma OverrideEndpointWithExplicitRegion(s: BuilderState, svc: ServiceIdentity, env: Environment, v: Variant,
                                           endpoint: Uri, region: Region)
    requires s.config.endpoint == Some(endpoint) && s.region == Some(region)
    ensures Finalized(s, svc, env, v).Success?
    ensures Finalized(s, svc, env, v).value.endpoint == Some(endpoint)
    ensures AdvancedOptionValue(Finalized(s, svc, env, v).value.overrideConfiguration, SigningRegion) ==
            Some(RegionValue(env.signingRegionOf(svc.endpointPrefix, region)))
  {
    FinalizedRegionOptionsAgree(s, svc, env, v);
    FinalizedEndpoint(s, svc, env, v);
  }

  /** A service whose defaults hook offers nothing (the hook as the base class
      defines it) is finalized as if only the builder-specific and the global
      layer ran. */
  lemma DefaultServiceHookAddsNothing(s: BuilderState, svc: ServiceIdentity, env: Environment, v: Variant)
    requires svc.serviceDefaults == NoDefaults
    requires ResolveRegion(s, env).Some?
    ensures Finalized(s, svc, env, v) ==
            Success(ApplyHttpClient(ApplyLayer(ApplyBuilderLayer(s.config, s, svc, env, v).value, env.globalDefaults, v),
                                    env.defaultHttpClient, env.defaultAsyncHttpClient, v))
  {
    var afterBuilder := ApplyBuilderLayer(s.config, s, svc, env, v).value;
    FinalizedUnfolds(s, svc, env, v);
    ApplyTwoLayers(afterBuilder, NoDefaults, env.globalDefaults, v);
    NoDefaultsChangesNothing(afterBuilder, v);
  }

  /** Finalizing twice without touching the builder gives the same configuration
      both times, and the builder's own state is what it was. */
  method RepeatedSyncFinalization(b: AwsDefaultClientBuilder) returns (first: Result<ConfigState, BuildError>,
                                                                      second: Result<ConfigState, BuildError>)
    ensures first == second
    ensures first == Finalized(b.State(), b.service, b.environment, Sync)
  {
    first := b.SyncClientConfiguration();
    second := b.SyncClientConfiguration();
  }
}
