# AWS client builder configuration resolution, in Dafny

This project models how `AwsDefaultClientBuilder` of the AWS SDK for Java v2 works
out a client's configuration from what the caller put on the builder:

- the **effective region**: the explicit region, else the default region provider
  chain's answer, but only while the advanced option ENABLE_DEFAULT_REGION_DETECTION
  is not `false` (absent means enabled);
- the **effective endpoint**: the endpoint override verbatim, else an endpoint built
  from the resolved region with protocol "https", else none (never an exception);
- the **signing region**: the service metadata's signing region of the resolved
  region, or an IllegalStateException when no region resolves;
- the **builder-specific defaults layer**: it offers the resolved endpoint, the
  default credentials provider and the async executor for unset fields, and writes
  the advanced options AWS_REGION (or fails with SdkClientException "AWS region not
  provided"), SERVICE_SIGNING_NAME and SIGNING_REGION;
- **finalization** (`syncClientConfiguration` / `asyncClientConfiguration`): clone
  the builder's mutable configuration, run the builder-specific, service-specific
  and global defaults layers over the clone in that fixed order, bind the default
  HTTP client, and freeze the result. The builder's own state is left as it was.

Files and modules:

- `wrappers.dfy` (`Wrappers`): `Option` for nullable references and `Optional`,
  `Result` for values or thrown exceptions.
- `client_configuration.dfy` (`ClientConfiguration`): regions, endpoints, the
  advanced options, `ConfigState` (the values of a mutable client configuration,
  also the frozen configuration) and the class `MutableConfiguration` with its
  `Clone` and setters.
- `configuration_defaults.dfy` (`ConfigurationDefaults`): a defaults layer
  (`Defaults`), applied fill-only by `ApplyLayer`/`ApplyLayers` and in place by
  `ApplyDefaults`; `FirstPresent`, the reference definition of precedence, and
  `LayersPrecedence`, which proves that applying layers in order gives each field
  the first value set.
- `aws_default_client_builder.dfy` (`AwsClientBuilder`): the resolvers as functions
  of the builder state, the builder-specific layer, the specification `Finalized`
  of finalization, and the class `AwsDefaultClientBuilder` with its setters and its
  finalization methods, which are proved against `Finalized`.
- `builder_properties.dfy` (`BuilderProperties`): what finalization guarantees.

The collaborators the builder consults are inputs, not code: the default region
provider chain is a value (`Environment.providerRegion`, null read as `None`), so
asking it twice gives the same answer; `ServiceMetadata.signingRegion` and
`EndpointUtils.buildEndpoint` are uninterpreted total functions
(`Environment.signingRegionOf`, `Environment.buildEndpoint`); the default
credentials provider, the async executor provider's executor, the global defaults
layer and the default HTTP clients are values of `Environment`. The concrete
service builder's `serviceEndpointPrefix()`, `signingName()` and `serviceDefaults()`
are the fields of `ServiceIdentity`.

Behaviour of the code that is easy to misread, and that the model follows:

- The class's own documentation (`syncClientConfiguration`, lines 113-121) ranks
  customer configuration above every defaults layer, but the builder-specific
  layer does not only fill unset values: its
  `applyOverrideDefaults` writes AWS_REGION, SERVICE_SIGNING_NAME and SIGNING_REGION
  unconditionally, so a value the customer put under one of these keys is replaced
  (`FinalizedRegionOptionsAgree`). Every other field and option is fill-only.
- AWS_REGION is resolved before SIGNING_REGION, so finalization without a region fails
  with the SdkClientException "AWS region not provided", never with the
  IllegalStateException of `signingRegion()` (`FinalizationFailsExactlyWithoutRegion`).
- `resolveEndpoint` and `useRegionProviderChain` read the builder's own
  configuration, not the clone being filled. During finalization the clone is
  still an exact copy when they run, so this cannot be observed there;
  `ApplyBuilderLayer` takes the configuration being filled and the builder state
  as separate arguments, and `BuilderLayerReadsBuilderState` shows that the
  region options do not depend on the former.
- The service and global layers cannot change the region options because of
  the order of the layers: the builder-specific layer runs first and writes
  AWS_REGION and SIGNING_REGION, and the fill-only lower layers keep them
  (`LowerLayersCannotChangeRegion`).

## Model

| member | source | states |
|---|---|---|
| `AwsClientBuilder.UseRegionProviderChain` | aws-core/src/main/java/software/amazon/awssdk/awscore/client/builder/AwsDefaultClientBuilder.java:208-216 | the provider chain is off exactly when ENABLE_DEFAULT_REGION_DETECTION in the builder's configuration is `false`; absent means on |
| `AwsClientBuilder.RegionFromDefaultProvider` | aws-core/src/main/java/software/amazon/awssdk/awscore/client/builder/AwsDefaultClientBuilder.java:201-206 | empty when the chain is off; otherwise the chain's answer, a null answer being empty |
| `AwsClientBuilder.ResolveRegion` | aws-core/src/main/java/software/amazon/awssdk/awscore/client/builder/AwsDefaultClientBuilder.java:230-235 | an explicit region is returned as is and the chain is not consulted; a region resolves exactly when one is explicit or the chain is on and answers; without an explicit region it is the chain's answer |
| `AwsClientBuilder.EndpointFromRegion` | aws-core/src/main/java/software/amazon/awssdk/awscore/client/builder/AwsDefaultClientBuilder.java:237-242 | present exactly when a region resolves, and then `buildEndpoint("https", endpoint prefix, region)` |
| `AwsClientBuilder.ResolveEndpoint` | aws-core/src/main/java/software/amazon/awssdk/awscore/client/builder/AwsDefaultClientBuilder.java:192-199 | a configured endpoint is returned verbatim whatever the region; empty exactly when no endpoint is configured and no region resolves; otherwise the endpoint built from the resolved region with "https" |
| `AwsClientBuilder.ResolveSigningRegion` | aws-core/src/main/java/software/amazon/awssdk/awscore/client/builder/AwsDefaultClientBuilder.java:104-111 | fails with IllegalStateException "The signing region could not be determined." exactly when no region resolves; otherwise the service metadata's signing region of the resolved region |
| `AwsClientBuilder.BuilderOverrideDefaults` | aws-core/src/main/java/software/amazon/awssdk/awscore/client/builder/AwsDefaultClientBuilder.java:182-188 | fails with SdkClientException "AWS region not provided" exactly when no region resolves; otherwise writes exactly AWS_REGION = the resolved region, SERVICE_SIGNING_NAME = the signing name and SIGNING_REGION = the signing region, which then does not fail |
| `AwsClientBuilder.BuilderFieldDefaults` | aws-core/src/main/java/software/amazon/awssdk/awscore/client/builder/AwsDefaultClientBuilder.java:158-180 | the builder-specific layer offers the configured endpoint when there is one, else the endpoint built from the resolved region with "https", and none exactly when neither exists; it always offers the default credentials provider, offers the executor provider's executor, and no advanced option |
| `AwsClientBuilder.ApplyBuilderLayer` | aws-core/src/main/java/software/amazon/awssdk/awscore/client/builder/AwsDefaultClientBuilder.java:151-190 | the builder-specific layer over a configuration fails with SdkClientException "AWS region not provided" exactly when no region resolves; otherwise it keeps a set endpoint, credentials provider and executor and fills unset ones from the builder's own state, writes AWS_REGION, SERVICE_SIGNING_NAME and SIGNING_REGION over what was there, and leaves every other option and the transport clients unchanged |
| `AwsClientBuilder.Finalized` | aws-core/src/main/java/software/amazon/awssdk/awscore/client/builder/AwsDefaultClientBuilder.java:122-149 | a successful finalization always holds an endpoint, a credentials provider and the transport client of its variant |
| `AwsClientBuilder.AwsDefaultClientBuilder.constructor` | aws-core/src/main/java/software/amazon/awssdk/awscore/client/builder/AwsDefaultClientBuilder.java:69-75 | a new builder has no region and an empty mutable configuration of its own |
| `AwsClientBuilder.AwsDefaultClientBuilder.WithRegion` | aws-core/src/main/java/software/amazon/awssdk/awscore/client/builder/AwsDefaultClientBuilder.java:244-248 | sets the region field (None clears it) and changes nothing else |
| `AwsClientBuilder.AwsDefaultClientBuilder.SetRegion` | aws-core/src/main/java/software/amazon/awssdk/awscore/client/builder/AwsDefaultClientBuilder.java:250-252 | the same effect as `WithRegion` |
| `AwsClientBuilder.AwsDefaultClientBuilder.EndpointOverride` | aws-core/src/main/java/software/amazon/awssdk/awscore/client/builder/AwsDefaultClientBuilder.java:218-222 | writes only the endpoint of the builder's configuration; region and every other field unchanged |
| `AwsClientBuilder.AwsDefaultClientBuilder.WithOverrideConfiguration` | aws-core/src/main/java/software/amazon/awssdk/awscore/client/builder/AwsDefaultClientBuilder.java:224-228 | writes only the override configuration of the builder's configuration |
| `AwsClientBuilder.AwsDefaultClientBuilder.WithCredentialsProvider` | aws-core/src/main/java/software/amazon/awssdk/awscore/client/builder/AwsDefaultClientBuilder.java:254-258 | writes only the credentials provider of the builder's configuration |
| `AwsClientBuilder.AwsDefaultClientBuilder.SetCredentialsProvider` | aws-core/src/main/java/software/amazon/awssdk/awscore/client/builder/AwsDefaultClientBuilder.java:260-262 | the same effect as `WithCredentialsProvider` |
| `AwsClientBuilder.AwsDefaultClientBuilder.ApplyBuilderDefaults` | aws-core/src/main/java/software/amazon/awssdk/awscore/client/builder/AwsDefaultClientBuilder.java:151-190 | the builder-specific layer run in place on a configuration, every value computed from the builder's own state as it was before the call; reports the exception instead of changing the result |
| `AwsClientBuilder.AwsDefaultClientBuilder.FinalizeClone` | aws-core/src/main/java/software/amazon/awssdk/awscore/client/builder/AwsDefaultClientBuilder.java:123-129 | working on a clone, it returns `Finalized` of the builder's state, so the builder's own state is unchanged |
| `AwsClientBuilder.AwsDefaultClientBuilder.SyncClientConfiguration` | aws-core/src/main/java/software/amazon/awssdk/awscore/client/builder/AwsDefaultClientBuilder.java:113-130 | the synchronous finalization: `Finalized` of the builder's state, builder unchanged |
| `AwsClientBuilder.AwsDefaultClientBuilder.AsyncClientConfiguration` | aws-core/src/main/java/software/amazon/awssdk/awscore/client/builder/AwsDefaultClientBuilder.java:132-149 | the asynchronous finalization: `Finalized` of the builder's state, builder unchanged |
| `ClientConfiguration.MutableConfiguration.Clone` | aws-core/src/main/java/software/amazon/awssdk/awscore/client/builder/AwsDefaultClientBuilder.java:124 | the clone is a new object holding the same values, so changing it cannot change the builder's configuration |
| `ClientConfiguration.MutableConfiguration.SetEndpoint` | aws-core/src/main/java/software/amazon/awssdk/awscore/client/builder/AwsDefaultClientBuilder.java:220 | only the endpoint changes |
| `ClientConfiguration.MutableConfiguration.SetOverrideConfiguration` | aws-core/src/main/java/software/amazon/awssdk/awscore/client/builder/AwsDefaultClientBuilder.java:226 | only the override configuration changes |
| `ClientConfiguration.MutableConfiguration.SetCredentialsProvider` | aws-core/src/main/java/software/amazon/awssdk/awscore/client/builder/AwsDefaultClientBuilder.java:256 | only the credentials provider changes |
| `ConfigurationDefaults.ApplyLayer` | aws-core/src/main/java/software/amazon/awssdk/awscore/client/builder/AwsDefaultClientBuilder.java:125-127 | a defaults layer keeps every value already set, leaves the transport clients alone, touches the executor only for asynchronous clients, and adds no option the configuration and the layer both lack |
| `ConfigurationDefaults.ApplyLayers` | aws-core/src/main/java/software/amazon/awssdk/awscore/client/builder/AwsDefaultClientBuilder.java:125-127 | a sequence of layers keeps every value already set |
| `ConfigurationDefaults.ApplyDefaults` | aws-core/src/main/java/software/amazon/awssdk/awscore/client/builder/AwsDefaultClientBuilder.java:125-127 | running a layer in place on a mutable configuration leaves it holding `ApplyLayer` of its old values |
| `ConfigurationDefaults.PutAdvancedOptions` | aws-core/src/main/java/software/amazon/awssdk/awscore/client/builder/AwsDefaultClientBuilder.java:184-187 | writing advanced options in place leaves the configuration holding `WriteAdvancedOptions` of its old values |
| `ConfigurationDefaults.BindHttpClient` | aws-core/src/main/java/software/amazon/awssdk/awscore/client/builder/AwsDefaultClientBuilder.java:128 | binding the transport client in place leaves the configuration holding `ApplyHttpClient` of its old values |
| `ConfigurationDefaults.ApplyHttpClient` | aws-core/src/main/java/software/amazon/awssdk/awscore/client/builder/AwsDefaultClientBuilder.java:128 | a configured transport client is kept; otherwise a synchronous finalization binds the blocking default and an asynchronous one the non-blocking default; the other variant's client and every other field are unchanged |
| `ConfigurationDefaults.WriteAdvancedOptions` | aws-core/src/main/java/software/amazon/awssdk/awscore/client/builder/AwsDefaultClientBuilder.java:184-187 | every written option holds the written value whatever was there before; every other option and every field is unchanged |
| `ConfigurationDefaults.NoDefaultsChangesNothing` | aws-core/src/main/java/software/amazon/awssdk/awscore/client/builder/AwsDefaultClientBuilder.java:98-102 | the base class's service defaults hook, which offers nothing, leaves a configuration as it is |
| `ConfigurationDefaults.FirstPresentIsFirstSet` | aws-core/src/main/java/software/amazon/awssdk/awscore/client/builder/AwsDefaultClientBuilder.java:113-121 | the precedence reference: the winner is the first candidate that is set |
| `ConfigurationDefaults.FirstPresentNone` | aws-core/src/main/java/software/amazon/awssdk/awscore/client/builder/AwsDefaultClientBuilder.java:113-121 | nothing wins exactly when no candidate is set |
| `ConfigurationDefaults.LayersPrecedence` | aws-core/src/main/java/software/amazon/awssdk/awscore/client/builder/AwsDefaultClientBuilder.java:113-130 | applying layers in order gives each field and each option the first value set among the configuration and the layers, in that order |
| `ConfigurationDefaults.TwoLayersPrecedence` | aws-core/src/main/java/software/amazon/awssdk/awscore/client/builder/AwsDefaultClientBuilder.java:126-127 | the service layer then the global layer: each field and option ends up with the first value set among the configuration, the service layer and the global layer |
| `BuilderProperties.FinalizationFailsExactlyWithoutRegion` | aws-core/src/main/java/software/amazon/awssdk/awscore/client/builder/AwsDefaultClientBuilder.java:182-188 | finalization fails exactly when no region resolves, and then with SdkClientException "AWS region not provided" |
| `BuilderProperties.FinalizedRegionOptionsAgree` | aws-core/src/main/java/software/amazon/awssdk/awscore/client/builder/AwsDefaultClientBuilder.java:182-188 | a finalized configuration holds AWS_REGION = the resolved region, SERVICE_SIGNING_NAME = the signing name and SIGNING_REGION = the signing region of that same region, whatever the customer or lower layers set |
| `BuilderProperties.FinalizationEndpointPrecedence` | aws-core/src/main/java/software/amazon/awssdk/awscore/client/builder/AwsDefaultClientBuilder.java:113-130 | the endpoint of a finalized configuration is the first set among the customer's, the resolved endpoint of the builder-specific layer, the service layer's and the global layer's |
| `BuilderProperties.FinalizationCredentialsPrecedence` | aws-core/src/main/java/software/amazon/awssdk/awscore/client/builder/AwsDefaultClientBuilder.java:113-130 | the credentials provider of a finalized configuration is the first set among the customer's, the default credentials provider, the service layer's and the global layer's |
| `BuilderProperties.FinalizationExecutorPrecedence` | aws-core/src/main/java/software/amazon/awssdk/awscore/client/builder/AwsDefaultClientBuilder.java:132-149 | the executor of an asynchronous finalization is the first set among the customer's, the executor provider's, the service layer's and the global layer's; a synchronous finalization leaves the customer's |
| `BuilderProperties.FinalizationOptionPrecedence` | aws-core/src/main/java/software/amazon/awssdk/awscore/client/builder/AwsDefaultClientBuilder.java:113-130 | every other advanced option is the first set among customer, service and global values, so a customer value is never replaced |
| `BuilderProperties.FinalizedEndpoint` | aws-core/src/main/java/software/amazon/awssdk/awscore/client/builder/AwsDefaultClientBuilder.java:161-164 | a finalized configuration always has an endpoint: the configured one, else the one built from the resolved region with "https" |
| `BuilderProperties.CustomerCredentialsProviderWins` | aws-core/src/main/java/software/amazon/awssdk/awscore/client/builder/AwsDefaultClientBuilder.java:166-172 | a credentials provider the customer set is the finalized one, despite the default credentials provider |
| `BuilderProperties.LowerLayersCannotChangeRegion` | aws-core/src/main/java/software/amazon/awssdk/awscore/client/builder/AwsDefaultClientBuilder.java:211-216 | the service and global layers change neither whether finalization succeeds nor AWS_REGION and SIGNING_REGION: the builder-specific layer runs before them and writes both, and they only fill unset options |
| `BuilderProperties.BuilderLayerReadsBuilderState` | aws-core/src/main/java/software/amazon/awssdk/awscore/client/builder/AwsDefaultClientBuilder.java:192-216 | the builder-specific layer succeeds, and writes the same AWS_REGION and SIGNING_REGION, whatever the configuration it fills holds, because region and endpoint resolution read the builder's own configuration |
| `BuilderProperties.DetectionDisabledWithoutRegion` | aws-core/src/main/java/software/amazon/awssdk/awscore/client/builder/AwsDefaultClientBuilder.java:204-216 | no explicit region and detection `false`: no region, only the configured endpoint, IllegalStateException for the signing region, SdkClientException from finalization |
| `BuilderProperties.ProviderRegionUsedThroughout` | aws-core/src/main/java/software/amazon/awssdk/awscore/client/builder/AwsDefaultClientBuilder.java:204-242 | no explicit region or endpoint and the chain answers r: finalization succeeds with AWS_REGION r, the endpoint built from r and the signing region of r |
| `BuilderProperties.OverrideEndpointWithExplicitRegion` | aws-core/src/main/java/software/amazon/awssdk/awscore/client/builder/AwsDefaultClientBuilder.java:104-111 | an endpoint override and an explicit region: the override is the endpoint and the signing region comes from the explicit region |
| `BuilderProperties.DefaultServiceHookAddsNothing` | aws-core/src/main/java/software/amazon/awssdk/awscore/client/builder/AwsDefaultClientBuilder.java:98-102 | with the base class's empty service defaults hook, finalization is the builder-specific layer, then the global layer, then the transport client |
| `BuilderProperties.RepeatedSyncFinalization` | aws-core/src/main/java/software/amazon/awssdk/awscore/client/builder/AwsDefaultClientBuilder.java:122-130 | finalizing twice from an unchanged builder gives equal configurations; the transport clients, default credentials provider and executor are given values here, whereas the Java code builds a new transport client on each call, so for those fields the equality says only that the same default is chosen |

## Left out

- The region provider chain's own lookup (environment, profile, instance metadata) is not part of this model: it is one optional region given as input.
- `ServiceMetadata.signingRegion` and `EndpointUtils.buildEndpoint` (partition and DNS suffix tables) are uninterpreted total functions. A failed service-metadata lookup, which the real call could raise, is therefore not modelled.
- The bodies of `AwsClientConfigurationDefaults` and `AwsGlobalClientConfigurationDefaults` are not part of this model. Each layer is a `Defaults` value that fills only unset fields and options. The asynchronous variant also fills the executor. Both behaviours are assumed.
- `applySdkHttpClient`/`applySdkAsyncHttpClient` only bind a given default transport client if none is configured. Building the transport clients is left out.
- `DefaultCredentialsProvider.create()` and `ExecutorProvider.get()` are given values. The credentials resolution and the executor construction are left out.
- Building the immutable configuration objects is left out. The frozen configuration is the `ConfigState` value, and any validation done by those constructors is not modelled.
- `ClientOverrideConfiguration` is reduced to the four advanced options the builder reads or writes. A value of the wrong kind under ENABLE_DEFAULT_REGION_DETECTION is read as absent; the Java API's typed keys rule it out.
- `AwsClientBuilder.AwsDefaultClientBuilder.WithOverrideConfiguration` does not accept null; the behaviour of a null override configuration is not modelled.
- The fluent return of the builder (`thisBuilder()`), the generic type parameters and the test-only constructor are left out.
- Thread safety is left out. The builder is documented as not thread safe, and the model is sequential.
