/** The configuration values a client builder collects: the advanced options of
    a client override configuration, the snapshot of a mutable client
    configuration, and the mutable configuration object the builder owns. */
module ClientConfiguration {
  import opened Wrappers

  /** A region, identified by its name (for example "us-west-2"). */
  type Region = string

  /** An endpoint URI, as its text (for example "https://dynamodb.us-west-2.amazonaws.com"). */
  type Uri = string

  /** A credentials provider, identified by name; its resolution logic is not modelled. */
  datatype CredentialsProvider = CredentialsProvider(name: string)

  /** A scheduled executor service, identified by name. */
  datatype Executor = Executor(name: string)

  /** An HTTP transport client (blocking or non-blocking), identified by name. */
  datatype HttpClient = HttpClient(name: string)

  /** The advanced-option keys the builder reads or writes. */
  datatype AdvancedOption =
    | AwsRegion
    | ServiceSigningName
    | SigningRegion
    | EnableDefaultRegionDetection

  /** The value of an advanced option; in the Java API each key fixes the value's type. */
  datatype OptionValue =
    | RegionValue(region: Region)
    | TextValue(text: string)
    | BoolValue(flag: bool)

  /** A client override configuration, reduced to its advanced options. */
  datatype OverrideConfiguration = OverrideConfiguration(advancedOptions: map<AdvancedOption, OptionValue>)

  /** The override configuration with no advanced option set. */
  const EmptyOverrideConfiguration := OverrideConfiguration(map[])

  /** The advanced option stored under `key`, if any. */
  function AdvancedOptionValue(oc: OverrideConfiguration, key: AdvancedOption): Option<OptionValue> {
    Get(oc.advancedOptions, key)
  }

  /** The values held by a mutable client configuration at one moment; also the
      value of the immutable configuration frozen from it. */
  datatype ConfigState = ConfigState(
    endpoint: Option<Uri>,
    credentialsProvider: Option<CredentialsProvider>,
    overrideConfiguration: OverrideConfiguration,
    asyncExecutorService: Option<Executor>,
    httpClient: Option<HttpClient>,
    asyncHttpClient: Option<HttpClient>)

  /** A freshly created mutable configuration: nothing set. */
  const EmptyConfiguration := ConfigState(None, None, EmptyOverrideConfiguration, None, None, None)

  /** The mutable client configuration a builder owns and the finalization pipeline fills in. */
  class MutableConfiguration {
    var endpoint: Option<Uri>
    var credentialsProvider: Option<CredentialsProvider>
    var overrideConfiguration: OverrideConfiguration
    var asyncExecutorService: Option<Executor>
    var httpClient: Option<HttpClient>
    var asyncHttpClient: Option<HttpClient>

    /** The values this object holds now. */
    function Snapshot(): ConfigState
      reads this
    {
      ConfigState(endpoint, credentialsProvider, overrideConfiguration,
                  asyncExecutorService, httpClient, asyncHttpClient)
    }

    constructor ()
      ensures Snapshot() == EmptyConfiguration
    {
      endpoint := None;
      credentialsProvider := None;
      overrideConfiguration := EmptyOverrideConfiguration;
      asyncExecutorService := None;
      httpClient := None;
      asyncHttpClient := None;
    }

    /** An independent copy holding the same values. */
    method Clone() returns (copy: MutableConfiguration)
      ensures fresh(copy)
      ensures copy.Snapshot() == Snapshot()
    {
      copy := new MutableConfiguration();
      copy.endpoint := endpoint;
      copy.credentialsProvider := credentialsProvider;
      copy.overrideConfiguration := overrideConfiguration;
      copy.asyncExecutorService := asyncExecutorService;
      copy.httpClient := httpClient;
      copy.asyncHttpClient := asyncHttpClient;
    }

    method SetEndpoint(e: Option<Uri>)
      modifies this
      ensures Snapshot() == old(Snapshot()).(endpoint := e)
    {
      endpoint := e;
    }

    method SetCredentialsProvider(p: Option<CredentialsProvider>)
      modifies this
      ensures Snapshot() == old(Snapshot()).(credentialsProvider := p)
    {
      credentialsProvider := p;
    }

    method SetOverrideConfiguration(oc: OverrideConfiguration)
      modifies this
      ensures Snapshot() == old(Snapshot()).(overrideConfiguration := oc)
    {
      overrideConfiguration := oc;
    }
  }
}
