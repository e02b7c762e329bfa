/** The S3 backend's configuration handling (s3/config.go): validation of a
    configuration, the validating constructor `MakeFunc`, and the client
    settings `newS3Client` assembles. The AWS SDK is abstracted: loading
    the default configuration is an outcome passed in, and building the
    client records the settings it was built from. */
module S3 {
  import opened Wrappers
  import opened Stow
  import opened NetUrl

  /** The kind, which is also the URL scheme of the backend. */
  const Kind := "s3"

  const AuthTypeAccessKey := "accesskey"
  const AuthTypeIAM := "iam"

  const ConfigAuthType := "auth_type"
  const ConfigAccessKeyID := "access_key_id"
  const ConfigSecretKey := "secret_key"
  const ConfigRegion := "region"
  const ConfigEndpoint := "endpoint"
  const ConfigDisableSSL := "disable_ssl"
  const ConfigV2Signing := "v2_signing"

  /** Region used when neither the caller nor the configuration names one. */
  const DefaultRegion := "us-east-1"

  const ErrInvalidAuthType := New("invalid auth_type")
  const ErrMissingAccessKeyID := New("missing Access Key ID")
  const ErrMissingSecretKey := New("missing Secret Key")
  const LoadConfigPrefix := "failed to load AWS config. Error: "

  // ---------------------------------------------------------------------
  // Validation
  // ---------------------------------------------------------------------

  /** The auth type after defaulting: `accesskey` when the key is absent or
      empty, otherwise the configured value. */
  function AuthType(config: Config): (t: string)
    ensures t != ""
    ensures ConfigAuthType !in config || config[ConfigAuthType] == "" ==> t == AuthTypeAccessKey
    ensures ConfigAuthType in config && config[ConfigAuthType] != "" ==> t == config[ConfigAuthType]
  {
    var (authType, ok) := Lookup(config, ConfigAuthType);
    if !ok || authType == "" then AuthTypeAccessKey else authType
  }

  /** `ValidateFunc`: a side-effect-free check of the configuration. */
  function ValidateFunc(config: Config): (err: Option<Error>)
    ensures err.Some? ==> err.value in {ErrInvalidAuthType, ErrMissingAccessKeyID, ErrMissingSecretKey}
  {
    var authType := AuthType(config);
    if !(authType == AuthTypeAccessKey || authType == AuthTypeIAM) then
      Some(ErrInvalidAuthType)
    else if authType == AuthTypeAccessKey && !Lookup(config, ConfigAccessKeyID).1 then
      Some(ErrMissingAccessKeyID)
    else if authType == AuthTypeAccessKey && !Lookup(config, ConfigSecretKey).1 then
      Some(ErrMissingSecretKey)
    else
      None
  }

  /** A configuration is accepted exactly when its auth type (after
      defaulting) is `accesskey` or `iam` and, in access-key mode, both
      credential keys are present. */
  lemma ValidateAcceptsIff(config: Config)
    ensures ValidateFunc(config).None? <==>
      && (AuthType(config) == AuthTypeAccessKey || AuthType(config) == AuthTypeIAM)
      && (AuthType(config) == AuthTypeAccessKey ==> ConfigAccessKeyID in config && ConfigSecretKey in config)
  {
  }

  /** An absent or empty `auth_type` is treated exactly as `accesskey`. */
  lemma ValidateDefaultsToAccessKey(config: Config)
    requires ConfigAuthType !in config || config[ConfigAuthType] == ""
    ensures ValidateFunc(config) == ValidateFunc(config[ConfigAuthType := AuthTypeAccessKey])
  {
  }

  /** Any non-empty `auth_type` other than `accesskey` and `iam` fails. */
  lemma ValidateRejectsUnknownAuthType(config: Config)
    requires ConfigAuthType in config && config[ConfigAuthType] !in {"", AuthTypeAccessKey, AuthTypeIAM}
    ensures ValidateFunc(config) == Some(ErrInvalidAuthType)
  {
  }

  /** In access-key mode the access key ID is checked first: when it is
      missing that is the error, whether or not the secret is there. */
  lemma ValidateMissingAccessKeyID(config: Config)
    requires AuthType(config) == AuthTypeAccessKey
    requires ConfigAccessKeyID !in config
    ensures ValidateFunc(config) == Some(ErrMissingAccessKeyID)
  {
  }

  /** In access-key mode, with the ID present, a missing secret fails. */
  lemma ValidateMissingSecretKey(config: Config)
    requires AuthType(config) == AuthTypeAccessKey
    requires ConfigAccessKeyID in config && ConfigSecretKey !in config
    ensures ValidateFunc(config) == Some(ErrMissingSecretKey)
  {
  }

  /** The credential checks test presence only: changing the value of a
      present credential key, to the empty string say, changes nothing. */
  lemma ValidatePresenceOnly(config: Config, key: string, v: string)
    requires key == ConfigAccessKeyID || key == ConfigSecretKey
    requires key in config
    ensures ValidateFunc(config[key := v]) == ValidateFunc(config)
  {
  }

  /** In IAM mode validation succeeds whatever credential keys are present. */
  lemma ValidateIAMIgnoresCredentials(config: Config)
    requires AuthType(config) == AuthTypeIAM
    ensures ValidateFunc(config) == None
  {
  }

  /** Only `auth_type` and the presence of the two credential keys are
      consulted: setting or removing any other key changes nothing. */
  lemma ValidateIgnoresOtherKeys(config: Config, key: string, v: string)
    requires key !in {ConfigAuthType, ConfigAccessKeyID, ConfigSecretKey}
    ensures ValidateFunc(config[key := v]) == ValidateFunc(config)
    ensures ValidateFunc(config - {key}) == ValidateFunc(config)
  {
  }

  // ---------------------------------------------------------------------
  // Client construction (newS3Client)
  // ---------------------------------------------------------------------

  /** Credentials provider of an AWS configuration: whatever the default
      loader resolved from the environment, or a static key pair. */
  datatype Credentials =
    | AmbientCredentials(source: nat)
    | StaticCredentials(accessKeyID: string, secretKey: string, sessionToken: string)

  /** Endpoint resolution: the SDK's own, or one fixed to a URL. */
  datatype EndpointResolver = DefaultEndpoints(source: nat) | EndpointFromURL(url: string)

  /** The `aws.Config` fields `newS3Client` touches; `others` stands for
      every other field, which it leaves as loaded. */
  datatype AwsConfig = AwsConfig(
    region: string,
    credentials: Credentials,
    endpointResolver: EndpointResolver,
    others: nat)

  /** The client `s3.NewFromConfig` builds, identified by its settings. */
  datatype Client = Client(settings: AwsConfig)

  /** `location` as `MakeFunc` builds it. */
  datatype Location = Location(config: Config, client: Client, customEndpoint: string)

  /** Region priority: a non-empty argument, else the configured region,
      else `us-east-1`. */
  function ResolveRegion(config: Config, region: string): (r: string)
    ensures r != ""
    ensures region != "" ==> r == region
    ensures region == "" && Get(config, ConfigRegion) != "" ==> r == config[ConfigRegion]
    ensures region == "" && Get(config, ConfigRegion) == "" ==> r == DefaultRegion
  {
    var region' := if region == "" then Get(config, ConfigRegion) else region;
    if region' != "" then region' else DefaultRegion
  }

  /** The settings `newS3Client` hands to the client constructor, starting
      from the loaded default configuration `base`. */
  function ClientSettings(config: Config, region: string, base: AwsConfig): (s: AwsConfig)
    ensures s.region == ResolveRegion(config, region) && s.others == base.others
    ensures s.credentials in {base.credentials, StaticCredentials(Get(config, ConfigAccessKeyID), Get(config, ConfigSecretKey), "")}
    ensures s.endpointResolver in {base.endpointResolver, EndpointFromURL(Get(config, ConfigEndpoint))}
  {
    var authType := if Get(config, ConfigAuthType) == "" then AuthTypeAccessKey else Get(config, ConfigAuthType);
    AwsConfig(
      ResolveRegion(config, region),
      if authType == AuthTypeAccessKey
        then StaticCredentials(Get(config, ConfigAccessKeyID), Get(config, ConfigSecretKey), "")
        else base.credentials,
      if ConfigEndpoint in config then EndpointFromURL(config[ConfigEndpoint]) else base.endpointResolver,
      base.others)
  }

  /** Static credentials are installed exactly in access-key mode, from the
      configured key pair with an empty session token; otherwise the loaded
      credentials stay. Nothing but region, credentials and endpoint
      resolver differs from the loaded configuration. */
  lemma ClientSettingsCredentials(config: Config, region: string, base: AwsConfig)
    ensures AuthType(config) == AuthTypeAccessKey ==>
      ClientSettings(config, region, base).credentials
        == StaticCredentials(Get(config, ConfigAccessKeyID), Get(config, ConfigSecretKey), "")
    ensures AuthType(config) != AuthTypeAccessKey ==>
      ClientSettings(config, region, base).credentials == base.credentials
    ensures ClientSettings(config, region, base).others == base.others
  {
  }

  /** The endpoint resolver is replaced exactly when `endpoint` is present,
      even with an empty value. */
  lemma ClientSettingsEndpoint(config: Config, region: string, base: AwsConfig)
    ensures ConfigEndpoint in config ==>
      ClientSettings(config, region, base).endpointResolver == EndpointFromURL(config[ConfigEndpoint])
    ensures ConfigEndpoint !in config ==>
      ClientSettings(config, region, base).endpointResolver == base.endpointResolver
  {
  }

  /** `disable_ssl` and `v2_signing` are accepted but have no effect. */
  lemma ClientSettingsIgnoresSslAndSigning(config: Config, region: string, base: AwsConfig, key: string, v: string)
    requires key == ConfigDisableSSL || key == ConfigV2Signing
    ensures ClientSettings(config[key := v], region, base) == ClientSettings(config, region, base)
    ensures ClientSettings(config - {key}, region, base) == ClientSettings(config, region, base)
  {
  }

  /** `newS3Client`: loads the default configuration (`loaded`, which may
      have failed), then sets the region, the credentials and the endpoint
      resolver in turn, and builds the client. The endpoint returned is the
      configured `endpoint` value. */
  method NewS3Client(config: Config, region: string, loaded: Result<AwsConfig, Error>)
    returns (client: Option<Client>, endpoint: string, err: Option<Error>)
    ensures loaded.Failure? ==>
      client == None && endpoint == "" && err == Some(Errorf(LoadConfigPrefix, loaded.error))
    ensures loaded.Success? ==>
      && err == None
      && client == Some(Client(ClientSettings(config, region, loaded.value)))
      && endpoint == Get(config, ConfigEndpoint)
  {
    var authType := Get(config, ConfigAuthType);
    var accessKeyID := Get(config, ConfigAccessKeyID);
    var secretKey := Get(config, ConfigSecretKey);
    if authType == "" {
      authType := AuthTypeAccessKey;
    }

    if loaded.Failure? {
      return None, "", Some(Errorf(LoadConfigPrefix, loaded.error));
    }
    var awsCfg := loaded.value;

    var region := region;
    if region == "" {
      region := Get(config, ConfigRegion);
    }
    if region != "" {
      awsCfg := awsCfg.(region := region);
    } else {
      awsCfg := awsCfg.(region := DefaultRegion);
    }

    if authType == AuthTypeAccessKey {
      awsCfg := awsCfg.(credentials := StaticCredentials(accessKeyID, secretKey, ""));
    }

    var ok;
    var found := Lookup(config, ConfigEndpoint);
    endpoint, ok := found.0, found.1;
    if ok {
      awsCfg := awsCfg.(endpointResolver := EndpointFromURL(endpoint));
    }

    client, err := Some(Client(awsCfg)), None;
  }

  // ---------------------------------------------------------------------
  // MakeFunc
  // ---------------------------------------------------------------------

  /** What `MakeFunc` returns: the validation error if there is one (the
      outcome of loading the default configuration then plays no part),
      else the client construction's error, else the location. */
  function MakeOutcome(config: Config, loaded: Result<AwsConfig, Error>): Result<Location, Error> {
    if ValidateFunc(config).Some? then Failure(ValidateFunc(config).value)
    else if loaded.Failure? then Failure(Errorf(LoadConfigPrefix, loaded.error))
    else Success(Location(config, Client(ClientSettings(config, "", loaded.value)), Get(config, ConfigEndpoint)))
  }

  /** `MakeFunc`: the validation checks of `ValidateFunc`, repeated inline,
      then `newS3Client(config, "")`. */
  method MakeFunc(config: Config, loaded: Result<AwsConfig, Error>) returns (r: Result<Location, Error>)
    ensures r == MakeOutcome(config, loaded)
  {
    var found := Lookup(config, ConfigAuthType);
    var authType, ok := found.0, found.1;
    if !ok || authType == "" {
      authType := AuthTypeAccessKey;
    }

    if !(authType == AuthTypeAccessKey || authType == AuthTypeIAM) {
      return Failure(New("invalid auth_type"));
    }

    if authType == AuthTypeAccessKey {
      ok := Lookup(config, ConfigAccessKeyID).1;
      if !ok {
        return Failure(New("missing Access Key ID"));
      }
      ok := Lookup(config, ConfigSecretKey).1;
      if !ok {
        return Failure(New("missing Secret Key"));
      }
    }

    var client, endpoint, err := NewS3Client(config, "", loaded);
    if err.Some? {
      return Failure(err.value);
    }
    return Success(Location(config, client.value, endpoint));
  }

  /** `MakeFunc` rejects exactly the configurations `ValidateFunc` rejects,
      with the same error, whatever loading the SDK configuration would
      have done; past validation, it fails only when loading fails. */
  lemma MakeRejectsWhatValidateRejects(config: Config, loaded: Result<AwsConfig, Error>)
    ensures ValidateFunc(config).Some? ==> MakeOutcome(config, loaded) == Failure(ValidateFunc(config).value)
    ensures MakeOutcome(config, loaded).Failure? <==> ValidateFunc(config).Some? || loaded.Failure?
  {
  }

  /** A location built by `MakeFunc` is in the configured region, or in
      `us-east-1` when the configuration has none or an empty one, and
      reports the configured endpoint. */
  lemma MakeRegionAndEndpoint(config: Config, loaded: Result<AwsConfig, Error>)
    requires MakeOutcome(config, loaded).Success?
    ensures var loc := MakeOutcome(config, loaded).value;
      && loc.client.settings.region == (if Get(config, ConfigRegion) != "" then config[ConfigRegion] else DefaultRegion)
      && loc.customEndpoint == Get(config, ConfigEndpoint)
      && loc.config == config
  {
  }

  /** The URL matcher `init` registers: the scheme is `s3`. */
  function KindMatches(u: UrlValue): (b: bool)
    ensures b <==> u.(scheme := Kind) == u
  {
    u.scheme == Kind
  }

  /** The (kind, matcher, validator) tuple `init` registers. */
  const Registration: Stow.Registration := Stow.Registration(Kind, KindMatches, ValidateFunc)
}
