# stow: S3 configuration and the `unionmeta` overlay, in Dafny

This project models two sequential pieces of the `stow` object-storage
abstraction and proves properties of them:

- the S3 backend's configuration handling: `ValidateFunc`, the validating
  constructor `MakeFunc`, and the region, credentials and endpoint that
  `newS3Client` decides;
- the S3 item's nil-safe accessors and its derived URL, and the `unionmeta`
  overlay. The overlay wraps an S3 location and its items. It hands the
  wrapped location URLs with scheme `s3` and reports item URLs with scheme
  `unionmeta`.

Modules:

| file | module | models |
|---|---|---|
| `wrappers.dfy` | `Wrappers` | `Option` (nil) and `Result` (value or error) |
| `stow.dfy` | `Stow` | errors (`errors.New`, `fmt.Errorf` with `%w`, `errors.Wrap`), `stow.Config` lookups, the registration tuple |
| `net_url.dfy` | `NetUrl` | `url.URL` as a heap object (`Url`), and its fields as a value (`UrlValue`) |
| `s3_config.dfy` | `S3` | s3/config.go |
| `news3_item.dfy` | `NewS3` | news3/item.go |
| `unionmeta.dfy` | `UnionMeta` | unionmeta/config.go, unionmeta/location.go, unionmeta/item.go |

The AWS SDK is abstracted. `config2.LoadDefaultConfig` becomes a parameter
`loaded: Result<AwsConfig, Error>` (the loaded defaults, or the loader's
error). `s3.NewFromConfig` becomes `Client(settings)`, a client identified by
the settings it was built from. `GetObject` becomes a function parameter. So
does the wrapped location's `ItemByURL` (s3/location.go is not part of this
model).

Go's `awsCfg` is a struct value, so `S3.NewS3Client` updates a datatype field
by field. The URL objects that the overlay changes in place are instances of
the class `NetUrl.Url`. `UnionMeta.ItemByURL` has `modifies url`, and its
`ensures` gives the caller's object its new value.

In these places the code's behaviour may be unexpected; the model follows the code:

- The credential checks test presence only. A present but empty
  `access_key_id` or `secret_key` passes validation (`S3.ValidatePresenceOnly`).
- An item's URL puts the whole text `https://s3-<region>.amazonaws.com/<container>/<id>`
  in `Path` and sets no `Host` (`NewS3.UrlExample`). The region therefore
  appears in the path, not in a host field.
- The overlay has no URL-validation step of its own. Any URL is rewritten
  and passed on.

## Model

| member | source | states |
|---|---|---|
| `S3.AuthType` | s3/config.go:55-58 | the auth type is the configured value when it is present and non-empty, otherwise `accesskey`; never empty |
| `S3.ValidateFunc` | s3/config.go:54-76 | validation can fail only with one of the three errors `invalid auth_type`, `missing Access Key ID`, `missing Secret Key` |
| `S3.ValidateAcceptsIff` | s3/config.go:54-76 | a config is accepted iff its defaulted auth type is `accesskey` or `iam` and, in access-key mode, both credential keys are present |
| `S3.ValidateDefaultsToAccessKey` | s3/config.go:55-58 | an absent or empty `auth_type` validates exactly like `accesskey` |
| `S3.ValidateRejectsUnknownAuthType` | s3/config.go:60-62 | a non-empty `auth_type` other than `accesskey`/`iam` fails with `invalid auth_type` |
| `S3.ValidateMissingAccessKeyID` | s3/config.go:64-68 | in access-key mode a missing `access_key_id` fails with `missing Access Key ID`, whether or not the secret is present |
| `S3.ValidateMissingSecretKey` | s3/config.go:70-73 | in access-key mode, with the ID present, a missing `secret_key` fails with `missing Secret Key` |
| `S3.ValidatePresenceOnly` | s3/config.go:65-72 | changing the value of a present credential key, for example to `""`, never changes the verdict |
| `S3.ValidateIAMIgnoresCredentials` | s3/config.go:60-75 | in `iam` mode validation succeeds whatever credential keys are present |
| `S3.ValidateIgnoresOtherKeys` | s3/config.go:54-76 | setting or removing any key other than the three it reads does not change the verdict |
| `S3.ResolveRegion` | s3/config.go:153-161 | region priority: non-empty argument, else configured `region`, else `us-east-1`; never empty |
| `S3.ClientSettings` | s3/config.go:134-175 | the settings handed to the client: region is the resolved region, every other SDK setting is as loaded, credentials are either the loaded ones or the static pair `(access_key_id, secret_key, "")`, and the endpoint resolver is either the loaded one or one for the configured `endpoint` |
| `S3.ClientSettingsCredentials` | s3/config.go:134-165 | static credentials `(access_key_id, secret_key, "")` are installed exactly in access-key mode; otherwise, and for every other SDK setting, the loaded value stays |
| `S3.ClientSettingsEndpoint` | s3/config.go:167-170 | the endpoint resolver is replaced by one for the configured `endpoint` exactly when that key is present |
| `S3.ClientSettingsIgnoresSslAndSigning` | s3/config.go:172-175 | setting or removing `disable_ssl` or `v2_signing` does not change the client settings |
| `S3.NewS3Client` | s3/config.go:133-228 | a failed load yields no client, empty endpoint and the error behind `failed to load AWS config. Error: `; otherwise the client is built from the resolved settings and the returned endpoint is the configured `endpoint` value |
| `S3.MakeFunc` | s3/config.go:78-114 | the inline checks plus `newS3Client(config, "")` produce exactly the outcome of validation-then-construction |
| `S3.MakeRejectsWhatValidateRejects` | s3/config.go:78-104 | `MakeFunc` fails with `ValidateFunc`'s error whenever validation fails, whatever the load would do; otherwise it fails only when loading fails |
| `S3.KindMatches` | s3/config.go:116-122 | the S3 matcher accepts exactly the URLs that setting the scheme to `s3` leaves unchanged |
| `S3.MakeRegionAndEndpoint` | s3/config.go:101-111 | a built location is in the configured region or `us-east-1`, keeps the config, and its `customEndpoint` is the configured `endpoint` value |
| `NewS3.ID` | news3/item.go:26-31 | the stored id on a non-nil item, `""` on nil |
| `NewS3.Name` | news3/item.go:33-38 | always equal to `ID`: the stored id, or `""` on nil |
| `NewS3.Size` | news3/item.go:40-45 | an error exactly on a nil item, and then `(0, NotFound)`; otherwise the stored size |
| `NewS3.LastMod` | news3/item.go:75-80 | an error exactly on a nil item, and then the zero time with NotFound; otherwise the time `lastModified` points to, which must not be nil |
| `NewS3.ETag` | news3/item.go:82-87 | an error exactly on a nil item, and then `("", NotFound)`; otherwise the stored ETag |
| `NewS3.Metadata` | news3/item.go:89-94 | an error exactly on a nil item, and then a nil map with NotFound; otherwise the stored metadata |
| `NewS3.NilItemAccessors` | news3/item.go:26-94 | on a nil item: `ID`/`Name` give `""`, `Size` gives `(0, NotFound)`, `LastMod` the zero time with NotFound, `ETag` `""` with NotFound, `Metadata` a nil map with NotFound, `URL` the empty URL |
| `NewS3.ItemAccessors` | news3/item.go:26-94 | on any non-nil item `ID`, `Name`, `Size`, `ETag` and `Metadata` return the stored field and no error, whatever `lastModified` is; `LastMod` does so when `lastModified` is not nil |
| `NewS3.IDIsName` | news3/item.go:26-38 | `ID` and `Name` agree on every item, nil or not |
| `NewS3.UrlOf` | news3/item.go:47-55 | a nil item's URL is empty; otherwise scheme `s3`, no host, path `https://s3-<region>.amazonaws.com/<container>/<id>`, all other fields empty |
| `NewS3.URL` | news3/item.go:47-55 | returns a newly allocated URL object holding `UrlOf(i)` and changes nothing else |
| `NewS3.UrlExample` | news3/item.go:52-54 | id `obj.txt`, bucket `bucket1`, region `eu-west-1` give scheme `s3`, empty host, path `https://s3-eu-west-1.amazonaws.com/bucket1/obj.txt` |
| `NewS3.ItemPathInjective` | news3/item.go:52 | when region and container hold no `/`, the formatted path determines region, container and id |
| `NewS3.UrlOfInjective` | news3/item.go:47-55 | two non-nil items with the same URL have the same container and id |
| `NewS3.OpenRequest` | news3/item.go:57-65 | `Open` issues no request on a nil item; otherwise it asks for bucket = container name, key = id |
| `NewS3.Open` | news3/item.go:57-73 | exactly one of body and error; NotFound on a nil item; an error exactly when the item is nil or the client fails its request; a body is the item's own client's answer to the item's request |
| `NewS3.OpenContract` | news3/item.go:57-73 | on a nil item `Open` returns NotFound whatever the client does; otherwise the client's body, or its error wrapped with `opening the item` |
| `UnionMeta.UrlOf` | unionmeta/item.go:12-16 | the overlay item's URL has scheme `unionmeta` and every other field equal to the wrapped item's URL |
| `UnionMeta.URL` | unionmeta/item.go:12-16 | returns the wrapped item's new URL object with its scheme overwritten to `unionmeta`; no object the caller held is changed |
| `UnionMeta.UrlOfInjective` | unionmeta/item.go:12-16 | two non-nil overlay items with the same URL wrap items with the same container and id |
| `UnionMeta.Delegated` | unionmeta/location.go:14 | the wrapped location sees the caller's URL with only the scheme replaced by `targetScheme` |
| `UnionMeta.ItemByURL` | unionmeta/location.go:13-21 | the caller's URL object is rewritten in place to the delegated URL; the result is the wrapped location's answer to that URL, with an item wrapped |
| `UnionMeta.DelegatedIdempotent` | unionmeta/location.go:14 | a URL already carrying the target scheme is passed on unchanged; rewriting twice equals rewriting once |
| `UnionMeta.ItemByURLPropagates` | unionmeta/location.go:15-20 | a wrapped-location error is returned unchanged with no item; on success the overlay item wraps exactly the returned item |
| `UnionMeta.MakeFunc` | unionmeta/config.go:13-23 | the overlay constructor produces exactly `MakeOutcome`: the S3 constructor's outcome, with the error wrapped or the location wrapped |
| `UnionMeta.MakeWrapsS3` | unionmeta/config.go:13-23 | S3 failure `e` gives `failed to initialize the underlying location: ` wrapping `e`; success wraps exactly the S3 location, with `targetScheme` `s3` |
| `UnionMeta.MakeRejectsWhatValidatorRejects` | unionmeta/config.go:13-17 | whenever the overlay's registered validator rejects a config, the overlay constructor fails with that error wrapped; when it accepts and loading succeeds, construction succeeds |
| `UnionMeta.KindMatches` | unionmeta/config.go:26-28 | the overlay matcher accepts exactly the URLs that setting the scheme to `unionmeta` leaves unchanged, and never a URL the S3 matcher accepts |
| `UnionMeta.RegistrationsAgreeAndAreDisjoint` | unionmeta/config.go:25-31 | kinds are `unionmeta` and `s3`; each matcher accepts exactly its own scheme; the overlay validator agrees with S3's on every config; no URL is accepted by both matchers |
| `UnionMeta.SchemeRoundTrip` | unionmeta/location.go:14 | through a constructed overlay, a `unionmeta` URL reaches the wrapped location as an `s3` URL (S3 matcher accepts it, other fields unchanged), and a returned item reports a `unionmeta` URL |
| `UnionMeta.ItemRoundTrip` | unionmeta/location.go:13-21 | if the wrapped location resolves an S3 item's URL to that item, the overlay item's URL resolves through the overlay to the same overlay item, with the same URL |

## Left out

- AWS SDK calls (`LoadDefaultConfig`, `NewFromConfig`, `EndpointResolverFromURL`, `NewStaticCredentialsProvider`, `GetObject`): foreign library and network I/O. They are parameters or opaque values; `EndpointFromURL(url)` records only the URL the resolver was built from.
- `awsEndpointResolverAdaptor` (s3/config.go:124-130): a thin adapter over SDK types.
- The `disable_ssl` branch and the commented-out signing block (s3/config.go:172-225): they have no effect, and `S3.ClientSettingsIgnoresSslAndSigning` states as much.
- `stow.Register` and the registry: its source is not part of this model. Only the (kind, matcher, validator) tuple each `init` passes is modelled. The constructor is a method, which a value cannot hold, so the tuple omits it.
- Operations forwarded by Go embedding (every location and item method other than `ItemByURL` and `URL`): without traits, the overlay holds the concrete S3 location and item. A forwarded call is the S3 function applied to `inner`, and there is nothing to state beyond that identity.
- The overlay is modelled over the item of news3/item.go. This is a modelling choice, not the program's wiring: unionmeta/config.go wraps the location of the `s3` package, whose own location and item files are not part of this model. `UnionMeta.UrlOfInjective` and `UnionMeta.ItemRoundTrip` therefore hold for item URLs in news3's `https://s3-<region>.amazonaws.com/<container>/<id>` format only.
- `NewS3.LastMod`: a nil `lastModified` on a non-nil item would make Go panic; it is a precondition here.
- An item whose `container` pointer is nil would make `URL` and `Open` panic in Go; the model always has a container.
- `UnionMeta.ItemByURL`: the wrapped location's `ItemByURL` is a pure function of the URL's value, so the model assumes it neither changes nor keeps the caller's URL object. The post-state of the caller's URL holds under that assumption.
- `io.ReadCloser` streams, `context.Background`, `time.Time` and metadata values: opaque values.
- Error rendering (`Error()` strings): errors are values that keep the prefix or message and the wrapped cause, and the text is not built.
- `url.URL`'s `User` pointer is a string, empty for nil; `OmitHost` is not modelled.
