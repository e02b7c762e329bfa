/** The `unionmeta` overlay (unionmeta/config.go, location.go, item.go): a
    location and item that wrap the S3 backend's, present the scheme
    `unionmeta` outwards and hand the wrapped location URLs with scheme `s3`.
    The wrapped location's own `ItemByURL` is code this model does not
    contain; it is passed in as `lookup`. */
module UnionMeta {
  import opened Wrappers
  import opened Stow
  import opened NetUrl
  import S3
  import NewS3

  /** The kind, which is also the scheme the overlay presents. */
  const Kind := "unionmeta"

  const UnderlyingInitPrefix := "failed to initialize the underlying location: "

  // ---------------------------------------------------------------------
  // item.go
  // ---------------------------------------------------------------------

  /** `item`: embeds the wrapped S3 item. */
  datatype Item = Item(inner: NewS3.ItemRef)

  /** The URL the overlay item reports: the wrapped item's URL with the
      scheme `unionmeta`, every other field as the wrapped item made it. */
  function UrlOf(it: Item): (u: UrlValue)
    ensures u.scheme == Kind
    ensures SameButScheme(NewS3.UrlOf(it.inner), u)
  {
    NewS3.UrlOf(it.inner).(scheme := Kind)
  }

  /** `URL()`: asks the wrapped item for its URL object and overwrites that
      object's scheme in place. The wrapped item allocates a new object per
      call, so no object the caller already holds is touched. */
  method URL(it: Item) returns (u: Url)
    ensures fresh(u)
    ensures u.Value() == UrlOf(it)
  {
    u := NewS3.URL(it.inner);
    u.scheme := Kind;
  }

  /** Overlay URLs keep the wrapped URLs apart: two non-nil overlay items
      report the same URL only when they address the same object. */
  lemma UrlOfInjective(x: NewS3.Item, y: NewS3.Item)
    requires NewS3.NoSlash(x.container.region) && NewS3.NoSlash(x.container.name)
    requires NewS3.NoSlash(y.container.region) && NewS3.NoSlash(y.container.name)
    requires UrlOf(Item(Some(x))) == UrlOf(Item(Some(y)))
    ensures x.container == y.container && x.id == y.id
  {
    assert NewS3.UrlOf(Some(x)) == UrlOf(Item(Some(x))).(scheme := NewS3.Scheme);
    NewS3.UrlOfInjective(x, y);
  }

  // ---------------------------------------------------------------------
  // location.go
  // ---------------------------------------------------------------------

  /** `location`: embeds the wrapped S3 location and adds the scheme to
      hand it. */
  datatype Location = Location(inner: S3.Location, targetScheme: string)

  /** What the wrapped location's `ItemByURL` returns, given the location
      and the URL it receives. */
  type Lookup = (S3.Location, UrlValue) -> Result<NewS3.ItemRef, Error>

  /** The URL the wrapped location receives when the caller's URL is `v`. */
  function Delegated(l: Location, v: UrlValue): (d: UrlValue)
    ensures d.scheme == l.targetScheme
    ensures SameButScheme(v, d)
  {
    v.(scheme := l.targetScheme)
  }

  /** What `ItemByURL` returns for the caller's URL `v`: the wrapped
      location's error unchanged, or its item wrapped. */
  function ItemByURLOutcome(l: Location, v: UrlValue, lookup: Lookup): Result<Item, Error> {
    match lookup(l.inner, Delegated(l, v))
    case Failure(e) => Failure(e)
    case Success(i) => Success(Item(i))
  }

  /** `ItemByURL`: overwrites the scheme of the caller's URL object in
      place, then delegates to the wrapped location with that same object. */
  method ItemByURL(l: Location, url: Url, lookup: Lookup) returns (r: Result<Item, Error>)
    modifies url
    ensures url.Value() == Delegated(l, old(url.Value()))
    ensures r == ItemByURLOutcome(l, old(url.Value()), lookup)
  {
    url.scheme := l.targetScheme;
    var i := lookup(l.inner, url.Value());
    if i.Failure? {
      return Failure(i.error);
    }
    return Success(Item(i.value));
  }

  /** The scheme rewrite is idempotent: a URL already carrying the target
      scheme is handed on as it is, and rewriting twice is rewriting once. */
  lemma DelegatedIdempotent(l: Location, v: UrlValue)
    ensures v.scheme == l.targetScheme ==> Delegated(l, v) == v
    ensures Delegated(l, Delegated(l, v)) == Delegated(l, v)
  {
  }

  /** The wrapped location's error comes back unchanged and no item; its
      item comes back wrapped as it is. */
  lemma ItemByURLPropagates(l: Location, v: UrlValue, lookup: Lookup)
    ensures lookup(l.inner, Delegated(l, v)).Failure? ==>
      ItemByURLOutcome(l, v, lookup) == Failure(lookup(l.inner, Delegated(l, v)).error)
    ensures lookup(l.inner, Delegated(l, v)).Success? ==>
      ItemByURLOutcome(l, v, lookup).Success? &&
      ItemByURLOutcome(l, v, lookup).value.inner == lookup(l.inner, Delegated(l, v)).value
  {
  }

  // ---------------------------------------------------------------------
  // config.go
  // ---------------------------------------------------------------------

  /** What `MakeFunc` returns: the S3 constructor's error wrapped, or an
      overlay location around the S3 location with target scheme `s3`. */
  function MakeOutcome(config: Config, loaded: Result<S3.AwsConfig, Error>): Result<Location, Error> {
    match S3.MakeOutcome(config, loaded)
    case Failure(e) => Failure(Errorf(UnderlyingInitPrefix, e))
    case Success(loc) => Success(Location(loc, "s3"))
  }

  /** `MakeFunc`: builds the S3 location with the S3 constructor and wraps
      it, or wraps the constructor's error. */
  method MakeFunc(config: Config, loaded: Result<S3.AwsConfig, Error>) returns (r: Result<Location, Error>)
    ensures r == MakeOutcome(config, loaded)
  {
    var s3Loc := S3.MakeFunc(config, loaded);
    if s3Loc.Failure? {
      return Failure(Errorf(UnderlyingInitPrefix, s3Loc.error));
    }
    return Success(Location(s3Loc.value, "s3"));
  }

  /** The overlay fails exactly when the S3 constructor does, with that
      error behind the prefix; on success it wraps exactly the S3 location
      and hands it URLs with the S3 backend's own scheme. */
  lemma MakeWrapsS3(config: Config, loaded: Result<S3.AwsConfig, Error>)
    ensures S3.MakeOutcome(config, loaded).Failure? ==>
      MakeOutcome(config, loaded) == Failure(Errorf(UnderlyingInitPrefix, S3.MakeOutcome(config, loaded).error))
    ensures S3.MakeOutcome(config, loaded).Success? ==>
      && MakeOutcome(config, loaded).Success?
      && MakeOutcome(config, loaded).value.inner == S3.MakeOutcome(config, loaded).value
      && MakeOutcome(config, loaded).value.targetScheme == S3.Kind
  {
  }

  /** The overlay's constructor rejects exactly the configurations its
      registered validator (the S3 one) rejects, that error wrapped. */
  lemma MakeRejectsWhatValidatorRejects(config: Config, loaded: Result<S3.AwsConfig, Error>)
    ensures Registration.validate(config).Some? ==>
      MakeOutcome(config, loaded) == Failure(Errorf(UnderlyingInitPrefix, Registration.validate(config).value))
    ensures Registration.validate(config).None? && loaded.Success? ==> MakeOutcome(config, loaded).Success?
  {
  }

  /** The URL matcher `init` registers. */
  function KindMatches(u: UrlValue): (b: bool)
    ensures b <==> u.(scheme := Kind) == u
    ensures b ==> !S3.KindMatches(u)
  {
    u.scheme == Kind
  }

  /** The (kind, matcher, validator) tuple `init` registers: the validator
      is the S3 backend's. */
  const Registration: Stow.Registration := Stow.Registration(Kind, KindMatches, S3.ValidateFunc)

  /** The overlay's registration agrees with the S3 backend's on validation
      of every configuration, and the two matchers never accept the same
      URL, so a URL resolves to at most one of the two kinds. */
  lemma RegistrationsAgreeAndAreDisjoint(config: Config, u: UrlValue)
    ensures Registration.kind == "unionmeta" && S3.Registration.kind == "s3"
    ensures Registration.urlMatches(u) <==> u.scheme == "unionmeta"
    ensures S3.Registration.urlMatches(u) <==> u.scheme == "s3"
    ensures Registration.validate(config) == S3.Registration.validate(config)
    ensures !(Registration.urlMatches(u) && S3.Registration.urlMatches(u))
  {
  }

  // ---------------------------------------------------------------------
  // Scheme round trip
  // ---------------------------------------------------------------------

  /** Through an overlay location built by `MakeFunc`: a `unionmeta` URL
      reaches the wrapped location as an `s3` URL the S3 matcher accepts,
      otherwise unchanged, and the item that comes back reports a URL the
      overlay matcher accepts again. */
  lemma SchemeRoundTrip(config: Config, loaded: Result<S3.AwsConfig, Error>, v: UrlValue, lookup: Lookup)
    requires MakeOutcome(config, loaded).Success?
    requires KindMatches(v)
    ensures var l := MakeOutcome(config, loaded).value;
      && S3.KindMatches(Delegated(l, v))
      && SameButScheme(v, Delegated(l, v))
      && (ItemByURLOutcome(l, v, lookup).Success? ==> KindMatches(UrlOf(ItemByURLOutcome(l, v, lookup).value)))
  {
  }

  /** When the wrapped location resolves each S3 item URL to that item, an
      overlay item's URL leads back, through the overlay location, to an
      overlay item around the same S3 item, which reports the same URL. */
  lemma ItemRoundTrip(config: Config, loaded: Result<S3.AwsConfig, Error>, x: NewS3.Item, lookup: Lookup)
    requires MakeOutcome(config, loaded).Success?
    requires lookup(MakeOutcome(config, loaded).value.inner, NewS3.UrlOf(Some(x))) == Success(Some(x))
    ensures var l := MakeOutcome(config, loaded).value;
      && ItemByURLOutcome(l, UrlOf(Item(Some(x))), lookup) == Success(Item(Some(x)))
      && UrlOf(ItemByURLOutcome(l, UrlOf(Item(Some(x))), lookup).value) == UrlOf(Item(Some(x)))
  {
  }
}
