/** The S3 item (news3/item.go): accessors that tolerate a nil item, the
    URL derived from region, container and id, and the nil guard of `Open`.
    An item pointer is an `ItemRef`, `None` standing for nil. */
module NewS3 {
  import opened Wrappers
  import opened Stow
  import opened NetUrl

  newtype int64 = x: int | -0x8000_0000_0000_0000 <= x < 0x8000_0000_0000_0000

  /** `time.Time`, opaque; `ZeroTime` is `time.Time{}`. */
  datatype Time = Time(repr: int)
  const ZeroTime := Time(0)

  /** A metadata value (`interface{}`), opaque. */
  datatype MetaValue = MetaValue(repr: nat)

  /** A metadata map; `None` is the nil map. */
  type MetaMap = Option<map<string, MetaValue>>

  /** The fields of the item's container that the item reads. */
  datatype Container = Container(name: string, region: string)

  /** The S3 client the item holds, opaque. */
  datatype ClientHandle = ClientHandle(repr: nat)

  /** The `item` struct. `lastModified` is a pointer and may be nil. */
  datatype Item = Item(
    id: string,
    container: Container,
    client: ClientHandle,
    eTag: string,
    lastModified: Option<Time>,
    size: int64,
    metadata: MetaMap)

  /** A `*item`: `None` is the nil pointer. */
  type ItemRef = Option<Item>

  const Scheme := "s3"

  function ID(i: ItemRef): (id: string)
    ensures i.None? ==> id == ""
    ensures i.Some? ==> id == i.value.id
  {
    if i.None? then "" else i.value.id
  }

  function Name(i: ItemRef): (name: string)
    ensures name == ID(i)
  {
    if i.None? then "" else i.value.id
  }

  function Size(i: ItemRef): (r: (int64, Option<Error>))
    ensures r.1.Some? <==> i.None?
    ensures i.None? ==> r == (0, Some(NotFound))
    ensures i.Some? ==> r.0 == i.value.size
  {
    if i.None? then (0, Some(NotFound)) else (i.value.size, None)
  }

  /** `LastMod` dereferences `lastModified`, so a non-nil item must have one. */
  function LastMod(i: ItemRef): (r: (Time, Option<Error>))
    requires i.Some? ==> i.value.lastModified.Some?
    ensures r.1.Some? <==> i.None?
    ensures i.None? ==> r == (ZeroTime, Some(NotFound))
    ensures i.Some? ==> i.value.lastModified == Some(r.0)
  {
    if i.None? then (ZeroTime, Some(NotFound)) else (i.value.lastModified.value, None)
  }

  function ETag(i: ItemRef): (r: (string, Option<Error>))
    ensures r.1.Some? <==> i.None?
    ensures i.None? ==> r == ("", Some(NotFound))
    ensures i.Some? ==> r.0 == i.value.eTag
  {
    if i.None? then ("", Some(NotFound)) else (i.value.eTag, None)
  }

  function Metadata(i: ItemRef): (r: (MetaMap, Option<Error>))
    ensures r.1.Some? <==> i.None?
    ensures i.None? ==> r == (None, Some(NotFound))
    ensures i.Some? ==> r.0 == i.value.metadata
  {
    if i.None? then (None, Some(NotFound)) else (i.value.metadata, None)
  }

  /** Every accessor on a nil item returns its zero value, and NotFound
      where it has an error result. */
  lemma NilItemAccessors()
    ensures ID(None) == "" && Name(None) == ""
    ensures Size(None) == (0, Some(NotFound))
    ensures LastMod(None) == (ZeroTime, Some(NotFound))
    ensures ETag(None) == ("", Some(NotFound))
    ensures Metadata(None) == (None, Some(NotFound))
    ensures UrlOf(None) == EmptyUrl
  {
  }

  /** On a non-nil item every accessor returns the stored field and no
      error; `ID` and `Name` both return the id. */
  lemma ItemAccessors(x: Item)
    ensures ID(Some(x)) == x.id && Name(Some(x)) == x.id
    ensures Size(Some(x)) == (x.size, None)
    ensures x.lastModified.Some? ==> LastMod(Some(x)) == (x.lastModified.value, None)
    ensures ETag(Some(x)) == (x.eTag, None)
    ensures Metadata(Some(x)) == (x.metadata, None)
  {
  }

  /** `ID` and `Name` agree on every item, nil or not. */
  lemma IDIsName(i: ItemRef)
    ensures ID(i) == Name(i)
  {
  }

  // ---------------------------------------------------------------------
  // URL
  // ---------------------------------------------------------------------

  /** The text `fmt.Sprintf("https://s3-%s.amazonaws.com/%s/%s", ...)`. */
  function ItemPath(region: string, container: string, id: string): string {
    "https://s3-" + region + ".amazonaws.com/" + container + "/" + id
  }

  /** The URL of an item: empty on nil; otherwise scheme `s3` and the whole
      `https://...` text as the path, with no host. */
  function UrlOf(i: ItemRef): (u: UrlValue)
    ensures i.None? ==> u == EmptyUrl
    ensures i.Some? ==> u.scheme == Scheme && u.host == ""
    ensures i.Some? ==> u.path == ItemPath(i.value.container.region, i.value.container.name, i.value.id)
    ensures i.Some? ==> SameButScheme(EmptyUrl.(path := u.path), u)
  {
    if i.None? then EmptyUrl
    else EmptyUrl.(scheme := Scheme, path := ItemPath(i.value.container.region, i.value.container.name, i.value.id))
  }

  /** `URL()`: a new URL object holding `UrlOf(i)`; nothing else changes. */
  method URL(i: ItemRef) returns (u: Url)
    ensures fresh(u)
    ensures u.Value() == UrlOf(i)
  {
    if i.None? {
      u := new Url(EmptyUrl);
      return;
    }
    var p := ItemPath(i.value.container.region, i.value.container.name, i.value.id);
    u := new Url(EmptyUrl.(scheme := "s3", path := p));
  }

  /** A native item in bucket1, eu-west-1: the region is in the path, not
      the host. */
  lemma UrlExample(x: Item)
    requires x.id == "obj.txt" && x.container == Container("bucket1", "eu-west-1")
    ensures UrlOf(Some(x)).scheme == "s3"
    ensures UrlOf(Some(x)).path == "https://s3-eu-west-1.amazonaws.com/bucket1/obj.txt"
    ensures UrlOf(Some(x)).host == ""
  {
  }

  /** No '/' in `s`. */
  predicate NoSlash(s: string) {
    forall k :: 0 <= k < |s| ==> s[k] != '/'
  }

  /** In an item path, the first '/' after "https://" sits right after the
      region and ".amazonaws.com", when the region holds no '/'. */
  lemma FirstSlashAfterHost(region: string, rest: string, k: int)
    requires NoSlash(region)
    requires 8 <= k < 11 + |region| + 14
    ensures ("https://s3-" + region + ".amazonaws.com/" + rest)[k] != '/'
  {
  }

  /** Distinct items have distinct URL paths: when regions and container
      names hold no '/', as S3 region and bucket names do not, the path
      determines region, container and id. */
  lemma {:induction false} ItemPathInjective(r1: string, c1: string, id1: string, r2: string, c2: string, id2: string)
    requires NoSlash(r1) && NoSlash(r2) && NoSlash(c1) && NoSlash(c2)
    requires ItemPath(r1, c1, id1) == ItemPath(r2, c2, id2)
    ensures r1 == r2 && c1 == c2 && id1 == id2
  {
    var p := ItemPath(r1, c1, id1);
    var rest1, rest2 := c1 + "/" + id1, c2 + "/" + id2;
    assert p == "https://s3-" + r1 + ".amazonaws.com/" + rest1;
    assert p == "https://s3-" + r2 + ".amazonaws.com/" + rest2;
    assert p[11 + |r1| + 14] == '/';
    assert p[11 + |r2| + 14] == '/';
    if |r1| < |r2| {
      FirstSlashAfterHost(r2, rest2, 11 + |r1| + 14);
    } else if |r2| < |r1| {
      FirstSlashAfterHost(r1, rest1, 11 + |r2| + 14);
    }
    assert r1 == p[11..11 + |r1|] == r2;
    var n := 11 + |r1| + 15;
    assert p[n..] == rest1 && p[n..] == rest2;
    assert rest1[|c1|] == '/' && rest2[|c2|] == '/';
    assert c1 == rest1[..|c1|] == c2;
    assert id1 == rest1[|c1| + 1..] == id2;
  }

  /** Hence two non-nil items' URLs coincide only when their region,
      container name and id do. */
  lemma UrlOfInjective(x: Item, y: Item)
    requires NoSlash(x.container.region) && NoSlash(x.container.name)
    requires NoSlash(y.container.region) && NoSlash(y.container.name)
    requires UrlOf(Some(x)) == UrlOf(Some(y))
    ensures x.container == y.container && x.id == y.id
  {
    ItemPathInjective(x.container.region, x.container.name, x.id, y.container.region, y.container.name, y.id);
  }

  // ---------------------------------------------------------------------
  // Open
  // ---------------------------------------------------------------------

  /** The request `Open` sends: bucket and key of the item. */
  datatype GetObjectInput = GetObjectInput(bucket: string, key: string)

  /** The body stream of an object, opaque. */
  datatype ReadCloser = ReadCloser(repr: nat)

  const OpenErrorMessage := "opening the item"

  /** The request `Open` issues, if any: none on a nil item. */
  function OpenRequest(i: ItemRef): (req: Option<GetObjectInput>)
    ensures req.None? <==> i.None?
    ensures i.Some? ==> req.value.bucket == i.value.container.name && req.value.key == i.value.id
  {
    if i.None? then None else Some(GetObjectInput(i.value.container.name, i.value.id))
  }

  /** `GetObject` as answered by a given client. */
  type GetObject = (ClientHandle, GetObjectInput) -> Result<ReadCloser, Error>

  /** `Open`: the item's request, sent through the item's own client. */
  function Open(i: ItemRef, getObject: GetObject): (r: (Option<ReadCloser>, Option<Error>))
    ensures r.0.Some? <==> r.1.None?
    ensures i.None? ==> r.1 == Some(NotFound)
    ensures r.1.Some? <==> i.None? || getObject(i.value.client, OpenRequest(i).value).Failure?
    ensures r.0.Some? ==> i.Some? && getObject(i.value.client, OpenRequest(i).value) == Success(r.0.value)
  {
    if i.None? then (None, Some(NotFound))
    else
      match getObject(i.value.client, OpenRequest(i).value)
      case Failure(e) => (None, Some(Wrap(OpenErrorMessage, e)))
      case Success(body) => (Some(body), None)
  }

  /** On a nil item `Open` returns NotFound whatever the client would do:
      the client is not consulted. On a non-nil item the outcome is the
      client's answer to the item's request, its error wrapped. */
  lemma OpenContract(i: ItemRef, g1: GetObject, g2: GetObject)
    ensures i.None? ==> Open(i, g1) == Open(i, g2) == (None, Some(NotFound))
    ensures i.Some? && g1(i.value.client, GetObjectInput(i.value.container.name, i.value.id)).Failure? ==>
      Open(i, g1) == (None, Some(Wrap(OpenErrorMessage, g1(i.value.client, GetObjectInput(i.value.container.name, i.value.id)).error)))
    ensures i.Some? && g1(i.value.client, GetObjectInput(i.value.container.name, i.value.id)).Success? ==>
      Open(i, g1) == (Some(g1(i.value.client, GetObjectInput(i.value.container.name, i.value.id)).value), None)
  {
  }
}
