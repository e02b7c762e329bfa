/** Go's `net/url.URL`, as a heap object whose fields can be assigned in
    place, and as a value (`UrlValue`) for stating what a URL holds. */
module NetUrl {

  /** The fields of a `url.URL`. `user` stands for the `*Userinfo` pointer,
      the empty string for nil. */
  datatype UrlValue = UrlValue(
    scheme: string,
    opaquePart: string,  // Go field Opaque
    user: string,
    host: string,
    path: string,
    rawPath: string,
    forceQuery: bool,
    rawQuery: string,
    fragment: string,
    rawFragment: string)

  /** `url.URL{}`. */
  const EmptyUrl := UrlValue("", "", "", "", "", "", false, "", "", "")

  /** `a` and `b` agree on every field except, possibly, the scheme. */
  predicate SameButScheme(a: UrlValue, b: UrlValue) {
    a.(scheme := b.scheme) == b
  }

  class Url {
    var scheme: string
    var opaquePart: string
    var user: string
    var host: string
    var path: string
    var rawPath: string
    var forceQuery: bool
    var rawQuery: string
    var fragment: string
    var rawFragment: string

    /** `&url.URL{...}` with the given fields. */
    constructor (v: UrlValue)
      ensures Value() == v
    {
      scheme, opaquePart, user, host, path := v.scheme, v.opaquePart, v.user, v.host, v.path;
      rawPath, forceQuery, rawQuery := v.rawPath, v.forceQuery, v.rawQuery;
      fragment, rawFragment := v.fragment, v.rawFragment;
    }

    /** The current contents of this URL object. */
    function Value(): UrlValue
      reads this
    {
      UrlValue(scheme, opaquePart, user, host, path, rawPath, forceQuery, rawQuery, fragment, rawFragment)
    }
  }
}
