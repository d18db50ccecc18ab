/**
 * The two request-level decisions that are plain functions of strings: the
 * CORS `origin` callback that admits or refuses a browser origin, and
 * `getBaseUrl`, which picks the public base of an uploaded image's URL.
 */
module Web {
  import opened JsValues

  const AllowedOrigins: seq<string> := [
    "https://chrisw0987.github.io",
    "https://chrisw0987.github.io/snackaroo-admin",
    "https://chrisw0987.github.io/snackaroo-frontend"
  ]

  predicate StartsWith(s: string, prefix: string) {
    |prefix| <= |s| && s[..|prefix|] == prefix
  }

  /** `prefixes.some(o => s.startsWith(o))`. */
  function SomePrefix(prefixes: seq<string>, s: string): (ok: bool)
    ensures ok <==> exists o :: o in prefixes && StartsWith(s, o)
  {
    if |prefixes| == 0 then false
    else
      assert forall o :: o in prefixes <==> o == prefixes[0] || o in prefixes[1..];
      StartsWith(s, prefixes[0]) || SomePrefix(prefixes[1..], s)
  }

  /**
   * The origin callback as written: a missing or empty origin is admitted,
   * and so is any origin that merely starts with an allowed entry.
   */
  function OriginAllowed(origin: Option<string>): (ok: bool)
    ensures ok <==> !Truthy(origin) || exists o :: o in AllowedOrigins && StartsWith(origin.value, o)
  {
    !Truthy(origin) || SomePrefix(AllowedOrigins, origin.value)
  }

  /** The longer entries add nothing: each starts with the first entry. */
  lemma OnlyFirstEntryMatters(origin: Option<string>)
    ensures OriginAllowed(origin) <==> !Truthy(origin) || StartsWith(origin.value, AllowedOrigins[0])
  {
    if Truthy(origin) && OriginAllowed(origin) {
      var s := origin.value;
      var o :| o in AllowedOrigins && StartsWith(s, o);
      assert StartsWith(o, AllowedOrigins[0]);
      assert s[..|AllowedOrigins[0]|] == o[..|AllowedOrigins[0]|];
    }
  }

  /** An origin on a host the shop does not own passes the prefix test. */
  lemma PrefixAdmitsForeignHost()
    ensures OriginAllowed(Some("https://chrisw0987.github.io.attacker.example"))
  {
    var s := "https://chrisw0987.github.io.attacker.example";
    assert s[..|AllowedOrigins[0]|] == AllowedOrigins[0];
    assert StartsWith(s, AllowedOrigins[0]);
  }

  /**
   * The evidently intended check: an Origin header is a scheme, a host and an
   * optional port, so an allowed origin is one that equals an allowed entry.
   */
  function OriginAllowedExact(origin: Option<string>): (ok: bool)
    ensures ok <==> !Truthy(origin) || origin.value in AllowedOrigins
  {
    !Truthy(origin) || origin.value in AllowedOrigins
  }

  /** The exact check refuses the foreign host, and admits nothing the prefix test refuses. */
  lemma ExactRefusesForeignHost(origin: Option<string>)
    ensures !OriginAllowedExact(Some("https://chrisw0987.github.io.attacker.example"))
    ensures OriginAllowedExact(origin) ==> OriginAllowed(origin)
  {
    var s := "https://chrisw0987.github.io.attacker.example";
    assert |s| != |AllowedOrigins[0]|;
    assert s != AllowedOrigins[1] by {
      assert s[28] != AllowedOrigins[1][28];
    }
    assert s != AllowedOrigins[2] by {
      assert s[28] != AllowedOrigins[2][28];
    }
    if Truthy(origin) && OriginAllowedExact(origin) {
      assert StartsWith(origin.value, origin.value);
    }
  }

  /** The request headers and the Express fields `getBaseUrl` reads. */
  datatype Request = Request(
    forwardedProto: Option<string>,
    protocol: Option<string>,
    forwardedHost: Option<string>,
    host: Option<string>)

  /** `s.split(',')[0]`: everything before the first comma. */
  function BeforeComma(s: string): (r: string)
    ensures ',' !in r
    ensures |r| <= |s| && r == s[..|r|]
    ensures |r| < |s| ==> s[|r|] == ','
  {
    if |s| == 0 || s[0] == ',' then ""
    else [s[0]] + BeforeComma(s[1..])
  }

  /** The scheme: the first entry of the forwarded protocol, else Express's protocol, else "http". */
  function Scheme(req: Request): string {
    BeforeComma(OrElse(Or(req.forwardedProto, req.protocol), "http"))
  }

  /**
   * `getBaseUrl` (the declaration at line 118): the configured public URL, then
   * the platform's external URL, then the scheme and host the request carries.
   */
  function BaseUrl(publicBaseUrl: Option<string>, externalUrl: Option<string>, req: Request): (url: string)
  {
    var explicit := Or(publicBaseUrl, externalUrl);
    if Truthy(explicit) then explicit.value
    else Scheme(req) + "://" + Render(Or(req.forwardedHost, req.host))
  }

  /** The base URL's sources in priority order, and the shape of the derived one. */
  lemma BaseUrlPriority(publicBaseUrl: Option<string>, externalUrl: Option<string>, req: Request)
    ensures Truthy(publicBaseUrl) ==> BaseUrl(publicBaseUrl, externalUrl, req) == publicBaseUrl.value
    ensures !Truthy(publicBaseUrl) && Truthy(externalUrl) ==> BaseUrl(publicBaseUrl, externalUrl, req) == externalUrl.value
    ensures !Truthy(publicBaseUrl) && !Truthy(externalUrl) ==>
      var url := BaseUrl(publicBaseUrl, externalUrl, req);
      var scheme := Scheme(req);
      && ',' !in scheme
      && StartsWith(url, scheme + "://")
      && (Truthy(req.forwardedProto) ==> scheme == BeforeComma(req.forwardedProto.value))
      && (!Truthy(req.forwardedProto) && Truthy(req.protocol) ==> scheme == BeforeComma(req.protocol.value))
      && (!Truthy(req.forwardedProto) && !Truthy(req.protocol) ==> scheme == "http")
      && (Truthy(req.forwardedHost) ==> url == scheme + "://" + req.forwardedHost.value)
      && (!Truthy(req.forwardedHost) ==> url == scheme + "://" + Render(req.host))
  {
    if !Truthy(publicBaseUrl) && !Truthy(externalUrl) {
      var url := BaseUrl(publicBaseUrl, externalUrl, req);
      var prefix := Scheme(req) + "://";
      assert url == prefix + Render(Or(req.forwardedHost, req.host));
      assert url[..|prefix|] == prefix;
      if !Truthy(req.forwardedProto) && !Truthy(req.protocol) {
        assert BeforeComma("http") == "http";
      }
    }
  }
}
