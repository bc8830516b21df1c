/**
 * The redirect that hands a delegation back to the calling application:
 * `${scheme}://${host}?del=${result}&status=true` in src/frontend/src/auth.js and the
 * same template with `host` and `scheme` exchanged in src/dashboard/use-auth-client.jsx.
 */
module Redirect {
  import opened Wrappers
  import UriComponent

  /** How a template literal renders a value that is a string or `null`. */
  function Render(v: Option<string>): (r: string)
    ensures v.Some? ==> r == v.value
    ensures v.None? ==> r == "null"
  {
    match v
    case None => "null"
    case Some(s) => s
  }

  /** The target in src/frontend/src/auth.js. */
  function RedirectUrl(scheme: Option<string>, host: Option<string>, del: string): string {
    Render(scheme) + "://" + Render(host) + "?del=" + del + "&status=true"
  }

  /** The target in src/dashboard/use-auth-client.jsx: `host` first, `scheme` after `://`. */
  function DashboardRedirectUrl(scheme: Option<string>, host: Option<string>, del: string): string {
    Render(host) + "://" + Render(scheme) + "?del=" + del + "&status=true"
  }

  /** The text before the first `c` and the text after it; `None` when `c` does not occur. */
  function SplitFirst(s: string, c: char): (r: Option<(string, string)>)
    ensures r.Some? ==> s == r.value.0 + [c] + r.value.1 && c !in r.value.0
    ensures r.None? ==> c !in s
  {
    if s == [] then None
    else if s[0] == c then Some(([], s[1..]))
    else match SplitFirst(s[1..], c)
      case None => None
      case Some(p) => Some(([s[0]] + p.0, p.1))
  }

  lemma {:induction false} SplitFirstConcat(a: string, c: char, b: string)
    requires c !in a
    ensures SplitFirst(a + [c] + b, c) == Some((a, b))
  {
    if a != [] {
      assert (a + [c] + b)[1..] == a[1..] + [c] + b;
      SplitFirstConcat(a[1..], c, b);
      assert [a[0]] + a[1..] == a;
    }
  }

  /** What a receiving application reads back from a redirect target. */
  datatype Target = Target(scheme: string, host: string, del: string)

  /** Reads `del=<del>&status=true`, taking the delegation up to the first `&`. */
  function ParseQuery(query: string): Option<string> {
    if |query| < 4 || query[..4] != "del=" then None
    else match SplitFirst(query[4..], '&')
      case None => None
      case Some(p) => if p.1 == "status=true" then Some(p.0) else None
  }

  /** Reads `//<host>?<query>`, taking the host up to the first `?`. */
  function ParseAuthority(scheme: string, afterColon: string): Option<Target> {
    if |afterColon| < 2 || afterColon[..2] != "//" then None
    else match SplitFirst(afterColon[2..], '?')
      case None => None
      case Some(p) =>
        match ParseQuery(p.1)
        case None => None
        case Some(del) => Some(Target(scheme, p.0, del))
  }

  /** Reads `<scheme>://<host>?del=<del>&status=true`, taking the scheme up to the first `:`. */
  function ParseRedirect(url: string): Option<Target> {
    match SplitFirst(url, ':')
    case None => None
    case Some(p) => ParseAuthority(p.0, p.1)
  }

  /** An encoded delegation holds no `&`. */
  lemma EncodedHasNoAmpersand(json: string)
    ensures '&' !in UriComponent.Encode(json)
  {
  }

  lemma ParseQueryBack(del: string)
    requires '&' !in del
    ensures ParseQuery("del=" + del + "&status=true") == Some(del)
  {
    var query := "del=" + del + "&status=true";
    assert query[..4] == "del=";
    assert query[4..] == del + ['&'] + "status=true";
    SplitFirstConcat(del, '&', "status=true");
  }

  lemma ParseAuthorityBack(scheme: string, second: string, del: string)
    requires '?' !in second && '&' !in del
    ensures ParseAuthority(scheme, "//" + second + "?del=" + del + "&status=true") == Some(Target(scheme, second, del))
  {
    var query := "del=" + del + "&status=true";
    var afterColon := "//" + second + "?del=" + del + "&status=true";
    assert afterColon[..2] == "//";
    assert afterColon[2..] == second + ['?'] + query;
    SplitFirstConcat(second, '?', query);
    ParseQueryBack(del);
  }

  lemma ParseBack(first: string, second: string, del: string)
    requires ':' !in first && '?' !in second && '&' !in del
    ensures ParseRedirect(first + "://" + second + "?del=" + del + "&status=true") == Some(Target(first, second, del))
  {
    var afterColon := "//" + second + "?del=" + del + "&status=true";
    assert first + "://" + second + "?del=" + del + "&status=true" == first + [':'] + afterColon;
    SplitFirstConcat(first, ':', afterColon);
    ParseAuthorityBack(first, second, del);
  }

  /**
   * The application that receives the auth.js redirect reads back the scheme, the host
   * and a `del` value that decodes to exactly the delegation's JSON text.
   */
  lemma RedirectRoundTrip(scheme: Option<string>, host: Option<string>, json: string)
    requires ':' !in Render(scheme) && '?' !in Render(host)
    ensures ParseRedirect(RedirectUrl(scheme, host, UriComponent.Encode(json)))
         == Some(Target(Render(scheme), Render(host), UriComponent.Encode(json)))
    ensures UriComponent.Decode(UriComponent.Encode(json)) == Some(json)
  {
    EncodedHasNoAmpersand(json);
    ParseBack(Render(scheme), Render(host), UriComponent.Encode(json));
    UriComponent.DecodeEncode(json);
  }

  /**
   * The dashboard's redirect is read with the two parameters exchanged: the receiver
   * sees the `host` parameter as its scheme and the `scheme` parameter as its host.
   */
  lemma DashboardRedirectSwapped(scheme: Option<string>, host: Option<string>, json: string)
    requires ':' !in Render(host) && '?' !in Render(scheme)
    ensures ParseRedirect(DashboardRedirectUrl(scheme, host, UriComponent.Encode(json)))
         == Some(Target(Render(host), Render(scheme), UriComponent.Encode(json)))
  {
    EncodedHasNoAmpersand(json);
    ParseBack(Render(host), Render(scheme), UriComponent.Encode(json));
  }

  /** A template's text splits at its first `:` right after the leading part. */
  lemma SplitTemplate(first: string, second: string, json: string)
    requires ':' !in first
    ensures SplitFirst(first + "://" + second + "?del=" + json + "&status=true", ':')
      == Some((first, "//" + second + "?del=" + json + "&status=true"))
  {
    var rest := "//" + second + "?del=" + json + "&status=true";
    assert "://" == [':'] + "//";
    assert first + "://" + second + "?del=" + json + "&status=true" == first + [':'] + rest;
    SplitFirstConcat(first, ':', rest);
  }

  /** The two templates give the same target only when the scheme and host render alike. */
  lemma TemplatesDiffer(scheme: Option<string>, host: Option<string>, json: string)
    requires ':' !in Render(scheme) && ':' !in Render(host)
    ensures RedirectUrl(scheme, host, json) == DashboardRedirectUrl(scheme, host, json) <==> Render(scheme) == Render(host)
  {
    SplitTemplate(Render(scheme), Render(host), json);
    SplitTemplate(Render(host), Render(scheme), json);
  }
}
