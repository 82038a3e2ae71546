/**
 * The pure pieces of URLService: the timestamp test on version strings,
 * the version suffix of element URLs, and the rejection object built from
 * an HTTP error status.
 */
module Urls {
  import opened Json

  /** `s.indexOf(c)`: the first position of `c`, or -1. */
  function IndexOf(s: string, c: char): (r: int)
    ensures -1 <= r < |s|
    ensures r == -1 <==> c !in s
    ensures r >= 0 ==> s[r] == c && c !in s[..r]
  {
    if |s| == 0 then -1
    else if s[0] == c then 0
    else
      var k := IndexOf(s[1..], c);
      if k == -1 then -1
      else
        assert s[..k + 1] == [s[0]] + s[1..][..k];
        k + 1
  }

  /** `isTimestamp(version)`: a version is a timestamp when it contains a hyphen. */
  function IsTimestamp(version: string): (b: bool)
    ensures b <==> '-' in version
  {
    IndexOf(version, '-') >= 0
  }

  /** Dates with a zone offset are timestamps; plain version numbers and `latest` are not. */
  lemma IsTimestampExamples()
    ensures IsTimestamp("2014-07-01T08:57:36.915-0700")
    ensures !IsTimestamp("latest") && !IsTimestamp("12") && !IsTimestamp("")
    ensures IsTimestamp("-1")
  {
    assert "2014-07-01T08:57:36.915-0700"[4] == '-';
    assert "-1"[0] == '-';
  }

  const TimestampQuery: string := "?timestamp="
  const VersionsPath: string := "/versions/"

  /** `addVersion(url, version)` */
  function AddVersion(url: string, version: string): (r: string)
    ensures version == "latest" ==> r == url
    ensures version != "latest" && IsTimestamp(version) ==> r == url + TimestampQuery + version
    ensures version != "latest" && !IsTimestamp(version) ==> r == url + VersionsPath + version
  {
    if version == "latest" then url
    else if IsTimestamp(version) then url + TimestampQuery + version
    else url + VersionsPath + version
  }

  /** Reads the version back off a URL built from `url`; independent of `AddVersion`. */
  function VersionOf(url: string, full: string): (r: Option<string>)
    ensures r.Some? ==> |full| >= |url| && full[..|url|] == url
  {
    if full == url then Some("latest")
    else if |full| > |url| + |TimestampQuery| && full[..|url| + |TimestampQuery|] == url + TimestampQuery then
      Some(full[|url| + |TimestampQuery|..])
    else if |full| >= |url| + |VersionsPath| && full[..|url| + |VersionsPath|] == url + VersionsPath then
      Some(full[|url| + |VersionsPath|..])
    else None
  }

  /**
   * Every version can be read back from the URL `addVersion` builds: a
   * timestamp from the query, anything else from the path.
   */
  lemma AddVersionRoundTrip(url: string, version: string)
    ensures VersionOf(url, AddVersion(url, version)) == Some(version)
  {
    var full := AddVersion(url, version);
    if version == "latest" {
    } else if IsTimestamp(version) {
      assert |version| > 0;
      assert full[..|url| + |TimestampQuery|] == url + TimestampQuery;
      assert full[|url| + |TimestampQuery|..] == version;
    } else {
      assert full != url by {
        assert |full| > |url|;
      }
      assert full[|url|] == '/';
      assert (url + TimestampQuery)[|url|] == '?';
      assert full[..|url| + |VersionsPath|] == url + VersionsPath;
      assert full[|url| + |VersionsPath|..] == version;
    }
  }

  /** Different versions give different URLs. */
  lemma AddVersionInjective(url: string, v1: string, v2: string)
    requires AddVersion(url, v1) == AddVersion(url, v2)
    ensures v1 == v2
  {
    AddVersionRoundTrip(url, v1);
    AddVersionRoundTrip(url, v2);
  }

  /** What `$http` delivers for a request: the data and the request's config, or the error status. */
  datatype HttpResult = Success(data: Json, config: Json) | Failure(status: int, data: Json)

  /** Why a promise of the services is rejected. */
  datatype Reason =
    | Http(status: int, message: string, data: Json)  // built by `handleHttpStatus`
    | Validation(status: int, message: string)       // `{status: 400, message}` of a refused argument
    | Message(text: string)                          // a bare string reason

  /** How a deferred settled: one element (a handle into the cache's heap), a list of them, or a reason. */
  datatype Settled = Resolved(ref: nat) | ResolvedMany(refs: seq<nat>) | Rejected(reason: Reason)

  /** The message `handleHttpStatus` attaches to a status. */
  function StatusMessage(status: int): (m: string)
    ensures m == "Not Found" <==> status == 404
    ensures m == "Server Error" <==> status == 500
    ensures m == "Permission Error" <==> status == 401 || status == 403
    ensures m == "Conflict" <==> status == 409
    ensures m == "Failed" <==> status !in {404, 500, 401, 403, 409}
  {
    if status == 404 then "Not Found"
    else if status == 500 then "Server Error"
    else if status == 401 || status == 403 then "Permission Error"
    else if status == 409 then "Conflict"
    else "Failed"
  }

  /** The reason `handleHttpStatus` rejects with: always the status and the data. */
  function HandleHttpStatus(data: Json, status: int): (r: Reason)
    ensures r.Http? && r.status == status && r.data == data
    ensures r.message == StatusMessage(status)
  {
    Http(status, StatusMessage(status), data)
  }
}
