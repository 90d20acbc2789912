/**
 * The CORS side of the listener, shared by both variants: the listener
 * prefix, the origin check on the data-bearing request, and the two
 * response shapes (WHATWG Fetch Standard, section 3.2.3, "HTTP responses").
 */
module Cors {
  import opened Wrappers
  import opened Http
  import opened Decimal

  /** CorsConstants header names. */
  const OriginHeader := "Origin"
  const AllowOriginHeader := "Access-Control-Allow-Origin"
  const AllowMethodsHeader := "Access-Control-Allow-Methods"
  const MaxAgeHeader := "Access-Control-Max-Age"

  /** The preflight cache time; the source's comment calls it milliseconds, the Fetch Standard reads it as seconds. */
  const PreflightTimeout: nat := 120000

  const ListenerIP := "http://127.0.0.1"

  /** preflightTimeout.ToString(), the value of Access-Control-Max-Age. */
  const MaxAgeValue := "120000"

  /** The max-age text is the decimal text of the preflight timeout. */
  lemma MaxAgeText()
    ensures NatToDecimal(PreflightTimeout) == MaxAgeValue
  {
    assert NatToDecimal(1) == "1";
    assert NatToDecimal(12) == "12";
    assert NatToDecimal(120) == "120";
    assert NatToDecimal(1200) == "1200";
    assert NatToDecimal(12000) == "12000";
  }

  /** string.Format("{0}:{1}/", listenerIP, port): the port can be read back from between the colon and the slash. */
  function ListenerPrefix(port: nat): (p: string)
    ensures |p| > |ListenerIP| + 2 && p[..|ListenerIP| + 1] == ListenerIP + ":" && p[|p| - 1] == '/'
    ensures AllDigits(p[|ListenerIP| + 1..|p| - 1]) && DecimalValue(p[|ListenerIP| + 1..|p| - 1]) == port
  {
    var text := NatToDecimal(port);
    var p := ListenerIP + ":" + text + "/";
    assert p[|ListenerIP| + 1..|p| - 1] == text;
    DecimalRoundTrip(port);
    p
  }

  /**
   * The origin check `origin.Length > 0 && origin[0] == authURL`, where
   * `origin` is the result of GetValues: reading `.Length` of the null an
   * absent header gives throws; otherwise only the FIRST value counts and it
   * must equal `authURL` exactly (ordinal, case-sensitive string equality).
   */
  function CheckOrigin(origins: Option<seq<string>>, authURL: string): (r: Result<bool, Fault>)
    ensures r.Failure? <==> origins.None?
    ensures r.Failure? ==> r.error == MissingOriginHeader
    ensures r == Success(true) <==> origins.Some? && |origins.value| > 0 && origins.value[0] == authURL
  {
    match origins
    case None => Failure(MissingOriginHeader)
    case Some(values) => Success(|values| > 0 && values[0] == authURL)
  }

  /** Only the first Origin value decides: a matching value behind a mismatching one does not help. */
  lemma OnlyFirstOriginCounts(first: string, later: seq<string>, authURL: string)
    ensures CheckOrigin(Some([first] + later), authURL) == Success(first == authURL)
    ensures authURL in later && first != authURL ==> CheckOrigin(Some([first] + later), authURL) == Success(false)
  {
  }

  /** The response SendPreflightResponse sends. */
  function PreflightResponse(authURL: string): Response {
    Response(StatusOK, [
      Header(AllowOriginHeader, authURL),
      Header(AllowMethodsHeader, PostMethod),
      Header(MaxAgeHeader, MaxAgeValue)
    ])
  }

  /** The response SendPostResponse sends. */
  function PostResponse(authURL: string): Response {
    Response(StatusOK, [Header(AllowOriginHeader, authURL)])
  }

  /** The preflight answer is a 200 with exactly the allow-origin, allow-methods and max-age headers. */
  lemma PreflightResponseIsCors(authURL: string)
    ensures var r := PreflightResponse(authURL);
      && r.status == StatusOK
      && HeaderValue(r.headers, AllowOriginHeader) == Some(authURL)
      && HeaderValue(r.headers, AllowMethodsHeader) == Some(PostMethod)
      && HeaderValue(r.headers, MaxAgeHeader) == Some("120000")
      && forall h :: h in r.headers ==> h.name in {AllowOriginHeader, AllowMethodsHeader, MaxAgeHeader}
  {
    var headers := PreflightResponse(authURL).headers;
    assert HeaderValue(headers[2..], MaxAgeHeader) == Some("120000");
    assert HeaderValue(headers[1..], MaxAgeHeader) == Some("120000");
  }

  /** The POST acknowledgement is a 200 with the allow-origin header and nothing else. */
  lemma PostResponseIsCors(authURL: string)
    ensures var r := PostResponse(authURL);
      && r.status == StatusOK
      && HeaderValue(r.headers, AllowOriginHeader) == Some(authURL)
      && forall h :: h in r.headers ==> h.name == AllowOriginHeader
  {
  }

  /** The two responses differ: only the preflight grants methods and a cache time. */
  lemma PostResponseGrantsNoMethods(authURL: string)
    ensures HeaderValue(PostResponse(authURL).headers, AllowMethodsHeader) == None
    ensures HeaderValue(PostResponse(authURL).headers, MaxAgeHeader) == None
  {
  }
}
