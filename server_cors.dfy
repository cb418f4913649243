/**
 * The cross-origin policy of the backend (backend/server.js): which browser
 * origins may call the API. An absent `Origin` header, and an unset
 * `FRONTEND_URL`, are both modelled as the empty string, since the code only
 * tests them for falsiness.
 */
module ServerCors {
  import opened JsText

  const DEFAULT_FRONTEND_ORIGIN: string := "http://localhost:3000"

  /** `s.replace(/\/$/, "")`: removes one "/" at the very end, if there is one. */
  function StripTrailingSlash(s: string): (r: string)
    ensures r == s || r + "/" == s
    ensures s == [] || s[|s| - 1] != '/' ==> r == s
  {
    if s != [] && s[|s| - 1] == '/' then s[..|s| - 1] else s
  }

  /** Stripping undoes appending one slash. */
  lemma StripAppendedSlash(s: string)
    ensures StripTrailingSlash(s + "/") == s
  {
    assert (s + "/")[..|s|] == s;
  }

  /** `frontendOrigin`: `FRONTEND_URL` (or the default when it is unset or empty) without its trailing slash. */
  function FrontendOrigin(frontendUrl: string): (origin: string)
    ensures frontendUrl == "" ==> origin == DEFAULT_FRONTEND_ORIGIN
    ensures frontendUrl != "" ==> origin == frontendUrl || origin + "/" == frontendUrl
  {
    StripTrailingSlash(if frontendUrl != "" then frontendUrl else DEFAULT_FRONTEND_ORIGIN)
  }

  /** `s` is exactly `prefix` followed by one or more decimal digits. */
  predicate DigitsAfter(s: string, prefix: string) {
    StartsWith(s, prefix) && IsDigits(s[|prefix|..])
  }

  /** `/^https?:\/\/<host>:\d+$/.test(s)`; `$` without the `m` flag anchors at the end of the input. */
  predicate MatchesHostWithPort(s: string, host: string) {
    DigitsAfter(s, "http://" + host + ":") || DigitsAfter(s, "https://" + host + ":")
  }

  /** `isLocalhostOrigin` */
  predicate IsLocalhostOrigin(normalizedOrigin: string) {
    MatchesHostWithPort(normalizedOrigin, "localhost") || MatchesHostWithPort(normalizedOrigin, "127.0.0.1")
  }

  /** What the `origin` callback tells the CORS middleware. */
  datatype CorsDecision = Allow | Deny(message: string)

  /** The `origin` callback, for the `Origin` header `origin` ("" when absent). */
  function CheckOrigin(origin: string, frontendOrigin: string): (d: CorsDecision)
    ensures d == Allow <==>
      origin == "" || StripTrailingSlash(origin) == frontendOrigin || IsLocalhostOrigin(StripTrailingSlash(origin))
    ensures d.Deny? ==> d.message == "Not allowed by CORS: " + origin && origin != ""
  {
    var normalizedOrigin := if origin != "" then StripTrailingSlash(origin) else "";
    var isLocalhostOrigin := IsLocalhostOrigin(normalizedOrigin);
    if origin == "" || normalizedOrigin == frontendOrigin || isLocalhostOrigin then Allow
    else Deny("Not allowed by CORS: " + origin)
  }

  /** An origin is judged the same with or without one trailing slash. */
  lemma TrailingSlashIrrelevant(origin: string, frontendOrigin: string)
    requires origin != [] && origin[|origin| - 1] != '/'
    ensures CheckOrigin(origin + "/", frontendOrigin).Allow? == CheckOrigin(origin, frontendOrigin).Allow?
  {
    StripAppendedSlash(origin);
  }

  /** The configured frontend is allowed, written with or without its trailing slash. */
  lemma ConfiguredFrontendAllowed(frontendUrl: string)
    requires frontendUrl != ""
    ensures CheckOrigin(frontendUrl, FrontendOrigin(frontendUrl)) == Allow
    ensures CheckOrigin(FrontendOrigin(frontendUrl) + "/", FrontendOrigin(frontendUrl)) == Allow
  {
    StripAppendedSlash(FrontendOrigin(frontendUrl));
  }

  /** Every port on localhost and on 127.0.0.1, over http or https, is allowed whatever the frontend origin. */
  lemma LocalhostPortsAllowed(port: nat, secure: bool, loopbackAddress: bool, frontendOrigin: string)
    ensures var origin := (if secure then "https://" else "http://") + (if loopbackAddress then "127.0.0.1" else "localhost") + ":" + Decimal(port);
      CheckOrigin(origin, frontendOrigin) == Allow
  {
    var host := if loopbackAddress then "127.0.0.1" else "localhost";
    var prefix := (if secure then "https://" else "http://") + host + ":";
    var origin := prefix + Decimal(port);
    assert origin[|origin| - 1] != '/' by {
      assert origin[|origin| - 1] == Decimal(port)[|Decimal(port)| - 1];
    }
    assert origin[..|prefix|] == prefix && origin[|prefix|..] == Decimal(port);
    assert MatchesHostWithPort(origin, host);
  }

  /** The origin the development runner gives the backend (`http://localhost:<port>/`) is allowed. */
  lemma DevRunnerOriginAllowed(port: nat)
    ensures var url := "http://localhost:" + Decimal(port) + "/"; CheckOrigin(url, FrontendOrigin(url)) == Allow
  {
    ConfiguredFrontendAllowed("http://localhost:" + Decimal(port) + "/");
  }

  /**
   * An origin that continues past the port of a localhost URL (a lookalike
   * host such as `http://localhost:3000.evil.com`) is not a localhost origin;
   * unless it is the frontend itself, it is denied with an error naming it.
   */
  lemma LookalikeOriginDenied(port: nat, suffix: string, frontendOrigin: string)
    requires suffix != [] && !IsDigit(suffix[0]) && suffix[|suffix| - 1] != '/'
    requires "http://localhost:" + Decimal(port) + suffix != frontendOrigin
    ensures var origin := "http://localhost:" + Decimal(port) + suffix;
      CheckOrigin(origin, frontendOrigin) == Deny("Not allowed by CORS: " + origin)
  {
    var prefix := "http://localhost:";
    var digits := Decimal(port);
    var origin := prefix + digits + suffix;
    assert StripTrailingSlash(origin) == origin;
    assert !IsDigits(origin[|prefix|..]) by {
      assert origin[|prefix|..] == digits + suffix;
      assert (digits + suffix)[|digits|] == suffix[0];
    }
    assert origin[4] == ':' && origin[7] == 'l';
    assert !StartsWith(origin, "https://localhost:") by {
      assert "https://localhost:"[4] == 's';
    }
    assert !StartsWith(origin, "http://127.0.0.1:") by {
      assert "http://127.0.0.1:"[7] == '1';
    }
    assert !StartsWith(origin, "https://127.0.0.1:") by {
      assert "https://127.0.0.1:"[4] == 's';
    }
  }
}
