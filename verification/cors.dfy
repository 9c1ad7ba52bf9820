/**
 * The server's CORS policy: the list of allowed origins and the `origin`
 * callback that decides, for each request's Origin header, whether to allow it.
 */
module Cors {
  import opened Wrappers
  import opened Strings

  /** The origins allowed in every deployment. */
  const FixedOrigins: seq<string> := [
    "http://localhost:3000",
    "http://localhost:3001",
    "http://localhost:5173",
    "https://swiftchain.vercel.app",
    "https://swiftchain-client.vercel.app",
    "https://swiftchain.netlify.app"
  ]

  /**
   * allowedOrigins: the fixed origins, in order, followed by FRONTEND_URL when it
   * is set and non-empty (`filter(Boolean)` drops an unset or empty one).
   */
  function AllowedOrigins(frontendUrl: Option<string>): (r: seq<string>)
    ensures |FixedOrigins| <= |r| && r[..|FixedOrigins|] == FixedOrigins
    ensures forall o :: o in r ==> o != ""
    ensures forall o :: o in r <==>
              o in FixedOrigins || (frontendUrl.Some? && frontendUrl.value != "" && o == frontendUrl.value)
    ensures |r| == if frontendUrl.Some? && frontendUrl.value != "" then 7 else 6
  {
    if frontendUrl.Some? && frontendUrl.value != "" then FixedOrigins + [frontendUrl.value]
    else FixedOrigins
  }

  /** The callback's answer: `callback(null, true)`, or `callback(new Error(message))`. */
  datatype Decision = Allow | Deny(message: string)

  /** Origins of local development servers on any port, over http or https. */
  predicate IsLocalhost(origin: string)
  {
    StartsWith(origin, "http://localhost:") || StartsWith(origin, "https://localhost:")
  }

  /** Origins mentioning a Vercel or Netlify host anywhere in their text. */
  predicate MentionsHosting(origin: string)
  {
    Contains(origin, ".vercel.app") || Contains(origin, ".netlify.app")
  }

  /**
   * The `origin` callback, as its chain of early returns: a missing (or empty)
   * origin, a listed origin, a localhost origin, a Vercel or Netlify origin, or
   * any origin in development mode is allowed; anything else is denied with
   * "Not allowed by CORS". Each path answers exactly once.
   */
  function Decide(origin: Option<string>, allowedOrigins: seq<string>, nodeEnv: Option<string>): (d: Decision)
    ensures origin.None? || origin == Some("") ==> d == Allow
    ensures origin.Some? && origin.value in allowedOrigins ==> d == Allow
    ensures origin.Some? && IsLocalhost(origin.value) ==> d == Allow
    ensures origin.Some? && MentionsHosting(origin.value) ==> d == Allow
    ensures nodeEnv == Some("development") ==> d == Allow
    ensures d.Deny? ==> d.message == "Not allowed by CORS"
  {
    if origin.None? || origin.value == "" then Allow
    else if origin.value in allowedOrigins then Allow
    else if StartsWith(origin.value, "http://localhost:") || StartsWith(origin.value, "https://localhost:") then Allow
    else if Contains(origin.value, ".vercel.app") then Allow
    else if Contains(origin.value, ".netlify.app") then Allow
    else if nodeEnv == Some("development") then Allow
    else Deny("Not allowed by CORS")
  }

  /** Denial happens exactly when no rule allows the origin. */
  lemma DeniedIffNoRuleMatches(origin: Option<string>, allowedOrigins: seq<string>, nodeEnv: Option<string>)
    ensures Decide(origin, allowedOrigins, nodeEnv).Deny? <==>
              origin.Some? && origin.value != "" && origin.value !in allowedOrigins &&
              !IsLocalhost(origin.value) && !MentionsHosting(origin.value) && nodeEnv != Some("development")
  {
  }

  /** Development mode only widens the policy: whatever is allowed otherwise is allowed there too. */
  lemma DevelopmentWidens(origin: Option<string>, allowedOrigins: seq<string>, nodeEnv: Option<string>)
    requires Decide(origin, allowedOrigins, nodeEnv) == Allow
    ensures Decide(origin, allowedOrigins, Some("development")) == Allow
  {
  }

  /** Every fixed origin, and a configured FRONTEND_URL, is allowed in any mode. */
  lemma ConfiguredOriginsAllowed(frontendUrl: Option<string>, origin: string, nodeEnv: Option<string>)
    requires origin in FixedOrigins || (frontendUrl.Some? && frontendUrl.value != "" && origin == frontendUrl.value)
    ensures Decide(Some(origin), AllowedOrigins(frontendUrl), nodeEnv) == Allow
  {
  }

  /**
   * The hosting rules test for a substring, not a suffix: an origin whose host
   * merely contains ".vercel.app" before another domain is allowed outside
   * development mode, and so is any localhost port.
   */
  lemma SubstringNotSuffix(frontendUrl: Option<string>)
    ensures Decide(Some("https://swiftchain.vercel.app.example.com"), AllowedOrigins(frontendUrl), None) == Allow
    ensures Decide(Some("http://localhost:8080"), AllowedOrigins(frontendUrl), None) == Allow
  {
    ContainsInside("https://swiftchain", ".vercel.app", ".example.com");
    assert "https://swiftchain" + ".vercel.app" + ".example.com" == "https://swiftchain.vercel.app.example.com";
    assert StartsWith("http://localhost:8080", "http://localhost:");
  }

  /** An unlisted origin outside development mode that matches no rule is denied. */
  lemma UnknownOriginDenied()
    ensures Decide(Some("https://example.com"), AllowedOrigins(None), Some("production")) ==
            Deny("Not allowed by CORS")
  {
    var o := "https://example.com";
    assert forall i :: 0 <= i < 15 ==> o[i] != '.';
    assert !Contains(o, ".vercel.app") by {
      forall i | 0 <= i <= |o| - 11 ensures !OccursAt(o, ".vercel.app", i) {
        assert o[i..i + 11][0] == o[i] != '.';
      }
    }
    assert !Contains(o, ".netlify.app") by {
      forall i | 0 <= i <= |o| - 12 ensures !OccursAt(o, ".netlify.app", i) {
        assert o[i..i + 12][0] == o[i] != '.';
      }
    }
    assert !StartsWith(o, "http://localhost:") by {
      assert o[4] != "http://localhost:"[4];
    }
    assert !StartsWith(o, "https://localhost:") by {
      assert o[8] != "https://localhost:"[8];
    }
  }
}
