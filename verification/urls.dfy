/**
 * URL shaping of the client: the base URL is stored with every trailing `/`
 * removed (`str.rstrip("/")`), and a request URL is the base URL, one `/`, and
 * the endpoint with every leading `/` removed (`str.lstrip("/")`); an empty
 * endpoint targets the base URL itself.
 */
module Urls {

  /** A run of `n` slashes. */
  function Slashes(n: nat): (s: string)
    ensures |s| == n && forall i | 0 <= i < n :: s[i] == '/'
  {
    if n == 0 then "" else "/" + Slashes(n - 1)
  }

  predicate EndsWithSlash(s: string)
  {
    |s| > 0 && s[|s| - 1] == '/'
  }

  predicate StartsWithSlash(s: string)
  {
    |s| > 0 && s[0] == '/'
  }

  /**
   * What `s.rstrip("/")` returns, stated without computing it: a prefix of `s`
   * that does not end in `/`, where everything cut off is `/`.
   */
  ghost predicate IsRStripOf(r: string, s: string)
  {
    && r <= s
    && !EndsWithSlash(r)
    && forall i | |r| <= i < |s| :: s[i] == '/'
  }

  /** What `s.lstrip("/")` returns: a suffix of `s` that does not start with `/`, where everything cut off is `/`. */
  ghost predicate IsLStripOf(r: string, s: string)
  {
    && |r| <= |s|
    && r == s[|s| - |r|..]
    && !StartsWithSlash(r)
    && forall i | 0 <= i < |s| - |r| :: s[i] == '/'
  }

  /** `s.rstrip("/")`. */
  function RStripSlashes(s: string): (r: string)
    ensures IsRStripOf(r, s)
    decreases |s|
  {
    if EndsWithSlash(s) then RStripSlashes(s[..|s| - 1]) else s
  }

  /** `s.lstrip("/")`. */
  function LStripSlashes(s: string): (r: string)
    ensures IsLStripOf(r, s)
    decreases |s|
  {
    if StartsWithSlash(s) then LStripSlashes(s[1..]) else s
  }

  /** Only one string is the right-strip of `s`: the characterisation pins the result down. */
  lemma RStripUnique(s: string, r: string)
    requires IsRStripOf(r, s)
    ensures r == RStripSlashes(s)
  {
  }

  /** Only one string is the left-strip of `s`. */
  lemma LStripUnique(s: string, r: string)
    requires IsLStripOf(r, s)
    ensures r == LStripSlashes(s)
  {
  }

  /** Stripping twice strips nothing more. */
  lemma RStripIdempotent(s: string)
    ensures RStripSlashes(RStripSlashes(s)) == RStripSlashes(s)
  {
  }

  /** Extra leading slashes do not change the left-strip. */
  lemma {:induction false} LStripIgnoresSlashes(n: nat, e: string)
    ensures LStripSlashes(Slashes(n) + e) == LStripSlashes(e)
    decreases n
  {
    if n > 0 {
      var t := Slashes(n) + e;
      var u := Slashes(n - 1) + e;
      assert t == "/" + u;
      assert t[1..] == u;
      assert LStripSlashes(t) == LStripSlashes(u);
      LStripIgnoresSlashes(n - 1, e);
    } else {
      assert Slashes(n) + e == e;
    }
  }

  /** The URL a request targets, from the stored base URL and the caller's endpoint. */
  function JoinUrl(baseUrl: string, endpoint: string): (url: string)
    ensures endpoint == "" ==> url == baseUrl
    ensures endpoint != "" ==>
              && |url| == |baseUrl| + 1 + |LStripSlashes(endpoint)|
              && url[..|baseUrl|] == baseUrl
              && url[|baseUrl|] == '/'
              && IsLStripOf(url[|baseUrl| + 1..], endpoint)
  {
    if endpoint != "" then baseUrl + "/" + LStripSlashes(endpoint) else baseUrl
  }

  /**
   * A non-empty endpoint is joined the same way however many slashes it starts
   * with, so `"/v1/items"` and `"v1/items"` give the same URL. (An endpoint that
   * is nothing but slashes is non-empty and yields the base URL plus one `/`.)
   */
  lemma JoinIgnoresLeadingSlashes(baseUrl: string, n: nat, endpoint: string)
    requires endpoint != ""
    ensures JoinUrl(baseUrl, Slashes(n) + endpoint) == JoinUrl(baseUrl, endpoint)
  {
    LStripIgnoresSlashes(n, endpoint);
  }

  /**
   * Against a stored base URL (already right-stripped), a non-empty endpoint is
   * joined with exactly one `/`: the base does not end in one, the join adds one,
   * and the endpoint part does not start with one.
   */
  lemma JoinHasSingleSeparator(rawBase: string, endpoint: string)
    requires endpoint != ""
    ensures var baseUrl := RStripSlashes(rawBase);
            var url := JoinUrl(baseUrl, endpoint);
            && (|baseUrl| > 0 ==> url[|baseUrl| - 1] != '/')
            && url[|baseUrl|] == '/'
            && (|url| > |baseUrl| + 1 ==> url[|baseUrl| + 1] != '/')
  {
    var baseUrl := RStripSlashes(rawBase);
    var tail := LStripSlashes(endpoint);
    var url := JoinUrl(baseUrl, endpoint);
    assert url == baseUrl + "/" + tail;
    if |baseUrl| > 0 {
      assert url[|baseUrl| - 1] == baseUrl[|baseUrl| - 1];
    }
    if |url| > |baseUrl| + 1 {
      assert url[|baseUrl| + 1] == tail[0];
    }
  }

  /** An example: base `https://api.example.com` with and without a leading slash, and with no endpoint. */
  lemma JoinExample()
    ensures JoinUrl(RStripSlashes("https://api.example.com/"), "/v1/items") == "https://api.example.com/v1/items"
    ensures JoinUrl(RStripSlashes("https://api.example.com"), "v1/items") == "https://api.example.com/v1/items"
    ensures JoinUrl(RStripSlashes("https://api.example.com"), "") == "https://api.example.com"
  {
  }
}
