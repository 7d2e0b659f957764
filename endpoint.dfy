/** The request URL of `stream_response`: the base URL with every trailing `/` removed, then `/completion`. */
module Endpoint {

  /** The address and port of a local llama.cpp server, the default base URL. */
  const DefaultBaseUrl: string := "http://localhost:8080"

  /** The path of the completion endpoint, appended to the base URL. */
  const CompletionPath: string := "/completion"

  /** Python's `s.rstrip(c)` for a single character: s without its trailing run of c. */
  function RStrip(s: string, c: char): (r: string)
    ensures r <= s
    ensures forall j :: |r| <= j < |s| ==> s[j] == c
    ensures r == [] || r[|r| - 1] != c
  {
    if s != [] && s[|s| - 1] == c then RStrip(s[..|s| - 1], c) else s
  }

  /** The three properties of RStrip's result pin it down: no other prefix has them. */
  lemma RStripUnique(s: string, c: char, k: nat)
    requires k <= |s|
    requires forall j :: k <= j < |s| ==> s[j] == c
    requires k == 0 || s[k - 1] != c
    ensures RStrip(s, c) == s[..k]
  {
  }

  /** Stripping twice strips nothing more. */
  lemma RStripIdempotent(s: string, c: char)
    ensures RStrip(RStrip(s, c), c) == RStrip(s, c)
  {
    var r := RStrip(s, c);
    RStripUnique(r, c, |r|);
  }

  /** The URL `stream_response` posts to for a given base URL. */
  function CompletionUrl(baseUrl: string): (url: string)
    ensures |url| >= |CompletionPath| && url[|url| - |CompletionPath|..] == CompletionPath
    ensures var base := url[..|url| - |CompletionPath|];
            && base <= baseUrl
            && (forall j :: |base| <= j < |baseUrl| ==> baseUrl[j] == '/')
            && (base == [] || base[|base| - 1] != '/')
  {
    var base := RStrip(baseUrl, '/');
    assert (base + CompletionPath)[..|base|] == base;
    base + CompletionPath
  }

  /** Any number of trailing slashes on the base URL gives the same endpoint. */
  lemma CompletionUrlIgnoresTrailingSlashes(baseUrl: string, slashes: string)
    requires forall j :: 0 <= j < |slashes| ==> slashes[j] == '/'
    ensures CompletionUrl(baseUrl + slashes) == CompletionUrl(baseUrl)
  {
    var base := RStrip(baseUrl, '/');
    var s := baseUrl + slashes;
    assert s[..|base|] == base;
    RStripUnique(s, '/', |base|);
  }

  /** A base URL with two trailing slashes loses both. */
  lemma DoubleSlashExample()
    ensures CompletionUrl("http://h:8080//") == "http://h:8080/completion"
  {
    var base := "http://h:8080";
    assert "http://h:8080//" == base + "//";
    CompletionUrlIgnoresTrailingSlashes(base, "//");
    RStripUnique(base, '/', |base|);
    assert base[..|base|] == base;
    assert CompletionUrl(base) == base + CompletionPath;
    assert base + CompletionPath == "http://h:8080/completion";
  }

  /** With the default base URL the client posts to the local server's completion endpoint. */
  lemma DefaultEndpoint()
    ensures CompletionUrl(DefaultBaseUrl) == "http://localhost:8080/completion"
  {
    RStripUnique(DefaultBaseUrl, '/', |DefaultBaseUrl|);
    assert DefaultBaseUrl[..|DefaultBaseUrl|] == DefaultBaseUrl;
    assert CompletionUrl(DefaultBaseUrl) == DefaultBaseUrl + CompletionPath;
    assert DefaultBaseUrl + CompletionPath == "http://localhost:8080/completion";
  }
}
