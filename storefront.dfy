/**
  The Storefront API client of the theme: validation and normalisation of the
  storefront URL, the client's construction, and the GraphQL endpoint URL that
  a request is sent to.

  Strings are sequences of Unicode scalar values. Every character the two
  regular expressions test is in the Basic Multilingual Plane, so working on
  scalar values rather than UTF-16 code units changes no outcome.
 */
module Storefronts {
  import opened Wrappers

  // ---------------------------------------------------------------------------
  // Characters
  // ---------------------------------------------------------------------------

  /** A line terminator as the `^` of a multiline regular expression sees it. */
  predicate IsLineTerminator(c: char)
  {
    c == '\n' || c == '\r' || c == '\U{2028}' || c == '\U{2029}'
  }

  /** The `\s` class: white space (including the space separators) or a line terminator. */
  predicate IsWhiteSpace(c: char)
  {
    || IsLineTerminator(c)
    || c == '\t' || c == '\U{000B}' || c == '\U{000C}' || c == ' ' || c == '\U{00A0}'
    || c == '\U{1680}' || ('\U{2000}' <= c <= '\U{200A}') || c == '\U{202F}'
    || c == '\U{205F}' || c == '\U{3000}' || c == '\U{FEFF}'
  }

  /** The class `[^.\s]`: any character but a dot or white space. */
  predicate IsHostChar(c: char)
  {
    c != '.' && !IsWhiteSpace(c)
  }

  predicate HasPrefix(s: seq<char>, p: seq<char>)
  {
    |p| <= |s| && s[..|p|] == p
  }

  // ---------------------------------------------------------------------------
  // Validation: the test of `/[^.\s]+\.myshopify\.com/`
  // ---------------------------------------------------------------------------

  const ShopDomain: seq<char> := ".myshopify.com"

  /** `s` holds `.myshopify.com` starting at index `i`. */
  predicate DomainAt(s: seq<char>, i: int)
  {
    0 <= i && i + |ShopDomain| <= |s| && s[i..i + |ShopDomain|] == ShopDomain
  }

  /**
    The acceptance condition: somewhere in `s`, `.myshopify.com` directly
    follows a character that is neither a dot nor white space.
   */
  ghost predicate IsStorefrontUrl(s: seq<char>)
  {
    exists i :: 0 <= i < |s| && IsHostChar(s[i]) && DomainAt(s, i + 1)
  }

  /**
    The pattern matched from index `p`: `[^.\s]+` takes one character and then
    either the literal follows or the run goes on (the backtracking search of
    the greedy quantifier, which finds a match exactly when one exists).
   */
  predicate RunThenDomain(s: seq<char>, p: nat)
    decreases |s| - p
  {
    p < |s| && IsHostChar(s[p]) && (DomainAt(s, p + 1) || RunThenDomain(s, p + 1))
  }

  /** The unanchored search: try every start index from `p` onwards. */
  predicate SearchFrom(s: seq<char>, p: nat)
    decreases |s| - p
  {
    p < |s| && (RunThenDomain(s, p) || SearchFrom(s, p + 1))
  }

  lemma {:induction false} RunThenDomainSound(s: seq<char>, p: nat)
    requires RunThenDomain(s, p)
    ensures exists i :: p <= i < |s| && IsHostChar(s[i]) && DomainAt(s, i + 1)
    decreases |s| - p
  {
    if !DomainAt(s, p + 1) {
      RunThenDomainSound(s, p + 1);
    }
  }

  lemma {:induction false} SearchFromSound(s: seq<char>, p: nat)
    requires SearchFrom(s, p)
    ensures IsStorefrontUrl(s)
    decreases |s| - p
  {
    if RunThenDomain(s, p) {
      RunThenDomainSound(s, p);
    } else {
      SearchFromSound(s, p + 1);
    }
  }

  lemma {:induction false} SearchFromComplete(s: seq<char>, p: nat, i: nat)
    requires p <= i < |s| && IsHostChar(s[i]) && DomainAt(s, i + 1)
    ensures SearchFrom(s, p)
    decreases i - p
  {
    if p < i {
      SearchFromComplete(s, p + 1, i);
    }
  }

  /** `re.test(s)` on a fresh regular expression: accepted exactly when `IsStorefrontUrl(s)`. */
  function Test(s: seq<char>): (accepted: bool)
    ensures accepted <==> IsStorefrontUrl(s)
  {
    if SearchFrom(s, 0) then
      SearchFromSound(s, 0);
      true
    else
      assert !IsStorefrontUrl(s) by {
        if IsStorefrontUrl(s) {
          var i :| 0 <= i < |s| && IsHostChar(s[i]) && DomainAt(s, i + 1);
          SearchFromComplete(s, 0, i);
        }
      }
      false
  }

  // ---------------------------------------------------------------------------
  // Normalisation: `s.replace(/^(https?|ftp):\/\//gm, "")`
  // ---------------------------------------------------------------------------

  /**
    The length of the scheme prefix `https://`, `http://` or `ftp://` that
    `t` starts with, or 0 when it starts with none of them.
   */
  function SchemeLength(t: seq<char>): (n: nat)
    ensures n == 0 || n == 6 || n == 7 || n == 8
    ensures n <= |t|
    ensures n > 0 ==> t[n - 1] == '/'
    ensures forall k :: 0 <= k < n ==> !IsLineTerminator(t[k])
  {
    if HasPrefix(t, "https://") then 8
    else if HasPrefix(t, "http://") then 7
    else if HasPrefix(t, "ftp://") then 6
    else 0
  }

  /** Index `j` of `s` is where a line begins: the start, or just after a line terminator. */
  predicate AtLineStart(s: seq<char>, j: int)
  {
    0 <= j <= |s| && (j == 0 || IsLineTerminator(s[j - 1]))
  }

  /** The length of the scheme prefix at index `j` of `s` (0 when none, or out of range). */
  function SchemeAt(s: seq<char>, j: int): nat
  {
    if 0 <= j <= |s| then SchemeLength(s[j..]) else 0
  }

  /**
    The scan the global, multiline replace performs over the suffix `t` of
    the input; `lineStart` says whether `t` begins at a line start of the
    input. A match is deleted and the scan resumes after it; otherwise one
    character is kept and the scan moves on.
   */
  function Strip(t: seq<char>, lineStart: bool): seq<char>
    decreases |t|
  {
    if t == [] then []
    else if lineStart && SchemeLength(t) > 0 then Strip(t[SchemeLength(t)..], false)
    else [t[0]] + Strip(t[1..], IsLineTerminator(t[0]))
  }

  // The reference definition: which indices the replace deletes, and what is left.

  /** Index `i` lies in a scheme prefix that begins a line. */
  ghost predicate Deleted(s: seq<char>, i: int)
  {
    exists j :: AtLineStart(s, j) && j <= i < j + SchemeAt(s, j)
  }

  /** The characters of `s` from index `k` on that are not deleted, in order. */
  ghost function KeptFrom(s: seq<char>, k: nat): (r: seq<char>)
    requires k <= |s|
    ensures |r| <= |s| - k
    decreases |s| - k
  {
    if k == |s| then []
    else (if Deleted(s, k) then [] else [s[k]]) + KeptFrom(s, k + 1)
  }

  /** Index `k` falls strictly inside a scheme prefix that begins a line. */
  ghost predicate InsideMatch(s: seq<char>, k: int)
  {
    exists j :: AtLineStart(s, j) && j < k < j + SchemeAt(s, j)
  }

  lemma {:induction false} KeptFromSkips(s: seq<char>, k: nat, m: nat)
    requires k <= m <= |s|
    requires forall i :: k <= i < m ==> Deleted(s, i)
    ensures KeptFrom(s, k) == KeptFrom(s, m)
    decreases m - k
  {
    if k < m {
      assert Deleted(s, k);
      assert KeptFrom(s, k) == KeptFrom(s, k + 1);
      KeptFromSkips(s, k + 1, m);
    }
  }

  lemma {:induction false} StripIsKept(s: seq<char>, k: nat)
    requires k <= |s| && !InsideMatch(s, k)
    ensures Strip(s[k..], AtLineStart(s, k)) == KeptFrom(s, k)
    decreases |s| - k
  {
    if k < |s| {
      var t := s[k..];
      var n := SchemeAt(s, k);
      assert SchemeLength(t) == n;
      if AtLineStart(s, k) && n > 0 {
        var m := k + n;
        assert t[n..] == s[m..];
        assert s[m - 1] == t[n - 1];
        assert !AtLineStart(s, m);
        forall j | k < j < m ensures !AtLineStart(s, j) {
          assert s[j - 1] == t[j - 1 - k];
        }
        assert !InsideMatch(s, m);
        StripIsKept(s, m);
        forall i | k <= i < m ensures Deleted(s, i) {
          assert AtLineStart(s, k) && k <= i < k + SchemeAt(s, k);
        }
        KeptFromSkips(s, k, m);
      } else {
        assert t[1..] == s[k + 1..];
        assert !Deleted(s, k);
        assert !InsideMatch(s, k + 1);
        StripIsKept(s, k + 1);
      }
    }
  }

  /**
    The normalised URL: every `https://`, `http://` or `ftp://` that begins
    a line of `s` is deleted, once, and nothing else changes.
   */
  function Normalize(s: seq<char>): (r: seq<char>)
    ensures r == KeptFrom(s, 0)
  {
    StripIsKept(s, 0);
    Strip(s, true)
  }

  /** No line of `s` begins with a scheme prefix. */
  ghost predicate NoSchemeAtLineStart(s: seq<char>)
  {
    forall j :: AtLineStart(s, j) ==> SchemeAt(s, j) == 0
  }

  lemma {:induction false} KeptFromAll(s: seq<char>, k: nat)
    requires k <= |s| && NoSchemeAtLineStart(s)
    ensures KeptFrom(s, k) == s[k..]
    decreases |s| - k
  {
    if k < |s| {
      KeptFromAll(s, k + 1);
      assert s[k..] == [s[k]] + s[k + 1..];
    }
  }

  lemma {:induction false} KeptFromShorter(s: seq<char>, k: nat, i: nat)
    requires k <= i < |s| && Deleted(s, i)
    ensures |KeptFrom(s, k)| < |s| - k
    decreases i - k
  {
    if k < i {
      KeptFromShorter(s, k + 1, i);
    } else {
      assert KeptFrom(s, k) == KeptFrom(s, k + 1);
    }
  }

  /** Normalisation leaves `s` unchanged exactly when no line of it begins with a scheme prefix. */
  lemma NormalizeUnchangedIff(s: seq<char>)
    ensures Normalize(s) == s <==> NoSchemeAtLineStart(s)
  {
    if NoSchemeAtLineStart(s) {
      KeptFromAll(s, 0);
    } else {
      var j :| AtLineStart(s, j) && SchemeAt(s, j) != 0;
      assert Deleted(s, j);
      KeptFromShorter(s, 0, j);
    }
  }

  lemma {:induction false} StripWithoutTerminators(t: seq<char>)
    requires forall k :: 0 <= k < |t| ==> !IsLineTerminator(t[k])
    ensures Strip(t, false) == t
    decreases |t|
  {
    if t != [] {
      StripWithoutTerminators(t[1..]);
    }
  }

  /** Only one scheme prefix is deleted per line: `https://https://x` becomes `https://x`. */
  lemma NormalizeDeletesOncePerLine()
    ensures Normalize("https://https://x") == "https://x"
  {
    var s := "https://https://x";
    assert SchemeLength(s) == 8;
    assert s[8..] == "https://x";
    StripWithoutTerminators(s[8..]);
  }

  // ---------------------------------------------------------------------------
  // validateStorefrontUrl
  // ---------------------------------------------------------------------------

  const InvalidUrlMessage: seq<char> := "Storefront client was passed an invalid storefront URL"

  /**
    Tests the raw input and, when it passes, returns it normalised; otherwise
    raises the invalid-URL error.
   */
  function ValidateStorefrontUrl(s: seq<char>): (r: Result<seq<char>, seq<char>>)
    ensures r.Success? <==> IsStorefrontUrl(s)
    ensures r.Success? ==> r.value == Normalize(s) == KeptFrom(s, 0)
    ensures r.Failure? ==> r.error == InvalidUrlMessage
  {
    if Test(s) then Success(Normalize(s)) else Failure(InvalidUrlMessage)
  }

  /**
    The test is made on the raw input, before the scheme is deleted: a URL
    whose host is empty once normalised still passes, and the stored URL
    would itself fail the test.
   */
  lemma {:induction false} AcceptsEmptyHostWithScheme()
    ensures IsStorefrontUrl("https://.myshopify.com")
  {
    var s := "https://.myshopify.com";
    assert IsHostChar(s[7]) && DomainAt(s, 8);
  }

  lemma {:induction false} NormalizesToEmptyHost()
    ensures Normalize("https://.myshopify.com") == ".myshopify.com"
  {
    var s := "https://.myshopify.com";
    assert SchemeLength(s) == 8;
    assert s[8..] == ".myshopify.com";
    StripWithoutTerminators(s[8..]);
  }

  lemma ValidatesBeforeNormalizing()
    ensures ValidateStorefrontUrl("https://.myshopify.com") == Success(".myshopify.com")
    ensures !IsStorefrontUrl(".myshopify.com")
  {
    AcceptsEmptyHostWithScheme();
    NormalizesToEmptyHost();
  }

  // ---------------------------------------------------------------------------
  // The endpoint URL
  // ---------------------------------------------------------------------------

  /** The `StorefrontApiVersion` values a request may name. */
  datatype ApiVersion = Unstable | April2023 | January2023 | October2022 | July2022 | April2022

  function VersionName(v: ApiVersion): seq<char>
  {
    match v
    case Unstable => "unstable"
    case April2023 => "2023-04"
    case January2023 => "2023-01"
    case October2022 => "2022-10"
    case July2022 => "2022-07"
    case April2022 => "2022-04"
  }

  function ParseVersion(name: seq<char>): Option<ApiVersion>
  {
    if name == "unstable" then Some(Unstable)
    else if name == "2023-04" then Some(April2023)
    else if name == "2023-01" then Some(January2023)
    else if name == "2022-10" then Some(October2022)
    else if name == "2022-07" then Some(July2022)
    else if name == "2022-04" then Some(April2022)
    else None
  }

  /** Each version has its own name, and the name gives the version back. */
  lemma ParseVersionName(v: ApiVersion)
    ensures ParseVersion(VersionName(v)) == Some(v)
  {
  }

  const Scheme: seq<char> := "https://"
  const ApiPath: seq<char> := "/api/"
  const GraphqlPath: seq<char> := "/graphql.json"

  /** The URL a request to the Storefront API is sent to. */
  function EndpointUrl(host: seq<char>, version: ApiVersion): seq<char>
  {
    Scheme + host + ApiPath + VersionName(version) + GraphqlPath
  }

  /** Reads `https://<host>/api/<version>/graphql.json` back into its host and version. */
  function ParseEndpointUrl(url: seq<char>): Option<(seq<char>, ApiVersion)>
  {
    if !(HasPrefix(url, Scheme) && |url| >= |Scheme| + |GraphqlPath|
         && url[|url| - |GraphqlPath|..] == GraphqlPath) then
      None
    else
      var middle := url[|Scheme|..|url| - |GraphqlPath|];
      var long := ParseApiTail(middle, 8);
      if long.Some? then long else ParseApiTail(middle, 7)
  }

  /** Splits `<host>/api/<name>` where the name is the last `len` characters. */
  function ParseApiTail(middle: seq<char>, len: nat): Option<(seq<char>, ApiVersion)>
  {
    if |middle| < |ApiPath| + len then None
    else
      var cut := |middle| - len;
      var v := ParseVersion(middle[cut..]);
      if v.Some? && middle[cut - |ApiPath|..cut] == ApiPath then Some((middle[..cut - |ApiPath|], v.value))
      else None
  }

  lemma {:induction false} ParseVersionIsName(name: seq<char>, v: ApiVersion)
    requires ParseVersion(name) == Some(v)
    ensures name == VersionName(v)
  {
  }

  lemma {:induction false} ParseApiTailBuilt(host: seq<char>, v: ApiVersion)
    ensures ParseApiTail(host + ApiPath + VersionName(v), |VersionName(v)|) == Some((host, v))
  {
    var name := VersionName(v);
    var middle := host + ApiPath + name;
    var cut := |middle| - |name|;
    assert middle[cut..] == name;
    assert middle[cut - |ApiPath|..cut] == ApiPath;
    assert middle[..cut - |ApiPath|] == host;
    ParseVersionName(v);
  }

  lemma {:induction false} ParseApiTailSplits(middle: seq<char>, len: nat, host: seq<char>, v: ApiVersion)
    requires ParseApiTail(middle, len) == Some((host, v))
    ensures middle == host + ApiPath + VersionName(v)
  {
    var cut := |middle| - len;
    var name := middle[cut..];
    assert ParseVersion(name) == Some(v);
    assert middle[cut - |ApiPath|..cut] == ApiPath;
    assert host == middle[..cut - |ApiPath|];
    ParseVersionIsName(name, v);
    assert middle == middle[..cut - |ApiPath|] + middle[cut - |ApiPath|..cut] + name;
  }

  /**
    The endpoint URL and its parser are inverse: a URL built from a host and
    a version reads back as exactly that host and version.
   */
  lemma EndpointRoundTrip(host: seq<char>, version: ApiVersion)
    ensures ParseEndpointUrl(EndpointUrl(host, version)) == Some((host, version))
  {
    var url := EndpointUrl(host, version);
    var name := VersionName(version);
    var middle := host + ApiPath + name;
    assert url == Scheme + middle + GraphqlPath;
    assert url[|url| - |GraphqlPath|..] == GraphqlPath;
    assert url[|Scheme|..|url| - |GraphqlPath|] == middle;
    ParseApiTailBuilt(host, version);
    if |name| == 7 {
      var tail := middle[|middle| - 8..];
      assert tail[0] == '/';
      assert ParseVersion(tail) == None;
    }
  }

  lemma {:induction false} ParseEndpointUrlParts(url: seq<char>, host: seq<char>, version: ApiVersion)
    requires ParseEndpointUrl(url) == Some((host, version))
    ensures |url| >= |Scheme| + |GraphqlPath|
    ensures url[..|Scheme|] == Scheme && url[|url| - |GraphqlPath|..] == GraphqlPath
    ensures url[|Scheme|..|url| - |GraphqlPath|] == host + ApiPath + VersionName(version)
  {
    var middle := url[|Scheme|..|url| - |GraphqlPath|];
    if ParseApiTail(middle, 8).Some? {
      ParseApiTailSplits(middle, 8, host, version);
    } else {
      ParseApiTailSplits(middle, 7, host, version);
    }
  }

  lemma {:induction false} Reassemble(url: seq<char>, host: seq<char>, name: seq<char>)
    requires |url| >= |Scheme| + |GraphqlPath|
    requires url[..|Scheme|] == Scheme && url[|url| - |GraphqlPath|..] == GraphqlPath
    requires url[|Scheme|..|url| - |GraphqlPath|] == host + ApiPath + name
    ensures url == Scheme + host + ApiPath + name + GraphqlPath
  {
    var n := |url|;
    assert url == url[..|Scheme|] + url[|Scheme|..n - |GraphqlPath|] + url[n - |GraphqlPath|..];
  }

  /** A URL that parses is the one built from the host and version it parses to. */
  lemma ParsedEndpointIsBuilt(url: seq<char>, host: seq<char>, version: ApiVersion)
    requires ParseEndpointUrl(url) == Some((host, version))
    ensures url == EndpointUrl(host, version)
  {
    ParseEndpointUrlParts(url, host, version);
    Reassemble(url, host, VersionName(version));
  }

  // ---------------------------------------------------------------------------
  // The client
  // ---------------------------------------------------------------------------

  /** A Storefront API client: the normalised storefront URL and the access token. */
  class Storefront {
    const storefrontUrl: seq<char>
    const accessToken: seq<char>
    /** The URL the client was created from, before normalisation. */
    ghost const rawUrl: seq<char>

    /** The stored URL is a validated URL, normalised. */
    ghost predicate Valid()
    {
      IsStorefrontUrl(rawUrl) && storefrontUrl == Normalize(rawUrl)
    }

    /**
      Stores a URL that has passed validation, normalised, with the token.
      Clients are made only through `Create`, which validates first.
     */
    constructor (accessToken: seq<char>, normalizedUrl: seq<char>, ghost rawUrl: seq<char>)
      requires IsStorefrontUrl(rawUrl) && normalizedUrl == Normalize(rawUrl)
      ensures Valid() && this.rawUrl == rawUrl
      ensures this.storefrontUrl == normalizedUrl && this.accessToken == accessToken
    {
      this.storefrontUrl := normalizedUrl;
      this.accessToken := accessToken;
      this.rawUrl := rawUrl;
    }

    /**
      `new Storefront(accessToken, storefrontUrl)`: uses the argument unless
      it is absent or empty, in which case the shop's own domain `shop` is
      used; validates that URL, and either raises the invalid-URL error (no
      client exists) or stores it normalised, with the token unchanged.
     */
    static method Create(accessToken: seq<char>, storefrontUrl: Option<seq<char>>, shop: seq<char>)
      returns (r: Result<Storefront, seq<char>>)
      ensures (storefrontUrl == None || storefrontUrl == Some("")) ==>
                && (r.Success? <==> IsStorefrontUrl(shop))
                && (r.Success? ==> r.value.storefrontUrl == Normalize(shop))
      ensures (storefrontUrl.Some? && storefrontUrl.value != "") ==>
                && (r.Success? <==> IsStorefrontUrl(storefrontUrl.value))
                && (r.Success? ==> r.value.storefrontUrl == Normalize(storefrontUrl.value))
      ensures r.Success? ==> fresh(r.value) && r.value.Valid() && r.value.accessToken == accessToken
      ensures r.Failure? ==> r.error == InvalidUrlMessage
    {
      var url := if storefrontUrl.Some? && storefrontUrl.value != "" then storefrontUrl.value else shop;
      var validated := ValidateStorefrontUrl(url);
      if validated.Failure? {
        return Failure(validated.error);
      }
      var client := new Storefront(accessToken, validated.value, url);
      r := Success(client);
    }

    /** The URL `fetch` posts a request for `version` to. */
    method Fetch(version: ApiVersion) returns (url: seq<char>)
      requires Valid()
      ensures url == EndpointUrl(storefrontUrl, version)
      ensures ParseEndpointUrl(url) == Some((storefrontUrl, version))
    {
      url := Scheme + storefrontUrl + ApiPath + VersionName(version) + GraphqlPath;
      EndpointRoundTrip(storefrontUrl, version);
    }
  }
}
