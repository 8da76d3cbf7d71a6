/** The API base URL: a configured URL with any pile of trailing slashes and version suffixes replaced by
    one version (crates/omni-core/src/config.rs:831-851). */
module BaseUrl {
  import opened Common

  const DEFAULT_BASE_URL: string := "https://api.omniedge.io"
  const V1: string := "/api/v1"
  const V2: string := "/api/v2"

  predicate EndsWith(s: string, t: string) { |t| <= |s| && s[|s| - |t|..] == t }

  /** `trim_end_matches`: every trailing copy of t goes. */
  function TrimEnd(s: string, t: string): string
    requires t != ""
    decreases |s|
  {
    if EndsWith(s, t) then TrimEnd(s[..|s| - |t|], t) else s
  }

  predicate IsSuffixToken(t: string) { t == "/" || t == V1 || t == V2 }

  /** Ends in none of the tokens. */
  predicate Clean(s: string) { !EndsWith(s, "/") && !EndsWith(s, V1) && !EndsWith(s, V2) }

  /** One token at a time, whichever is last. */
  function Stem(s: string): string
    decreases |s|
  {
    if EndsWith(s, "/") then Stem(s[..|s| - 1])
    else if EndsWith(s, V1) then Stem(s[..|s| - |V1|])
    else if EndsWith(s, V2) then Stem(s[..|s| - |V2|])
    else s
  }

  function Concat(ts: seq<string>): string { if ts == [] then "" else Concat(ts[..|ts| - 1]) + ts[|ts| - 1] }

  method GetApiBaseUrl(env: Option<string>) returns (url: string)
    ensures url == Stem(if env.Some? then env.value else DEFAULT_BASE_URL) + V2
  {
    var base := if env.Some? then env.value else DEFAULT_BASE_URL;
    ghost var start := base;
    TrimKeepsStem(base, "/");
    base := TrimEnd(base, "/");
    while EndsWith(base, V2) || EndsWith(base, V1)
      invariant Stem(base) == Stem(start) && !EndsWith(base, "/")
      decreases |base|
    {
      TrimKeepsStem(base, V2);
      TrimKeepsStem(TrimEnd(base, V2), V1);
      base := TrimEnd(TrimEnd(base, V2), V1);
      TrimKeepsStem(base, "/");
      base := TrimEnd(base, "/");
    }
    url := base + V2;
  }

  lemma StripOne(s: string, t: string)
    requires IsSuffixToken(t)
    ensures Stem(s + t) == Stem(s)
  {
    var u := s + t;
    assert u[..|u| - |t|] == s && EndsWith(u, t);
    assert u[|u| - 1] == t[|t| - 1];
    assert EndsWith(u, "/") ==> u[|u| - 1] == '/';
    assert EndsWith(u, V1) ==> u[|u| - 1] == u[|u| - |V1|..][|V1| - 1] == '1';
    assert EndsWith(u, V2) ==> u[|u| - 1] == u[|u| - |V2|..][|V2| - 1] == '2';
  }

  lemma {:induction false} TrimKeepsStem(s: string, t: string)
    requires IsSuffixToken(t)
    ensures Stem(TrimEnd(s, t)) == Stem(s) && !EndsWith(TrimEnd(s, t), t) && |TrimEnd(s, t)| <= |s|
    ensures EndsWith(s, t) ==> |TrimEnd(s, t)| < |s|
    decreases |s|
  {
    if EndsWith(s, t) {
      var r := s[..|s| - |t|];
      assert s == r + t;
      StripOne(r, t);
      TrimKeepsStem(r, t);
    }
  }

  ghost predicate Piled(s: string, stem: string, ts: seq<string>) {
    s == stem + Concat(ts) && forall i :: 0 <= i < |ts| ==> IsSuffixToken(ts[i])
  }

  lemma {:induction false} StemIsStable(stem: string, ts: seq<string>)
    requires forall i :: 0 <= i < |ts| ==> IsSuffixToken(ts[i])
    ensures Stem(stem + Concat(ts)) == Stem(stem)
    decreases |ts|
  {
    if ts == [] {
      assert stem + Concat(ts) == stem;
    } else {
      var n := |ts| - 1;
      assert stem + Concat(ts) == (stem + Concat(ts[..n])) + ts[n];
      StripOne(stem + Concat(ts[..n]), ts[n]);
      StemIsStable(stem, ts[..n]);
    }
  }

  lemma ConcatMore(stem: string, ts: seq<string>, t: string)
    ensures stem + Concat(ts + [t]) == (stem + Concat(ts)) + t
  {
    assert (ts + [t])[..|ts|] == ts;
  }

  lemma LastToken(s: string) returns (t: string)
    requires !Clean(s)
    ensures IsSuffixToken(t) && EndsWith(s, t) && Stem(s) == Stem(s[..|s| - |t|])
  {
    t := if EndsWith(s, "/") then "/" else if EndsWith(s, V1) then V1 else V2;
    assert s == s[..|s| - |t|] + t;
    StripOne(s[..|s| - |t|], t);
  }

  lemma {:induction false} StemDecomposes(s: string) returns (ts: seq<string>)
    ensures Clean(Stem(s)) && Piled(s, Stem(s), ts)
    decreases |s|
  {
    if Clean(s) {
      ts := [];
      assert s == s + Concat(ts);
    } else {
      var t := LastToken(s);
      var rest := StemDecomposes(s[..|s| - |t|]);
      ts := rest + [t];
      ConcatMore(Stem(s), rest, t);
      assert s == s[..|s| - |t|] + t;
    }
  }

  /** The stem is the one string without a trailing token from which the input arises by appending
      tokens, so it does not depend on the order in which tokens are stripped. */
  lemma StemIff(s: string, stem: string)
    ensures stem == Stem(s) <==> Clean(stem) && exists ts :: Piled(s, stem, ts)
  {
    var ts := StemDecomposes(s);
    if Clean(stem) && exists us :: Piled(s, stem, us) {
      var us :| Piled(s, stem, us);
      StemIsStable(stem, us);
    }
  }

  /** Canonical form: appending any pile of slashes and versions to the input, or feeding the result
      back in, gives the same URL. */
  lemma UrlIsCanonical(s: string, ts: seq<string>)
    requires forall i :: 0 <= i < |ts| ==> IsSuffixToken(ts[i])
    ensures Stem(s + Concat(ts)) + V2 == Stem(s) + V2
    ensures Stem(Stem(s) + V2) + V2 == Stem(s) + V2
  {
    StemIsStable(s, ts);
    var us := StemDecomposes(s);
    StripOne(Stem(s), V2);
  }
}
