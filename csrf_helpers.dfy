/** secure/csrf/helpers.go: slice membership and the same-origin test. */
module CsrfHelpers {
  import opened Http

  /** `stringInSlice(haystack, needle)`: some element of the haystack equals the needle. */
  function StringInSlice(haystack: seq<string>, needle: string): (r: bool)
    ensures r <==> exists i :: 0 <= i < |haystack| && haystack[i] == needle
  {
    if |haystack| == 0 then false
    else if haystack[0] == needle then true
    else
      var r := StringInSlice(haystack[1..], needle);
      assert r ==> exists i :: 0 <= i < |haystack| && haystack[i] == needle by {
        if r {
          var j :| 0 <= j < |haystack[1..]| && haystack[1..][j] == needle;
          assert haystack[j + 1] == needle;
        }
      }
      r
  }

  /** The answer depends on the elements and not on their order or repetition. */
  lemma StringInSliceOrderFree(h1: seq<string>, h2: seq<string>, needle: string)
    requires multiset(h1) == multiset(h2)
    ensures StringInSlice(h1, needle) == StringInSlice(h2, needle)
  {
    assert StringInSlice(h1, needle) <==> needle in multiset(h1);
    assert StringInSlice(h2, needle) <==> needle in multiset(h2);
  }

  /** `sameOrigin(referer, url)`: scheme and host agree. */
  function SameOrigin(referer: Url, url: Url): (r: bool)
    ensures r <==> referer.scheme == url.scheme && referer.host == url.host
  {
    referer.scheme == url.scheme && referer.host == url.host
  }

  /** Path, query and fragment of either side play no part. */
  lemma SameOriginIgnoresPath(a: Url, b: Url, path: string, query: string, fragment: string)
    ensures SameOrigin(a.(path := path, rawQuery := query, fragment := fragment), b) == SameOrigin(a, b)
    ensures SameOrigin(a, b.(path := path, rawQuery := query, fragment := fragment)) == SameOrigin(a, b)
    ensures SameOrigin(a, b) <==> a.scheme == b.scheme && a.host == b.host
  {
  }

  /** Same-origin is an equivalence relation on URLs. */
  lemma SameOriginIsEquivalence(a: Url, b: Url, c: Url)
    ensures SameOrigin(a, a)
    ensures SameOrigin(a, b) == SameOrigin(b, a)
    ensures SameOrigin(a, b) && SameOrigin(b, c) ==> SameOrigin(a, c)
  {
  }
}
