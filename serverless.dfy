/**
 * The URL rewrite of the serverless entry point (api/serverless.ts): the
 * platform hands every request over with an `/api` prefix, and the handler
 * maps the URL onto the routes the Express app defines before passing the
 * request on.
 */
module Serverless {
  import opened Wrappers
  import opened Strings

  /** The index of the first occurrence of `pat` in `s`. */
  function FindFirst(s: string, pat: string): (r: Option<nat>)
    ensures r.Some? ==> r.value + |pat| <= |s|
  {
    if StartsWith(s, pat) then Some(0)
    else if s == [] then None
    else match FindFirst(s[1..], pat)
      case None => None
      case Some(i) => Some(i + 1)
  }

  /** `FindFirst` finds the first occurrence of `pat`, and finds none exactly when `s` does not contain it. */
  lemma {:induction false} FindFirstSpec(s: string, pat: string)
    ensures var r := FindFirst(s, pat);
      && (r.Some? ==> OccursAt(s, pat, r.value) && forall j: nat | j < r.value :: !OccursAt(s, pat, j))
      && (r.None? <==> forall j: nat :: !OccursAt(s, pat, j))
    decreases |s|
  {
    if StartsWith(s, pat) {
      assert FindFirst(s, pat) == Some(0);
      assert OccursAt(s, pat, 0) by {
        assert s[0..|pat|] == s[..|pat|];
      }
    } else if s == [] {
      assert FindFirst(s, pat) == None;
      assert |pat| > 0;
    } else {
      var tail := FindFirst(s[1..], pat);
      FindFirstSpec(s[1..], pat);
      assert !OccursAt(s, pat, 0) by {
        if |pat| <= |s| {
          assert s[0..|pat|] == s[..|pat|];
        }
      }
      if tail.None? {
        assert FindFirst(s, pat) == None;
        forall j: nat
          ensures !OccursAt(s, pat, j)
        {
          if j > 0 {
            OccursAtShift(s, pat, j - 1);
          }
        }
      } else {
        var i := tail.value;
        assert FindFirst(s, pat) == Some(i + 1);
        OccursAtShift(s, pat, i);
        forall j: nat | j < i + 1
          ensures !OccursAt(s, pat, j)
        {
          if j > 0 {
            OccursAtShift(s, pat, j - 1);
          }
        }
      }
    }
  }

  /** An occurrence one place further into `s` is an occurrence in `s[1..]`. */
  lemma OccursAtShift(s: string, pat: string, j: nat)
    requires s != []
    ensures OccursAt(s, pat, j + 1) <==> OccursAt(s[1..], pat, j)
  {
    if j + 1 + |pat| <= |s| {
      assert s[j + 1..j + 1 + |pat|] == s[1..][j..j + |pat|];
    }
  }

  /** `s.replace(pat, replacement)` with a string pattern: only the first occurrence is replaced. */
  function ReplaceFirst(s: string, pat: string, replacement: string): (r: string)
    ensures !Contains(s, pat) ==> r == s
  {
    FindFirstSpec(s, pat);
    ContainsIff(s, pat);
    match FindFirst(s, pat)
    case None => s
    case Some(i) => s[..i] + replacement + s[i + |pat|..]
  }

  /** `url.substring(url.indexOf('?'))` when the URL has a `?`, else nothing. */
  function QueryPart(url: string): (q: string)
    ensures q == [] || q[0] == '?'
  {
    match IndexOf(url, '?')
    case None => ""
    case Some(i) =>
      IndexOfSpec(url, '?');
      url[i..]
  }

  /**
   * `handler`'s rewrite of `req.url` (`None` when the request has none). The
   * tests read `req.url || ''`; when none matches, `req.url` is left as it was.
   */
  function RewriteUrl(reqUrl: Option<string>): Option<string> {
    var url := if reqUrl.Some? then reqUrl.value else "";
    if url == "/api" || url == "/api/" then Some("/")
    else if StartsWith(url, "/api/echo") then Some("/echo" + QueryPart(url))
    else if StartsWith(url, "/api/api/") then Some(ReplaceFirst(url, "/api/api/", "/api/"))
    else reqUrl
  }

  /** The bare prefix is the app's root. */
  lemma ApiRootIsRoot()
    ensures RewriteUrl(Some("/api")) == Some("/") && RewriteUrl(Some("/api/")) == Some("/")
  {
  }

  /** The query of an echo URL is everything from its first `?`: no `?` comes before it. */
  lemma QueryPartSpec(url: string)
    ensures '?' !in url ==> QueryPart(url) == ""
    ensures '?' in url ==>
      exists i | 0 <= i < |url| :: QueryPart(url) == url[i..] && url[i] == '?' && '?' !in url[..i]
  {
    IndexOfSpec(url, '?');
    if '?' in url {
      var i := IndexOf(url, '?').value;
      assert QueryPart(url) == url[i..];
    }
  }

  /**
   * Any URL starting `/api/echo` becomes `/echo` plus the text from its first
   * `?` on (nothing when it has none): the path after `/api/echo` is dropped.
   */
  lemma EchoRewrite(url: string)
    requires StartsWith(url, "/api/echo")
    ensures RewriteUrl(Some(url)) == Some("/echo" + QueryPart(url))
  {
    assert url != "/api" && url != "/api/" by {
      assert |url| >= 9;
    }
  }

  /** A leading `/api/api/` loses one `/api`; the rest of the URL is kept. */
  lemma DoubleApiRewrite(url: string)
    requires StartsWith(url, "/api/api/")
    ensures RewriteUrl(Some(url)) == Some("/api/" + url[9..])
  {
    assert url != "/api" && url != "/api/" by {
      assert |url| >= 9;
    }
    assert !StartsWith(url, "/api/echo") by {
      assert url[5] == 'a';
      assert "/api/echo"[5] == 'e';
      assert url[..9][5] == url[5];
    }
    assert FindFirst(url, "/api/api/") == Some(0);
    assert url[..0] == "";
    assert ReplaceFirst(url, "/api/api/", "/api/") == "/api/" + url[9..];
  }

  /** A URL outside `/api` passes through unchanged. */
  lemma OutsideApiUnchanged(url: string)
    requires !StartsWith(url, "/api")
    ensures RewriteUrl(Some(url)) == Some(url)
  {
    StartsWithPrefix(url, "/api/echo", "/api");
    StartsWithPrefix(url, "/api/api/", "/api");
    assert StartsWith("/api/", "/api");
  }

  /** A request without a URL matches no rewrite and still has none afterwards. */
  lemma MissingUrl()
    ensures RewriteUrl(None) == None
  {
    assert !StartsWith("", "/api/echo") && !StartsWith("", "/api/api/");
  }

  /** The app's own routes under `/api` are left alone. */
  lemma BeatmapsRouteUnchanged()
    ensures RewriteUrl(Some("/api/beatmaps")) == Some("/api/beatmaps")
    ensures RewriteUrl(Some("/api/beatmaps/upload")) == Some("/api/beatmaps/upload")
  {
    assert "/api/beatmaps"[5] == 'b';
    assert !StartsWith("/api/beatmaps", "/api/echo") by {
      assert "/api/beatmaps"[..9][5] == 'b';
    }
    assert !StartsWith("/api/beatmaps", "/api/api/") by {
      assert "/api/beatmaps"[..9][5] == 'b';
    }
    assert !StartsWith("/api/beatmaps/upload", "/api/echo") by {
      assert "/api/beatmaps/upload"[..9][5] == 'b';
    }
    assert !StartsWith("/api/beatmaps/upload", "/api/api/") by {
      assert "/api/beatmaps/upload"[..9][5] == 'b';
    }
  }

  /** The echo and double-prefix cases never overlap, so the order of the tests does not matter. */
  lemma RewriteCasesDisjoint(url: string)
    ensures !(StartsWith(url, "/api/echo") && StartsWith(url, "/api/api/"))
    ensures StartsWith(url, "/api/echo") || StartsWith(url, "/api/api/") ==> url != "/api" && url != "/api/"
  {
  }
}
