/** Extraction of a company identifier from a LinkedIn profile URL
    (`getCompanyId` in AddCompany.js): split the URL on '/', find the first
    segment equal to "company" and take the segment after it. */
module CompanyId {
  import opened JsValues

  /** The segment that marks the identifier. */
  const CompanyMarker: string := "company"

  /** `s.split(sep)` for a one-character separator: the maximal runs of
      characters between separators, in order. There is always at least one
      segment: the empty string splits into `[""]`. */
  function Split(s: string, sep: char): (r: seq<string>)
    ensures |r| >= 1
    ensures forall i :: 0 <= i < |r| ==> sep !in r[i]
    // the first segment is the text before the first separator
    ensures r[0] <= s && (|r[0]| == |s| || s[|r[0]|] == sep)
    decreases |s|
  {
    if |s| == 0 then [""]
    else if s[0] == sep then [""] + Split(s[1..], sep)
    else
      var t := Split(s[1..], sep);
      [[s[0]] + t[0]] + t[1..]
  }

  /** `segs.join(sep)`: the inverse of Split. */
  function Join(segs: seq<string>, sep: char): string
    requires |segs| >= 1
  {
    if |segs| == 1 then segs[0] else segs[0] + [sep] + Join(segs[1..], sep)
  }

  /** `xs.findIndex(e => e === x)`: the index of the first element equal to
      `x`, or -1 when there is none. */
  function FindIndex(xs: seq<string>, x: string): (i: int)
    ensures -1 <= i < |xs|
    ensures i == -1 <==> x !in xs
    ensures 0 <= i ==> xs[i] == x && x !in xs[..i]
  {
    if |xs| == 0 then -1
    else if xs[0] == x then 0
    else
      var j := FindIndex(xs[1..], x);
      if j == -1 then -1
      else
        assert xs[..j + 1] == [xs[0]] + xs[1..][..j];
        j + 1
  }

  /** `getCompanyId(url)`: `tmp[idx + 1]` where `tmp = url.split("/")` and
      `idx` is the index of the first "company" segment. When there is no
      such segment `idx` is -1 and the result is segment 0; the result is
      undefined only when the first "company" segment is the last one. */
  function GetCompanyId(url: string): (r: Option<string>)
    ensures r.Some? ==> '/' !in r.value
    ensures r.None? <==>
      var segs := Split(url, '/');
      segs[|segs| - 1] == CompanyMarker && CompanyMarker !in segs[..|segs| - 1]
  {
    var segs := Split(url, '/');
    var idx := FindIndex(segs, CompanyMarker);
    if idx + 1 < |segs| then Some(segs[idx + 1]) else None
  }

  /** Splitting and joining again gives back the original string. */
  lemma {:induction false} JoinSplit(s: string, sep: char)
    ensures Join(Split(s, sep), sep) == s
    decreases |s|
  {
    if |s| == 0 {
    } else if s[0] == sep {
      var t := Split(s[1..], sep);
      JoinSplit(s[1..], sep);
      assert ([""] + t)[1..] == t;
      assert s == [sep] + s[1..];
    } else {
      var t := Split(s[1..], sep);
      JoinSplit(s[1..], sep);
      var r := [[s[0]] + t[0]] + t[1..];
      assert r == Split(s, sep);
      if |t| == 1 {
        assert s == [s[0]] + s[1..];
      } else {
        assert r[1..] == t[1..];
        assert s == [s[0]] + s[1..];
      }
    }
  }

  /** A string without separators is a single segment. */
  lemma {:induction false} SplitSingle(a: string, sep: char)
    requires sep !in a
    ensures Split(a, sep) == [a]
    decreases |a|
  {
    if |a| > 0 {
      SplitSingle(a[1..], sep);
      assert [a[0]] + a[1..] == a;
    }
  }

  /** A separator after a separator-free prefix `a` ends the first segment. */
  lemma {:induction false} SplitAfterSegment(a: string, b: string, sep: char)
    requires sep !in a
    ensures Split(a + [sep] + b, sep) == [a] + Split(b, sep)
    decreases |a|
  {
    var s := a + [sep] + b;
    if |a| == 0 {
      assert s == [sep] + b;
      assert s[1..] == b;
    } else {
      assert s[1..] == a[1..] + [sep] + b;
      SplitAfterSegment(a[1..], b, sep);
      assert [a[0]] + a[1..] == a;
    }
  }

  /** Joining separator-free segments and splitting again gives back the
      segments: Split and Join are inverse bijections. */
  lemma {:induction false} SplitJoin(segs: seq<string>, sep: char)
    requires |segs| >= 1
    requires forall seg | seg in segs :: sep !in seg
    ensures Split(Join(segs, sep), sep) == segs
    decreases |segs|
  {
    if |segs| == 1 {
      SplitSingle(segs[0], sep);
    } else {
      SplitJoin(segs[1..], sep);
      SplitAfterSegment(segs[0], Join(segs[1..], sep), sep);
      assert [segs[0]] + segs[1..] == segs;
    }
  }

  /** Joining one more segment in front. */
  lemma JoinCons(x: string, rest: seq<string>, sep: char)
    requires |rest| >= 1
    ensures Join([x] + rest, sep) == x + [sep] + Join(rest, sep)
  {
    assert ([x] + rest)[1..] == rest;
  }

  /** FindIndex gives the position of the first occurrence. */
  lemma FindIndexAt(xs: seq<string>, x: string, k: nat)
    requires k < |xs| && xs[k] == x && x !in xs[..k]
    ensures FindIndex(xs, x) == k
  {
  }

  /** The identifier is the segment after the first "company" segment. */
  lemma CompanyIdOfSegments(url: string, k: nat)
    requires k + 1 < |Split(url, '/')|
    requires FindIndex(Split(url, '/'), CompanyMarker) == k
    ensures GetCompanyId(url) == Some(Split(url, '/')[k + 1])
  {
  }

  /** For a URL of the form `.../company/<id>/...`, the identifier is `<id>`,
      provided no earlier segment is "company". Later "company" segments do
      not matter. */
  lemma CompanyIdAfterMarker(before: seq<string>, id: string, after: seq<string>)
    requires forall seg | seg in before :: '/' !in seg && seg != CompanyMarker
    requires '/' !in id
    requires forall seg | seg in after :: '/' !in seg
    ensures GetCompanyId(Join(before + [CompanyMarker, id] + after, '/')) == Some(id)
  {
    var segs := before + [CompanyMarker, id] + after;
    SplitJoin(segs, '/');
    assert segs[..|before|] == before;
    FindIndexAt(segs, CompanyMarker, |before|);
    CompanyIdOfSegments(Join(segs, '/'), |before|);
  }

  /** The segments of a profile URL `<scheme>//<host>/company/<id>/`. */
  lemma JoinProfileUrl(scheme: string, host: string, id: string)
    ensures Join([scheme, "", host, CompanyMarker, id, ""], '/')
         == scheme + "//" + host + "/company/" + id + "/"
  {
    JoinCons(id, [""], '/');
    JoinCons(CompanyMarker, [id, ""], '/');
    JoinCons(host, [CompanyMarker, id, ""], '/');
    JoinCons("", [host, CompanyMarker, id, ""], '/');
    JoinCons(scheme, ["", host, CompanyMarker, id, ""], '/');
  }

  /** A profile URL `<scheme>//<host>/company/<id>/` yields `<id>`. */
  lemma ProfileUrl(scheme: string, host: string, id: string)
    requires '/' !in scheme && scheme != CompanyMarker
    requires '/' !in host && host != CompanyMarker
    requires '/' !in id
    ensures GetCompanyId(scheme + "//" + host + "/company/" + id + "/") == Some(id)
  {
    var before := [scheme, "", host];
    CompanyIdAfterMarker(before, id, [""]);
    assert before + [CompanyMarker, id] + [""] == [scheme, "", host, CompanyMarker, id, ""];
    JoinProfileUrl(scheme, host, id);
  }

  /** The placeholder URL of the LinkedIn input yields "google". */
  lemma PlaceholderUrl()
    ensures GetCompanyId("https://www.linkedin.com/company/google/") == Some("google")
  {
    ProfileUrl("https:", "www.linkedin.com", "google");
    PlaceholderUrlParts();
  }

  lemma PlaceholderUrlParts()
    ensures "https:" + "//" + "www.linkedin.com" + "/company/" + "google" + "/"
         == "https://www.linkedin.com/company/google/"
  {
    assert "https:" + "//" == "https://";
    assert "https://" + "www.linkedin.com" == "https://www.linkedin.com";
    assert "https://www.linkedin.com" + "/company/" == "https://www.linkedin.com/company/";
    assert "https://www.linkedin.com/company/" + "google" == "https://www.linkedin.com/company/google";
    assert "https://www.linkedin.com/company/google" + "/" == "https://www.linkedin.com/company/google/";
  }

  /** Without a "company" segment the result is segment 0, the text before
      the first '/', not undefined. */
  lemma CompanyIdWithoutMarker(url: string)
    requires CompanyMarker !in Split(url, '/')
    ensures GetCompanyId(url) == Some(Split(url, '/')[0])
  {
  }

  /** A URL `<scheme>//<host>` without a "company" segment yields its
      scheme. */
  lemma SiteUrl(scheme: string, host: string)
    requires '/' !in scheme && scheme != CompanyMarker
    requires '/' !in host && host != CompanyMarker
    ensures GetCompanyId(scheme + "//" + host) == Some(scheme)
  {
    var segs := [scheme, "", host];
    SplitJoin(segs, '/');
    JoinCons("", [host], '/');
    JoinCons(scheme, ["", host], '/');
    assert Join(segs, '/') == scheme + "//" + host;
    CompanyIdWithoutMarker(scheme + "//" + host);
  }

  /** A text without '/' that is not "company" is its own identifier. */
  lemma BareNameUrl(s: string)
    requires '/' !in s && s != CompanyMarker
    ensures GetCompanyId(s) == Some(s)
  {
    SplitSingle(s, '/');
  }

  /** A site URL without a "company" segment yields its scheme, a truthy
      identifier. */
  lemma SiteUrlExample()
    ensures GetCompanyId("https://example.com") == Some("https:")
  {
    SiteUrl("https:", "example.com");
    assert "https:" + "//" + "example.com" == "https://example.com";
  }

  /** The empty URL gives the empty identifier, and so does a "company"
      segment followed by an empty segment. */
  lemma EmptyCompanyIds()
    ensures GetCompanyId("") == Some("")
    ensures GetCompanyId("company/") == Some("")
    ensures GetCompanyId("company") == None
  {
    CompanyIdAfterMarker([], "", []);
    assert Join([CompanyMarker, ""], '/') == "company/";
    SplitSingle("company", '/');
  }
}
