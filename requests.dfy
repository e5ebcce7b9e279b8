/**
 * The requests the page issues: the filter snapshot the jobs URL is built
 * from, the two URLs, the Authorization header, and the model's query
 * reader, which reads the query string of a URL back, so that the jobs URL
 * can be checked against it.
 */
module JobsRequests {
  import opened Optional

  const ProfileApiUrl := "https://apis.ccbp.in/profile"
  const JobsApiUrl := "https://apis.ccbp.in/jobs"

  /** The three filter fields of the component state (its `initialState` object). */
  datatype Filters = Filters(searchInput: string, employmentType: string, minimumPackage: string)

  const InitialFilters := Filters("", "", "")

  /** A GET request with its bearer Authorization header. */
  datatype Request = Request(url: string, httpMethod: string, authorization: string)

  /** The text a template string makes of the cookie: its value, or "undefined" when it is missing. */
  function TokenText(jwtToken: Option<string>): string
  {
    match jwtToken
    case Some(t) => t
    case None => "undefined"
  }

  /** The bearer token a header carries: the text after "Bearer ". */
  function BearerToken(header: string): (r: Option<string>)
    ensures r.Some? ==> header == "Bearer " + r.value
  {
    if |header| >= 7 && header[..7] == "Bearer " then Some(header[7..]) else None
  }

  /**
   * `Bearer ${jwtToken}`: a present cookie is carried unchanged as
   * the bearer token; a missing one is carried as the token "undefined".
   */
  function AuthorizationHeader(jwtToken: Option<string>): (h: string)
    ensures BearerToken(h) == Some(TokenText(jwtToken))
  {
    var h := "Bearer " + TokenText(jwtToken);
    assert h[..7] == "Bearer ";
    h
  }

  /** A missing cookie cannot be told apart from a cookie whose value is the text "undefined". */
  lemma MissingCookieSentAsUndefined(t: string)
    ensures AuthorizationHeader(None) == AuthorizationHeader(Some(t)) <==> t == "undefined"
  {
    if AuthorizationHeader(None) == AuthorizationHeader(Some(t)) {
      assert BearerToken(AuthorizationHeader(Some(t))) == Some(t);
    }
  }

  /** The profile request: a GET of the fixed profile URL, which has no query, with the bearer header. */
  function ProfileRequest(jwtToken: Option<string>): (r: Request)
    ensures r.url == ProfileApiUrl && '?' !in r.url && r.httpMethod == "GET"
    ensures BearerToken(r.authorization) == Some(TokenText(jwtToken))
  {
    Request(ProfileApiUrl, "GET", AuthorizationHeader(jwtToken))
  }

  /** The length of the jobs URL without its three values. */
  const JobsUrlFixedLength := |JobsApiUrl| + |"?employment_type="| + |"&minimum_package="| + |"&search="|

  /**
   * The jobs URL: three query parameters, in this order, with the filter
   * values inserted verbatim. The URL is the fixed text and the three values
   * and nothing else, so no character of a value is escaped.
   */
  function JobsUrl(f: Filters): (url: string)
    ensures |url| == JobsUrlFixedLength + |f.employmentType| + |f.minimumPackage| + |f.searchInput|
    ensures url[..|JobsApiUrl| + 17] == JobsApiUrl + "?employment_type="
    ensures url[|JobsApiUrl| + 17..|JobsApiUrl| + 17 + |f.employmentType|] == f.employmentType
    ensures url[|JobsApiUrl| + 17 + |f.employmentType|..|JobsApiUrl| + 34 + |f.employmentType|]
         == "&minimum_package="
    ensures url[|JobsApiUrl| + 34 + |f.employmentType|..|JobsApiUrl| + 34 + |f.employmentType| + |f.minimumPackage|]
         == f.minimumPackage
    ensures url[|url| - |f.searchInput| - 8..] == "&search=" + f.searchInput
  {
    JobsApiUrl + "?employment_type=" + f.employmentType + "&minimum_package=" + f.minimumPackage
      + "&search=" + f.searchInput
  }

  /**
   * The jobs request for a filter snapshot: a GET of the jobs URL with the
   * bearer header; when no value holds '&' or '#', the model's query reader
   * reads the three filter values back from it.
   */
  function JobsRequest(f: Filters, jwtToken: Option<string>): (r: Request)
    ensures r.url == JobsUrl(f) && r.httpMethod == "GET"
    ensures BearerToken(r.authorization) == Some(TokenText(jwtToken))
    ensures NoDelimiters(f) ==> (
              QueryParams(r.url)
           == [("employment_type", f.employmentType), ("minimum_package", f.minimumPackage),
               ("search", f.searchInput)])
  {
    if NoDelimiters(f) then JobsUrlQuery(f); Request(JobsUrl(f), "GET", AuthorizationHeader(jwtToken))
    else Request(JobsUrl(f), "GET", AuthorizationHeader(jwtToken))
  }

  /** No filter value holds '&' or '#'. */
  predicate NoDelimiters(f: Filters)
  {
    && '&' !in f.employmentType && '#' !in f.employmentType
    && '&' !in f.minimumPackage && '#' !in f.minimumPackage
    && '&' !in f.searchInput && '#' !in f.searchInput
  }

  // The model's query reader: the text after the first '?' and
  // before the next '#', split at every '&', each part split at its first '='
  // into name and value. Percent-decoding is not part of this reading.

  /** The number of occurrences of `c` in `s`. */
  function Count(s: string, c: char): nat
  {
    if s == [] then 0 else (if s[0] == c then 1 else 0) + Count(s[1..], c)
  }

  /** The text of `s` before its first `c` (all of `s` when there is none). */
  function Before(s: string, c: char): string
  {
    if s == [] || s[0] == c then [] else [s[0]] + Before(s[1..], c)
  }

  /** The text of `s` after its first `c` (empty when there is none). */
  function After(s: string, c: char): string
  {
    if s == [] then [] else if s[0] == c then s[1..] else After(s[1..], c)
  }

  /** `s` cut at every `c`: one more part than there are `c`s, and no part holds a `c`. */
  function SplitOn(s: string, c: char): (parts: seq<string>)
    ensures |parts| == Count(s, c) + 1
    ensures forall i :: 0 <= i < |parts| ==> c !in parts[i]
  {
    if s == [] then [[]]
    else if s[0] == c then [[]] + SplitOn(s[1..], c)
    else
      var rest := SplitOn(s[1..], c);
      [[s[0]] + rest[0]] + rest[1..]
  }

  /** A query part read as name and value. */
  function NameValue(part: string): (string, string)
  {
    (Before(part, '='), After(part, '='))
  }

  /** The parameters the model's query reader takes from a URL, in order. */
  function QueryParams(url: string): (params: seq<(string, string)>)
    ensures |params| == Count(Before(After(url, '?'), '#'), '&') + 1
  {
    var parts := SplitOn(Before(After(url, '?'), '#'), '&');
    seq(|parts|, i requires 0 <= i < |parts| => NameValue(parts[i]))
  }

  lemma {:induction false} CountAppend(a: string, b: string, c: char)
    ensures Count(a + b, c) == Count(a, c) + Count(b, c)
  {
    if a == [] {
      assert a + b == b;
    } else {
      assert (a + b)[1..] == a[1..] + b;
      CountAppend(a[1..], b, c);
    }
  }

  lemma {:induction false} CountZero(s: string, c: char)
    ensures Count(s, c) == 0 <==> c !in s
  {
    if s != [] {
      CountZero(s[1..], c);
      assert s == [s[0]] + s[1..];
    }
  }

  /** Cutting at the first `c` gives back the text before and after it. */
  lemma {:induction false} BeforeAfterFirst(a: string, b: string, c: char)
    requires c !in a
    ensures Before(a + [c] + b, c) == a
    ensures After(a + [c] + b, c) == b
  {
    if a != [] {
      assert (a + [c] + b)[1..] == a[1..] + [c] + b;
      BeforeAfterFirst(a[1..], b, c);
    }
  }

  lemma {:induction false} BeforeAbsent(s: string, c: char)
    requires c !in s
    ensures Before(s, c) == s
  {
    if s != [] {
      BeforeAbsent(s[1..], c);
    }
  }

  lemma {:induction false} AfterAbsent(s: string, c: char)
    requires c !in s
    ensures After(s, c) == []
  {
    if s != [] {
      AfterAbsent(s[1..], c);
    }
  }

  lemma {:induction false} SplitAbsent(s: string, c: char)
    requires c !in s
    ensures SplitOn(s, c) == [s]
  {
    if s != [] {
      SplitAbsent(s[1..], c);
      assert [s[0]] + s[1..] == s;
    }
  }

  /** A part free of `c` followed by `c` splits off as the first part. */
  lemma {:induction false} SplitFirst(a: string, b: string, c: char)
    requires c !in a
    ensures SplitOn(a + [c] + b, c) == [a] + SplitOn(b, c)
  {
    var x := a + [c] + b;
    if a == [] {
      assert x[1..] == b;
    } else {
      assert x[1..] == a[1..] + [c] + b;
      SplitFirst(a[1..], b, c);
      assert [a[0]] + a[1..] == a;
    }
  }

  /** The jobs URL is the endpoint, a '?', and the query text. */
  lemma JobsUrlShape(f: Filters)
    ensures JobsUrl(f)
         == JobsApiUrl + ['?'] + ("employment_type=" + f.employmentType + "&minimum_package=" + f.minimumPackage
            + "&search=" + f.searchInput)
  {
  }

  /** A `name=value` part whose name holds no '=' reads as that name and value. */
  lemma NameValueOf(name: string, value: string)
    requires '=' !in name
    ensures NameValue(name + "=" + value) == (name, value)
  {
    BeforeAfterFirst(name, value, '=');
  }

  /** The query text of a jobs URL, written as its three `name=value` parts joined by '&'. */
  function JobsQuery(f: Filters): string
  {
    ("employment_type=" + f.employmentType) + ['&'] + ("minimum_package=" + f.minimumPackage) + ['&']
      + ("search=" + f.searchInput)
  }

  /** The query parts joined by '&' are the query text of the URL template. */
  lemma JobsQueryJoined(f: Filters)
    ensures JobsQuery(f)
         == "employment_type=" + f.employmentType + "&minimum_package=" + f.minimumPackage
            + "&search=" + f.searchInput
  {
    assert "&minimum_package=" == ['&'] + "minimum_package=";
    assert "&search=" == ['&'] + "search=";
  }

  /** The text between '?' and '#' of a jobs URL whose values hold no '#'. */
  lemma JobsQueryText(f: Filters)
    requires '#' !in f.employmentType && '#' !in f.minimumPackage && '#' !in f.searchInput
    ensures Before(After(JobsUrl(f), '?'), '#') == JobsQuery(f)
  {
    var q := "employment_type=" + f.employmentType + "&minimum_package=" + f.minimumPackage
            + "&search=" + f.searchInput;
    JobsQueryJoined(f);
    JobsUrlShape(f);
    BeforeAfterFirst(JobsApiUrl, q, '?');
    assert '#' !in q;
    BeforeAbsent(q, '#');
  }

  /** A `name=value` part holds one '&' for each '&' in its value. */
  lemma PartCount(name: string, value: string)
    requires '&' !in name
    ensures Count(name + value, '&') == Count(value, '&')
  {
    CountAppend(name, value, '&');
    CountZero(name, '&');
  }

  /** The query of a jobs URL has two '&'s of its own plus those in the values. */
  lemma JobsQueryCount(f: Filters)
    ensures Count(JobsQuery(f), '&')
         == 2 + Count(f.employmentType, '&') + Count(f.minimumPackage, '&') + Count(f.searchInput, '&')
  {
    var p1, p2, p3 := "employment_type=" + f.employmentType, "minimum_package=" + f.minimumPackage,
                      "search=" + f.searchInput;
    PartCount("employment_type=", f.employmentType);
    PartCount("minimum_package=", f.minimumPackage);
    PartCount("search=", f.searchInput);
    CountAppend(p1 + ['&'] + p2 + ['&'], p3, '&');
    CountAppend(p1 + ['&'] + p2, ['&'], '&');
    CountAppend(p1 + ['&'], p2, '&');
    CountAppend(p1, ['&'], '&');
  }

  /** With no '&' in the values, the query splits into exactly its three parts. */
  lemma JobsQuerySplit(f: Filters)
    requires '&' !in f.employmentType && '&' !in f.minimumPackage && '&' !in f.searchInput
    ensures SplitOn(JobsQuery(f), '&')
         == ["employment_type=" + f.employmentType, "minimum_package=" + f.minimumPackage,
             "search=" + f.searchInput]
  {
    var p1, p2, p3 := "employment_type=" + f.employmentType, "minimum_package=" + f.minimumPackage,
                      "search=" + f.searchInput;
    assert JobsQuery(f) == p1 + ['&'] + (p2 + ['&'] + p3);
    SplitFirst(p1, p2 + ['&'] + p3, '&');
    SplitFirst(p2, p3, '&');
    SplitAbsent(p3, '&');
  }

  /**
   * For filter values free of '#', the model's query reader reads back exactly the three
   * parameters employment_type, minimum_package and search, in that order and
   * with the values unchanged, if and only if no value contains '&'.
   */
  lemma {:induction false} JobsUrlQuery(f: Filters)
    requires '#' !in f.employmentType && '#' !in f.minimumPackage && '#' !in f.searchInput
    ensures QueryParams(JobsUrl(f))
         == [("employment_type", f.employmentType), ("minimum_package", f.minimumPackage),
             ("search", f.searchInput)]
        <==> '&' !in f.employmentType && '&' !in f.minimumPackage && '&' !in f.searchInput
  {
    var e, m, s := f.employmentType, f.minimumPackage, f.searchInput;
    JobsQueryText(f);
    JobsQueryCount(f);
    CountZero(e, '&');
    CountZero(m, '&');
    CountZero(s, '&');
    if '&' !in e && '&' !in m && '&' !in s {
      JobsQuerySplit(f);
      NameValueOf("employment_type", e);
      NameValueOf("minimum_package", m);
      NameValueOf("search", s);
      assert "employment_type" + "=" == "employment_type=";
      assert "minimum_package" + "=" == "minimum_package=";
      assert "search" + "=" == "search=";
      var params := QueryParams(JobsUrl(f));
      assert params[0] == NameValue("employment_type=" + e);
      assert params[1] == NameValue("minimum_package=" + m);
      assert params[2] == NameValue("search=" + s);
    }
  }

  /** With one '&' in the search text, the query splits into four parts. */
  lemma SearchWithAmpersandParts(f: Filters, a: string, b: string)
    requires f.searchInput == a + "&" + b
    requires '&' !in f.employmentType && '&' !in f.minimumPackage && '&' !in a && '&' !in b
    ensures SplitOn(JobsQuery(f), '&')
         == ["employment_type=" + f.employmentType, "minimum_package=" + f.minimumPackage, "search=" + a, b]
  {
    var p1, p2, p3 := "employment_type=" + f.employmentType, "minimum_package=" + f.minimumPackage,
                      "search=" + a;
    assert JobsQuery(f) == p1 + ['&'] + (p2 + ['&'] + (p3 + ['&'] + b));
    SplitFirst(p1, p2 + ['&'] + (p3 + ['&'] + b), '&');
    SplitFirst(p2, p3 + ['&'] + b, '&');
    SplitFirst(p3, b, '&');
    SplitAbsent(b, '&');
  }

  /**
   * A search text `a&b` (with no other '&', '#' or '=') is read by the model's
   * query reader as a search for `a` and a stray parameter named `b`:
   * searching "R&D" looks for "R".
   */
  lemma {:induction false} SearchWithAmpersandIsSplit(f: Filters, a: string, b: string)
    requires f.searchInput == a + "&" + b
    requires '&' !in f.employmentType && '#' !in f.employmentType
    requires '&' !in f.minimumPackage && '#' !in f.minimumPackage
    requires '&' !in a && '#' !in a
    requires '&' !in b && '#' !in b && '=' !in b
    ensures QueryParams(JobsUrl(f))
         == [("employment_type", f.employmentType), ("minimum_package", f.minimumPackage), ("search", a), (b, "")]
  {
    JobsQueryText(f);
    SearchWithAmpersandParts(f, a, b);
    NameValueOf("employment_type", f.employmentType);
    NameValueOf("minimum_package", f.minimumPackage);
    NameValueOf("search", a);
    assert "employment_type" + "=" == "employment_type=";
    assert "minimum_package" + "=" == "minimum_package=";
    assert "search" + "=" == "search=";
    BeforeAbsent(b, '=');
    AfterAbsent(b, '=');
    var params := QueryParams(JobsUrl(f));
    assert params[0] == NameValue("employment_type=" + f.employmentType);
    assert params[1] == NameValue("minimum_package=" + f.minimumPackage);
    assert params[2] == NameValue("search=" + a);
    assert params[3] == NameValue(b);
  }
}
