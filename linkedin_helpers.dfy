/**
 * The text helpers around the LinkedIn search agent: building a profile URL
 * from a username, taking the username and a cleaned URL back out of a
 * profile URL, and splitting a search-result title into name, job and
 * company.
 */
module LinkedInHelpers {
  import opened Wrappers
  import opened PyStrings

  // ---------------------------------------------------------------------
  // Profile URLs
  // ---------------------------------------------------------------------

  /** `build_profile_url`: the profile URL of a username, with a trailing slash. */
  function BuildProfileUrl(username: string): string {
    "https://www.linkedin.com/in/" + username + "/"
  }

  /** The six components `urlparse` splits a URL into. */
  datatype UrlParts = UrlParts(
    scheme: string,
    netloc: string,
    path: string,
    params: string,
    query: string,
    fragment: string)

  /**
   * `ParseResult.geturl()` for a URL that has a network location: the
   * scheme, then `//` and the location, the path (given a leading `/`),
   * then `;params`, `?query` and `#fragment` when they are not empty.
   */
  function Unparse(p: UrlParts): string
    requires p.netloc != ""
  {
    var path := if p.params == "" then p.path else p.path + ";" + p.params;
    var rooted := if path != "" && path[0] != '/' then "/" + path else path;
    (if p.scheme == "" then "" else p.scheme + ":")
      + "//" + p.netloc + rooted
      + (if p.query == "" then "" else "?" + p.query)
      + (if p.fragment == "" then "" else "#" + p.fragment)
  }

  const BaseUrl: string := "linkedin.com"
  const BaseProfilePath: string := "/in/"

  /** What `grab_username_and_safe_url` returns: the dictionary with "username" and "url". */
  datatype UrlDetails = UrlDetails(username: string, url: string)

  /** Cutting at the first "/" keeps a prefix without "/" that ends at the end or at a "/". */
  lemma CutAtSlash(t: string)
    ensures var seg := if Contains(t, "/") then Split(t, "/")[0] else t;
      |seg| <= |t| && t[..|seg|] == seg && '/' !in seg && (|seg| == |t| || t[|seg|] == '/')
  {
    FindChar(t, '/');
    SplitHead(t, "/");
  }

  /** The piece after the first "/in/" runs from there to the end of the path or to the next "/in/". */
  lemma StrippedBounds(path: string)
    requires Contains(path, BaseProfilePath)
    ensures var start := FindFirst(path, BaseProfilePath).value + |BaseProfilePath|;
      var stripped := Split(path, BaseProfilePath)[1];
      && start + |stripped| <= |path|
      && path[start..start + |stripped|] == stripped
      && (start + |stripped| == |path| || path[start + |stripped|] == '/')
  {
    SecondPieceFollows(path, BaseProfilePath);
    var k := FindFirst(path, BaseProfilePath).value + |BaseProfilePath| + |Split(path, BaseProfilePath)[1]|;
    if k < |path| {
      assert path[k..k + 4][0] == path[k];
    }
  }

  /** A prefix of a stretch of `s` that ends where the stretch does or at `c` is a stretch of `s` ending the same way. */
  lemma PrefixWithin(s: string, start: nat, mid: string, seg: string, c: char)
    requires start + |mid| <= |s| && s[start..start + |mid|] == mid
    requires start + |mid| == |s| || s[start + |mid|] == c
    requires |seg| <= |mid| && mid[..|seg|] == seg && (|seg| == |mid| || mid[|seg|] == c)
    ensures start + |seg| <= |s| && s[start..start + |seg|] == seg
    ensures start + |seg| == |s| || s[start + |seg|] == c
  {
    assert s[start..start + |seg|] == s[start..start + |mid|][..|seg|];
    if |seg| < |mid| {
      assert s[start..start + |mid|][|seg|] == s[start + |seg|];
    }
  }

  /**
   * The profile segment of a path, as the source takes it: the second piece
   * of the split at "/in/", cut at its first "/". It is the text that
   * follows the first "/in/" of the path, up to the next "/" or the end.
   */
  function ProfileSegment(path: string): (seg: string)
    requires Contains(path, BaseProfilePath)
    ensures var start := FindFirst(path, BaseProfilePath).value + |BaseProfilePath|;
      && start + |seg| <= |path|
      && path[start..start + |seg|] == seg
      && '/' !in seg
      && (start + |seg| == |path| || path[start + |seg|] == '/')
  {
    StrippedBounds(path);
    var stripped := Split(path, BaseProfilePath)[1];
    CutAtSlash(stripped);
    var seg := if Contains(stripped, "/") then Split(stripped, "/")[0] else stripped;
    PrefixWithin(path, FindFirst(path, BaseProfilePath).value + |BaseProfilePath|, stripped, seg, '/');
    seg
  }

  /**
   * `grab_username_and_safe_url(account_url)`, given `parts`, the result of
   * `urlparse(account_url)`. The URL is refused when it is empty or None,
   * when its location lacks "linkedin.com" or its path lacks "/in/";
   * otherwise the username is the alphanumeric part of the profile segment
   * and the URL keeps scheme and location, has path "/in/<segment>" and
   * drops params, query and fragment.
   */
  function GrabUsernameAndSafeUrl(accountUrl: Option<string>, parts: UrlParts): (r: Option<UrlDetails>)
    ensures r.None? <==>
      || accountUrl.None? || accountUrl == Some("")
      || !Contains(parts.netloc, BaseUrl)
      || !Contains(parts.path, BaseProfilePath)
    ensures r.Some? ==> AllAlnum(r.value.username)
    ensures r.Some? ==> r.value.username == KeepAlnum(ProfileSegment(parts.path))
    ensures r.Some? ==> (parts.netloc != "" && r.value.url ==
      Unparse(UrlParts(parts.scheme, parts.netloc, BaseProfilePath + ProfileSegment(parts.path), "", "", "")))
  {
    if accountUrl.None? || accountUrl == Some("") then None
    else if !Contains(parts.netloc, BaseUrl) then None
    else if !Contains(parts.path, BaseProfilePath) then None
    else
      var segment := ProfileSegment(parts.path);
      var safe := parts.(params := "", query := "", fragment := "", path := "/in/" + segment);
      KeepAlnumContents(segment);
      Some(UrlDetails(KeepAlnum(segment), Unparse(safe)))
  }

  /** The profile segment of "/in/<u>/" is `u` when `u` has no "/". */
  lemma ProfileSegmentOfBuilt(u: string)
    requires '/' !in u
    ensures Contains("/in/" + u + "/", BaseProfilePath)
    ensures ProfileSegment("/in/" + u + "/") == u
  {
    var path := "/in/" + u + "/";
    var rest := u + "/";
    assert OccursAt(path, 0, BaseProfilePath);
    // "/in/" cannot occur in `u + "/"`: its only "/" is the last character.
    forall j: nat | j + 4 <= |rest|
      ensures !OccursAt(rest, j, BaseProfilePath)
    {
      assert rest[j] == u[j];
      assert rest[j..j + 4][0] == rest[j];
    }
    assert path == "" + BaseProfilePath + rest;
    SplitFirst("", BaseProfilePath, rest);
    SplitHead(rest, BaseProfilePath);
    assert Split(path, BaseProfilePath)[1] == rest;
    KeyCharBlocksEarlyMatch(u, "/", "", 0);
    assert rest == u + "/" + "";
    SplitFirst(u, "/", "");
    FindChar(rest, '/');
  }

  /**
   * Reading back a built profile URL: for an alphanumeric username the
   * username comes back unchanged, and the safe URL is the profile URL
   * without its trailing slash.
   */
  lemma BuildThenGrab(u: string)
    requires AllAlnum(u)
    ensures GrabUsernameAndSafeUrl(
              Some(BuildProfileUrl(u)),
              UrlParts("https", "www.linkedin.com", "/in/" + u + "/", "", "", ""))
            == Some(UrlDetails(u, "https://www.linkedin.com/in/" + u))
  {
    var parts := UrlParts("https", "www.linkedin.com", "/in/" + u + "/", "", "", "");
    assert OccursAt(parts.netloc, 4, BaseUrl);
    assert '/' !in u;
    ProfileSegmentOfBuilt(u);
    KeepAlnumOfAlnum(u);
    var r := GrabUsernameAndSafeUrl(Some(BuildProfileUrl(u)), parts);
    assert r.Some?;
    assert r.value.username == u;
    SafeProfileUrl(u);
  }

  lemma SafeProfileUrl(u: string)
    ensures Unparse(UrlParts("https", "www.linkedin.com", BaseProfilePath + u, "", "", ""))
            == "https://www.linkedin.com/in/" + u
  {
    var p := UrlParts("https", "www.linkedin.com", BaseProfilePath + u, "", "", "");
    assert p.path[0] == '/';
    var prefix := "https" + ":" + "//" + "www.linkedin.com";
    assert Unparse(p) == prefix + ("/in/" + u);
    ProfileUrlPrefix();
  }

  lemma ProfileUrlPrefix()
    ensures "https" + ":" + "//" + "www.linkedin.com" + "/in/" == "https://www.linkedin.com/in/"
  {
  }

  // ---------------------------------------------------------------------
  // Search-result titles
  // ---------------------------------------------------------------------

  const EnDash: char := '\U{2013}'
  const HyphenSeparator: string := " - "
  const EnDashSeparator: string := [' ', EnDash, ' ']

  /** What `parse_title` returns: full name, and job title and company when the title has them. */
  datatype TitleDetails = TitleDetails(fullName: string, jobTitle: Option<string>, company: Option<string>)

  /** The title cut at its first "|", then at the first "...". */
  function TrimTitle(title: string): string {
    var t := if Contains(title, "|") then Split(title, "|")[0] else title;
    if Contains(t, "...") then Split(t, "...")[0] else t
  }

  /**
   * The title cut into sections: at " – " when it has an en dash anywhere,
   * else at " - ". The sections joined with that separator give back the
   * title, and no section holds it.
   */
  function TitleSections(title: string): (sections: seq<string>)
    ensures |sections| >= 1
    ensures var sep := if EnDash in title then EnDashSeparator else HyphenSeparator;
      && Join(sections, sep) == title
      && forall k :: 0 <= k < |sections| ==> !Contains(sections[k], sep)
  {
    FindChar(title, EnDash);
    var sep := if Contains(title, [EnDash]) then EnDashSeparator else HyphenSeparator;
    SplitJoin(title, sep);
    SplitPiecesFree(title, sep);
    Split(title, sep)
  }

  /**
   * `parse_title`: None for a missing or empty title and for a title with
   * one section or more than three; the first section is the full name, and
   * with three sections the second and third are job title and company.
   */
  function ParseTitle(title: Option<string>): (r: Option<TitleDetails>)
    ensures title.None? || title == Some("") ==> r.None?
    ensures title.Some? && title.value != "" ==>
      var sections := TitleSections(TrimTitle(title.value));
      && (r.Some? <==> |sections| == 2 || |sections| == 3)
      && (|sections| == 2 ==> r == Some(TitleDetails(sections[0], None, None)))
      && (|sections| == 3 ==> r == Some(TitleDetails(sections[0], Some(sections[1]), Some(sections[2]))))
  {
    if title.None? || title.value == "" then None
    else
      var sections := TitleSections(TrimTitle(title.value));
      if |sections| == 1 then None
      else if |sections| == 2 then Some(TitleDetails(sections[0], None, None))
      else if |sections| == 3 then Some(TitleDetails(sections[0], Some(sections[1]), Some(sections[2])))
      else None
  }

  /**
   * Trimming keeps a prefix of the title that has neither "|" nor "...",
   * ends no later than the first "|", and leaves a title without either
   * unchanged.
   */
  lemma TrimTitleCuts(title: string)
    ensures |TrimTitle(title)| <= |title| && title[..|TrimTitle(title)|] == TrimTitle(title)
    ensures '|' !in TrimTitle(title) && !Contains(TrimTitle(title), "...")
    ensures Contains(title, "|") ==> |TrimTitle(title)| <= FindFirst(title, "|").value
    ensures !Contains(title, "|") && !Contains(title, "...") ==> TrimTitle(title) == title
    ensures var t := if Contains(title, "|") then title[..FindFirst(title, "|").value] else title;
      TrimTitle(title) == if Contains(t, "...") then t[..FindFirst(t, "...").value] else t
  {
    FindChar(title, '|');
    SplitHead(title, "|");
    var t := if Contains(title, "|") then Split(title, "|")[0] else title;
    assert '|' !in t by {
      if Contains(title, "|") {
        assert t == title[..FindFirst(title, "|").value];
      }
    }
    SplitHead(t, "...");
    SplitPiecesFree(t, "...");
    var r := TrimTitle(title);
    assert |r| <= |t| && t[..|r|] == r;
    assert forall i :: 0 <= i < |r| ==> r[i] == t[i];
  }

  /** A title field that holds none of the characters the parser cuts at. */
  predicate PlainField(s: string) {
    '|' !in s && '.' !in s && '-' !in s && EnDash !in s
  }

  lemma SplitOnHyphen(a: string, b: string)
    requires '-' !in a
    ensures Split(a + HyphenSeparator + b, HyphenSeparator) == [a] + Split(b, HyphenSeparator)
  {
    KeyCharBlocksEarlyMatch(a, HyphenSeparator, b, 1);
    SplitFirst(a, HyphenSeparator, b);
  }

  lemma SplitPlainField(a: string)
    requires '-' !in a
    ensures Split(a, HyphenSeparator) == [a]
  {
    AbsentChar(a, HyphenSeparator, 1);
  }

  lemma PlainTitleUntouched(title: string)
    requires '|' !in title && '.' !in title && EnDash !in title
    ensures TrimTitle(title) == title
    ensures TitleSections(title) == Split(title, HyphenSeparator)
  {
    FindChar(title, '|');
    AbsentChar(title, "...", 0);
    FindChar(title, EnDash);
  }

  lemma SplitThreeFields(name: string, job: string, company: string)
    requires '-' !in name && '-' !in job && '-' !in company
    ensures Split(name + HyphenSeparator + job + HyphenSeparator + company, HyphenSeparator) == [name, job, company]
  {
    var tail := job + HyphenSeparator + company;
    assert name + HyphenSeparator + job + HyphenSeparator + company == name + HyphenSeparator + tail;
    SplitOnHyphen(name, tail);
    SplitOnHyphen(job, company);
    SplitPlainField(company);
  }

  /** "Name - Job - Company" with plain fields parses back into its three fields. */
  lemma ParseThreeSectionTitle(name: string, job: string, company: string)
    requires PlainField(name) && PlainField(job) && PlainField(company)
    ensures ParseTitle(Some(name + HyphenSeparator + job + HyphenSeparator + company))
            == Some(TitleDetails(name, Some(job), Some(company)))
  {
    var title := name + HyphenSeparator + job + HyphenSeparator + company;
    assert '|' !in title && '.' !in title && EnDash !in title;
    PlainTitleUntouched(title);
    SplitThreeFields(name, job, company);
  }

  /** "Name - Location" with plain fields gives the name alone. */
  lemma ParseTwoSectionTitle(name: string, location: string)
    requires PlainField(name) && PlainField(location)
    ensures ParseTitle(Some(name + HyphenSeparator + location)) == Some(TitleDetails(name, None, None))
  {
    var title := name + HyphenSeparator + location;
    assert '|' !in title && '.' !in title && EnDash !in title;
    PlainTitleUntouched(title);
    SplitOnHyphen(name, location);
    SplitPlainField(location);
  }

  lemma SplitOnEnDash(a: string, b: string)
    requires EnDash !in a
    ensures Split(a + EnDashSeparator + b, EnDashSeparator) == [a] + Split(b, EnDashSeparator)
  {
    KeyCharBlocksEarlyMatch(a, EnDashSeparator, b, 1);
    SplitFirst(a, EnDashSeparator, b);
  }

  lemma SplitPlainOnEnDash(a: string)
    requires EnDash !in a
    ensures Split(a, EnDashSeparator) == [a]
  {
    AbsentChar(a, EnDashSeparator, 1);
  }

  /** A title with an en dash and no "|" or "." is not trimmed and is split at " – ". */
  lemma EnDashTitleUntouched(title: string)
    requires '|' !in title && '.' !in title && EnDash in title
    ensures TrimTitle(title) == title
    ensures TitleSections(title) == Split(title, EnDashSeparator)
  {
    FindChar(title, '|');
    AbsentChar(title, "...", 0);
    FindChar(title, EnDash);
  }

  /**
   * An en dash anywhere decides the separator: in "a - b – c" the hyphen is
   * not a separator, so the title has two sections and gives the name
   * "a - b" alone.
   */
  lemma EnDashWinsOverHyphen(a: string, b: string, c: string)
    requires PlainField(a) && PlainField(b) && PlainField(c)
    ensures TitleSections(a + HyphenSeparator + b + EnDashSeparator + c) == [a + HyphenSeparator + b, c]
    ensures ParseTitle(Some(a + HyphenSeparator + b + EnDashSeparator + c))
            == Some(TitleDetails(a + HyphenSeparator + b, None, None))
  {
    var head := a + HyphenSeparator + b;
    var title := head + EnDashSeparator + c;
    assert title[|head| + 1] == EnDash;
    assert '|' !in title && '.' !in title;
    EnDashTitleUntouched(title);
    assert EnDash !in head;
    SplitOnEnDash(head, c);
    SplitPlainOnEnDash(c);
  }

  lemma SplitThreeOnEnDash(name: string, job: string, company: string)
    requires EnDash !in name && EnDash !in job && EnDash !in company
    ensures Split(name + EnDashSeparator + job + EnDashSeparator + company, EnDashSeparator) == [name, job, company]
  {
    var tail := job + EnDashSeparator + company;
    assert name + EnDashSeparator + job + EnDashSeparator + company == name + EnDashSeparator + tail;
    SplitOnEnDash(name, tail);
    SplitOnEnDash(job, company);
    SplitPlainOnEnDash(company);
  }

  /** "Name – Job – Company" with plain fields parses back into its three fields. */
  lemma ParseEnDashThreeSectionTitle(name: string, job: string, company: string)
    requires PlainField(name) && PlainField(job) && PlainField(company)
    ensures ParseTitle(Some(name + EnDashSeparator + job + EnDashSeparator + company))
            == Some(TitleDetails(name, Some(job), Some(company)))
  {
    var title := name + EnDashSeparator + job + EnDashSeparator + company;
    assert title[|name| + 1] == EnDash;
    assert '|' !in title && '.' !in title;
    EnDashTitleUntouched(title);
    SplitThreeOnEnDash(name, job, company);
  }

  /** Whatever follows the first "|" has no effect on the parse. */
  lemma ParseIgnoresAfterBar(head: string, tail: string)
    requires '|' !in head
    ensures ParseTitle(Some(head + "|" + tail)) == (if head == "" then None else ParseTitle(Some(head)))
  {
    var title := head + "|" + tail;
    FindChar(head, '|');
    KeyCharBlocksEarlyMatch(head, "|", tail, 0);
    SplitFirst(head, "|", tail);
    assert Contains(title, "|");
    assert Split(title, "|")[0] == head;
    assert TrimTitle(title) == TrimTitle(head);
    if head == "" {
      assert !Contains("", "...");
      assert TitleSections("") == [""];
    }
  }
}
