/**
 * The SQL statements the monitor sends for the LinkedIn and Twitter
 * accounts: templates that place record fields between quotes. Only the
 * LinkedIn last-seen statement filters its argument; the others embed the
 * fields unescaped.
 */
module StoredProcedures {
  import opened Wrappers
  import opened PyStrings
  import opened Models

  /** How an f-string renders an optional text field: its text, or "None". */
  function PyStr(o: Option<string>): string {
    match o
    case None => "None"
    case Some(s) => s
  }

  const Quote: char := '"'
  const Exec: string := "EXEC [dbo]."

  /** Splitting `x + c + rest` at `c`, where `x` lacks `c`, peels off `x`. */
  lemma PeelQuoted(x: string, c: char, rest: string)
    requires c !in x
    ensures Split(x + [c] + rest, [c]) == [x] + Split(rest, [c])
  {
    KeyCharBlocksEarlyMatch(x, [c], rest, 0);
    SplitFirst(x, [c], rest);
  }

  /** Splitting a text that lacks `c` at `c` gives the text alone. */
  lemma PeelLast(x: string, c: char)
    requires c !in x
    ensures Split(x, [c]) == [x]
  {
    AbsentChar(x, [c], 0);
  }

  // ---------------------------------------------------------------------
  // CreateLinkedInAccount
  // ---------------------------------------------------------------------

  const CreateLinkedInHead: string := Exec + "[CreateLinkedInAccount]" + " @full_name="
  const UsernameParam: string := ", @username="
  const CompanyParam: string := ", @company="
  const JobTitleParam: string := ", @job_title="
  const AccountUrlParam: string := ", @account_url="

  /**
   * `create_linkedin_account_procedure`: the five fields, each in double
   * quotes, after their parameter names, and a closing ";". The template is
   * written as head, quote, then the rest of the statement.
   */
  function CreateLinkedInAccountProcedure(a: LinkedInAccountIn): string {
    CreateLinkedInHead + "\"" + (a.fullName + "\"" + (
    UsernameParam + "\"" + (a.username + "\"" + (
    CompanyParam + "\"" + (PyStr(a.company) + "\"" + (
    JobTitleParam + "\"" + (PyStr(a.jobTitle) + "\"" + (
    AccountUrlParam + "\"" + (a.accountUrl + "\"" + ";")))))))))
  }

  /** The five quoted fields of the create statement, in the order the statement lists them. */
  function CreateLinkedInFields(a: LinkedInAccountIn): seq<string> {
    [a.fullName, a.username, PyStr(a.company), PyStr(a.jobTitle), a.accountUrl]
  }

  /** The pieces of the create statement between its double quotes: fixed text at even places, fields at odd ones. */
  function CreateLinkedInPieces(a: LinkedInAccountIn): (pieces: seq<string>)
    ensures |pieces| == 11
    ensures forall k :: 0 <= k < 5 ==> pieces[2 * k + 1] == CreateLinkedInFields(a)[k]
  {
    [CreateLinkedInHead, a.fullName, UsernameParam, a.username, CompanyParam, PyStr(a.company),
     JobTitleParam, PyStr(a.jobTitle), AccountUrlParam, a.accountUrl, ";"]
  }

  lemma CreateLinkedInFixedText()
    ensures Quote !in CreateLinkedInHead && Quote !in UsernameParam && Quote !in CompanyParam
    ensures Quote !in JobTitleParam && Quote !in AccountUrlParam && Quote !in ";"
  {
  }

  /** Joining from place `k` of `p` on: the piece at `k`, then `c`, then the join from `k + 1`. */
  lemma JoinFrom(p: seq<string>, c: char, k: nat)
    requires k + 1 < |p|
    ensures Join(p[k..], [c]) == p[k] + [c] + Join(p[k + 1..], [c])
  {
    assert p[k..][1..] == p[k + 1..];
  }

  /** Eleven pieces written out with `c` between each two are the join of the pieces with `c`. */
  lemma JoinEleven(p: seq<string>, c: char)
    requires |p| == 11
    ensures p[0] + [c] + (p[1] + [c] + (p[2] + [c] + (p[3] + [c] + (p[4] + [c] + (p[5] + [c] + (
              p[6] + [c] + (p[7] + [c] + (p[8] + [c] + (p[9] + [c] + p[10]))))))))) == Join(p, [c])
  {
    assert Join(p[10..], [c]) == p[10];
    JoinFrom(p, c, 9);
    JoinFrom(p, c, 8);
    JoinFrom(p, c, 7);
    JoinFrom(p, c, 6);
    JoinFrom(p, c, 5);
    JoinFrom(p, c, 4);
    JoinFrom(p, c, 3);
    JoinFrom(p, c, 2);
    JoinFrom(p, c, 1);
    JoinFrom(p, c, 0);
    assert p[0..] == p;
  }

  /** With quote-free fields, splitting the create statement at its double quotes gives back its pieces. */
  lemma CreateLinkedInSplits(a: LinkedInAccountIn)
    requires forall k :: 0 <= k < 5 ==> Quote !in CreateLinkedInFields(a)[k]
    ensures Split(CreateLinkedInAccountProcedure(a), [Quote]) == CreateLinkedInPieces(a)
  {
    var f := CreateLinkedInFields(a);
    var p := CreateLinkedInPieces(a);
    assert Quote !in f[0] && Quote !in f[1] && Quote !in f[2] && Quote !in f[3] && Quote !in f[4];
    CreateLinkedInFixedText();
    forall k | 0 <= k < 11
      ensures Quote !in p[k]
    {
      if k % 2 == 1 {
        assert p[k] == f[k / 2];
      }
    }
    JoinEleven(p, Quote);
    SplitJoinedByChar(p, Quote);
  }

  /**
   * Reading the create statement back: splitting it at its double quotes
   * gives the eleven pieces, so the five fields stand at places 1, 3, 5, 7
   * and 9 in the order full name, username, company, job title, URL,
   * exactly when no field contains a double quote. A field with a quote in
   * it breaks out of its quotes.
   */
  lemma CreateLinkedInReadBack(a: LinkedInAccountIn)
    ensures Split(CreateLinkedInAccountProcedure(a), [Quote]) == CreateLinkedInPieces(a)
            <==> forall k :: 0 <= k < 5 ==> Quote !in CreateLinkedInFields(a)[k]
  {
    var p := CreateLinkedInPieces(a);
    var f := CreateLinkedInFields(a);
    if forall k :: 0 <= k < 5 ==> Quote !in f[k] {
      CreateLinkedInSplits(a);
    }
    if Split(CreateLinkedInAccountProcedure(a), [Quote]) == p {
      SplitPiecesFree(CreateLinkedInAccountProcedure(a), [Quote]);
      forall k | 0 <= k < 5
        ensures Quote !in f[k]
      {
        assert f[k] == p[2 * k + 1];
        FindChar(p[2 * k + 1], Quote);
      }
    }
  }

  // ---------------------------------------------------------------------
  // UpdateLinkedInLastSeenAt
  // ---------------------------------------------------------------------

  const LinkedInLastSeenHead: string := Exec + "[UpdateLinkedInLastSeenAt]" + " @username="

  /** `update_linkedin_account_last_seen_at_procedure`: the username, reduced to its alphanumeric characters, in double quotes. */
  function UpdateLinkedInLastSeenProcedure(username: string): string {
    LinkedInLastSeenHead + "\"" + KeepAlnum(username) + "\""
  }

  /** Alphanumeric text holds no character outside the alphanumerics, so no quote. */
  lemma AlnumLacks(s: string, c: char)
    requires AllAlnum(s) && !IsAlnum(c)
    ensures c !in s
  {
    forall i | 0 <= i < |s|
      ensures s[i] != c
    {
      assert IsAlnum(s[i]);
    }
  }

  /** A head and a value, neither holding `c`, with the value wrapped in `c`, split into head, value and an empty tail. */
  lemma SplitWrapped(head: string, value: string, c: char)
    requires c !in head && c !in value
    ensures Split(head + [c] + value + [c], [c]) == [head, value, ""]
  {
    var p := [head, value, ""];
    assert Join(p[2..], [c]) == "";
    JoinFrom(p, c, 1);
    JoinFrom(p, c, 0);
    assert p[0..] == p;
    assert head + [c] + value + [c] == head + [c] + (value + [c] + "");
    SplitJoinedByChar(p, c);
  }

  /**
   * The last-seen statement is the fixed head, then a quoted name that is
   * exactly the alphanumeric characters of the username in their order:
   * splitting at double quotes gives the head, that name and an empty tail,
   * whatever the username holds.
   */
  lemma LinkedInLastSeenReadBack(username: string)
    ensures Split(UpdateLinkedInLastSeenProcedure(username), [Quote])
            == [LinkedInLastSeenHead, KeepAlnum(username), ""]
    ensures AllAlnum(KeepAlnum(username))
    ensures forall c :: IsAlnum(c) ==> multiset(KeepAlnum(username))[c] == multiset(username)[c]
  {
    var name := KeepAlnum(username);
    KeepAlnumContents(username);
    AlnumLacks(name, Quote);
    LinkedInLastSeenHeadUnquoted();
    SplitWrapped(LinkedInLastSeenHead, name, Quote);
  }

  lemma LinkedInLastSeenHeadUnquoted()
    ensures Quote !in LinkedInLastSeenHead
  {
  }

  /** A username and its stripped form give the same statement. */
  lemma LinkedInLastSeenIdempotent(username: string)
    ensures UpdateLinkedInLastSeenProcedure(KeepAlnum(username)) == UpdateLinkedInLastSeenProcedure(username)
  {
    KeepAlnumIdempotent(username);
  }

  // ---------------------------------------------------------------------
  // UpdateTwitterLastSeenAt
  // ---------------------------------------------------------------------

  const TwitterLastSeenHead: string := Exec + "[UpdateTwitterLastSeenAt]" + " @twitter_account_id="
  const Apostrophe: char := '\''

  lemma TwitterLastSeenHeadUnquoted()
    ensures Apostrophe !in TwitterLastSeenHead
  {
  }

  /** `update_twitter_account_last_seen_at_procedure`: the id, written in decimal, in single quotes. */
  function UpdateTwitterLastSeenProcedure(twitterAccountId: int): string {
    TwitterLastSeenHead + "'" + IntToDecimal(twitterAccountId) + "'"
  }

  /**
   * The Twitter last-seen statement is the fixed head and the id in single
   * quotes: splitting at single quotes gives the head, the decimal text and
   * an empty tail, and the decimal text reads back as the id (after its
   * minus sign when the id is negative).
   */
  lemma TwitterLastSeenReadBack(id: int)
    ensures Split(UpdateTwitterLastSeenProcedure(id), [Apostrophe])
            == [TwitterLastSeenHead, IntToDecimal(id), ""]
    ensures id >= 0 ==> var d := IntToDecimal(id);
      d != [] && (forall i :: 0 <= i < |d| ==> IsDigit(d[i])) && DecimalValue(d) == id
    ensures id < 0 ==> var d := IntToDecimal(id);
      |d| >= 2 && d[0] == '-' && (forall i :: 1 <= i < |d| ==> IsDigit(d[i])) && DecimalValue(d[1..]) == -id
  {
    var n: nat := if id < 0 then -id else id;
    NatToDecimalRoundTrip(n);
    var digits := NatToDecimal(n);
    var d := IntToDecimal(id);
    forall i | 0 <= i < |digits|
      ensures digits[i] != Apostrophe
    {
      assert IsDigit(digits[i]);
    }
    assert Apostrophe !in d by {
      if id < 0 {
        assert d == "-" + digits;
      }
    }
    if id < 0 {
      assert d[1..] == digits;
    }
    TwitterLastSeenHeadUnquoted();
    SplitWrapped(TwitterLastSeenHead, d, Apostrophe);
  }

  /** Different ids give different statements. */
  lemma TwitterLastSeenInjective(a: int, b: int)
    requires UpdateTwitterLastSeenProcedure(a) == UpdateTwitterLastSeenProcedure(b)
    ensures a == b
  {
    TwitterLastSeenReadBack(a);
    TwitterLastSeenReadBack(b);
  }
}
