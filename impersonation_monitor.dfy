/**
 * The impersonation monitor: conversion of stored accounts into
 * watch-list entries, the keyword set-up of the constructor, the
 * round-robin keyword scan with its alerts, the watch-list rebuild and the
 * classification of one account.
 */
module ImpersonationMonitor {
  import opened Wrappers
  import opened Models
  import opened Repository

  // ---------------------------------------------------------------------
  // source_account_to_impersonation_account
  // ---------------------------------------------------------------------

  /** What the conversion may be handed: a stored LinkedIn account, a stored Twitter account, or a value of any other type. */
  datatype SourceRecord =
    | LinkedInRecord(linkedin: LinkedInAccount)
    | TwitterRecord(twitter: TwitterAccount)
    | OtherRecord

  /**
   * The watch-list entry for a stored account: tagged with its platform's
   * account type, its `account_id` as `source_account_id`, and its name,
   * username, report count and URL copied; None for any other value.
   */
  function SourceAccountToImpersonationAccount(source: SourceRecord): (e: Option<ImpersonationAccountIn>)
    ensures e.None? <==> source.OtherRecord?
    ensures source.LinkedInRecord? ==> var a := source.linkedin;
      && e.Some? && PlatformOf(e.value.sourceAccountType) == Some(LinkedIn)
      && e.value.sourceAccountId == a.accountId && e.value.numReports == a.numReports
      && e.value.fullName == a.info.fullName && e.value.username == a.info.username
      && e.value.accountUrl == a.info.accountUrl
    ensures source.TwitterRecord? ==> var a := source.twitter;
      && e.Some? && PlatformOf(e.value.sourceAccountType) == Some(Twitter)
      && e.value.sourceAccountId == a.accountId && e.value.numReports == a.numReports
      && e.value.fullName == a.info.fullName && e.value.username == a.info.username
      && e.value.accountUrl == a.info.accountUrl
  {
    match source
    case LinkedInRecord(a) =>
      Some(ImpersonationAccountIn(a.accountId, AccountType(LinkedIn), a.info.fullName, a.info.username, a.numReports, a.info.accountUrl))
    case TwitterRecord(a) =>
      Some(ImpersonationAccountIn(a.accountId, AccountType(Twitter), a.info.fullName, a.info.username, a.numReports, a.info.accountUrl))
    case OtherRecord => None
  }

  function ConvertLinkedIn(a: LinkedInAccount): Option<ImpersonationAccountIn> {
    SourceAccountToImpersonationAccount(LinkedInRecord(a))
  }

  function ConvertTwitter(a: TwitterAccount): Option<ImpersonationAccountIn> {
    SourceAccountToImpersonationAccount(TwitterRecord(a))
  }

  /**
   * An entry leads back to its source: in a table keyed by `account_id`,
   * the entry made from a row names that row's platform, and looking up its
   * `source_account_id` in that platform's table finds the row.
   */
  lemma EntryLocatesSource(linkedin: seq<LinkedInAccount>, twitter: seq<TwitterAccount>, i: nat)
    requires IdsDistinct(linkedin) && IdsDistinct(twitter)
    ensures i < |linkedin| ==> var e := ConvertLinkedIn(linkedin[i]).value;
      PlatformOf(e.sourceAccountType) == Some(LinkedIn) && RowById(linkedin, e.sourceAccountId) == Some(linkedin[i])
    ensures i < |twitter| ==> var e := ConvertTwitter(twitter[i]).value;
      PlatformOf(e.sourceAccountType) == Some(Twitter) && RowById(twitter, e.sourceAccountId) == Some(twitter[i])
  {
    if i < |linkedin| {
      RowByIdFindsRow(linkedin, i);
    }
    if i < |twitter| {
      RowByIdFindsRow(twitter, i);
    }
  }

  // ---------------------------------------------------------------------
  // update: the watch-list rebuild
  // ---------------------------------------------------------------------

  /** The entries made from the rows, in row order, leaving out the rows the conversion rejects. */
  function Entries<R>(rows: seq<R>, convert: R -> Option<ImpersonationAccountIn>): (es: seq<ImpersonationAccountIn>)
    ensures |es| <= |rows|
  {
    if rows == [] then []
    else
      Entries(rows[..|rows| - 1], convert)
        + (match convert(rows[|rows| - 1]) case None => [] case Some(e) => [e])
  }

  /** When every row converts, there is one entry per row, in row order. */
  lemma {:induction false} EntriesAllConvert<R>(rows: seq<R>, convert: R -> Option<ImpersonationAccountIn>)
    requires forall i :: 0 <= i < |rows| ==> convert(rows[i]).Some?
    ensures |Entries(rows, convert)| == |rows|
    ensures forall i :: 0 <= i < |rows| ==> Entries(rows, convert)[i] == convert(rows[i]).value
  {
    if rows != [] {
      var init := rows[..|rows| - 1];
      assert forall i :: 0 <= i < |init| ==> init[i] == rows[i];
      EntriesAllConvert(init, convert);
    }
  }

  /** The entries whose insert commits, in order: what the table holds after the inserts. */
  function Accepted(es: seq<ImpersonationAccountIn>, commits: ImpersonationAccountIn -> bool): (kept: seq<ImpersonationAccountIn>)
    ensures |kept| <= |es|
  {
    if es == [] then []
    else Accepted(es[..|es| - 1], commits) + (if commits(es[|es| - 1]) then [es[|es| - 1]] else [])
  }

  /** An entry is in the table after the inserts exactly when it was inserted and its insert committed. */
  lemma {:induction false} AcceptedMembers(es: seq<ImpersonationAccountIn>, commits: ImpersonationAccountIn -> bool, e: ImpersonationAccountIn)
    ensures e in Accepted(es, commits) <==> e in es && commits(e)
  {
    if es != [] {
      var init := es[..|es| - 1];
      AcceptedMembers(init, commits, e);
      assert es == init + [es[|es| - 1]];
    }
  }

  /** The insert requests, one per entry, in order. */
  function Inserts(es: seq<ImpersonationAccountIn>): (reqs: seq<Request>)
    ensures |reqs| == |es|
    ensures forall i :: 0 <= i < |es| ==> reqs[i] == InsertWatched(es[i])
  {
    if es == [] then [] else Inserts(es[..|es| - 1]) + [InsertWatched(es[|es| - 1])]
  }

  lemma EntriesStep<R>(rows: seq<R>, i: nat, convert: R -> Option<ImpersonationAccountIn>)
    requires i < |rows|
    ensures Entries(rows[..i + 1], convert)
      == Entries(rows[..i], convert) + (match convert(rows[i]) case None => [] case Some(e) => [e])
  {
    assert rows[..i + 1][..i] == rows[..i];
  }

  lemma AcceptedSnoc(es: seq<ImpersonationAccountIn>, e: ImpersonationAccountIn, commits: ImpersonationAccountIn -> bool)
    ensures Accepted(es + [e], commits) == Accepted(es, commits) + (if commits(e) then [e] else [])
  {
    assert (es + [e])[..|es|] == es;
  }

  lemma InsertsSnoc(es: seq<ImpersonationAccountIn>, e: ImpersonationAccountIn)
    ensures Inserts(es + [e]) == Inserts(es) + [InsertWatched(e)]
  {
    assert (es + [e])[..|es|] == es;
  }

  /** The entries `update` builds from the watched LinkedIn rows of a table. */
  function LinkedInEntries(linkedin: seq<LinkedInAccount>): seq<ImpersonationAccountIn> {
    Entries(Watched(linkedin), ConvertLinkedIn)
  }

  /** The entries `update` builds from the watched Twitter rows of a table. */
  function TwitterEntries(twitter: seq<TwitterAccount>): seq<ImpersonationAccountIn> {
    Entries(Watched(twitter), ConvertTwitter)
  }

  /**
   * Entries made from the watched rows of a table, by a conversion that
   * takes every row, describe exactly the watched rows: one entry per
   * watched row, and an entry is there exactly when it is made from one.
   */
  lemma WatchedEntries<I>(t: seq<StoredAccount<I>>, convert: StoredAccount<I> -> Option<ImpersonationAccountIn>, e: ImpersonationAccountIn)
    requires forall a :: convert(a).Some?
    ensures |Entries(Watched(t), convert)| == |Watched(t)|
    ensures e in Entries(Watched(t), convert) <==>
      exists a :: a in t && IsWatchedStatus(a.accountStatus) && convert(a) == Some(e)
  {
    var w := Watched(t);
    var es := Entries(w, convert);
    EntriesAllConvert(w, convert);
    if e in es {
      var i :| 0 <= i < |w| && es[i] == e;
      WatchedMembers(t, w[i]);
    }
    if a :| a in t && IsWatchedStatus(a.accountStatus) && convert(a) == Some(e) {
      WatchedMembers(t, a);
      var i :| 0 <= i < |w| && w[i] == a;
      assert es[i] == e;
    }
  }

  /**
   * The rebuilt watch list describes exactly the watched accounts: one
   * entry per LinkedIn or Twitter row whose status is Unclassified or
   * Imposter, and an entry is there exactly when it is made from such a
   * row. The counts `update` reports are the numbers of such rows.
   */
  lemma RebuiltEntries(linkedin: seq<LinkedInAccount>, twitter: seq<TwitterAccount>, e: ImpersonationAccountIn)
    ensures |LinkedInEntries(linkedin)| == |Watched(linkedin)|
    ensures |TwitterEntries(twitter)| == |Watched(twitter)|
    ensures e in LinkedInEntries(linkedin) <==>
      exists a :: a in linkedin && IsWatchedStatus(a.accountStatus) && ConvertLinkedIn(a) == Some(e)
    ensures e in TwitterEntries(twitter) <==>
      exists a :: a in twitter && IsWatchedStatus(a.accountStatus) && ConvertTwitter(a) == Some(e)
  {
    WatchedEntries(linkedin, ConvertLinkedIn, e);
    WatchedEntries(twitter, ConvertTwitter, e);
  }

  // ---------------------------------------------------------------------
  // scan: traversal order
  // ---------------------------------------------------------------------

  /** One keyword search of the scan, on the platform it is searched on. */
  datatype Visit = TwitterVisit(keyword: Keyword) | LinkedInVisit(keyword: Keyword)

  /** What `next(iterator, None)` takes from a keyword list: its first keyword, if any. */
  function Step(ks: seq<Keyword>, onTwitter: bool): (v: seq<Visit>)
    ensures |v| == if ks == [] then 0 else 1
  {
    if ks == [] then [] else if onTwitter then [TwitterVisit(ks[0])] else [LinkedInVisit(ks[0])]
  }

  /** The keyword list after `next`. */
  function Rest(ks: seq<Keyword>): (r: seq<Keyword>)
    ensures |r| == if ks == [] then 0 else |ks| - 1
  {
    if ks == [] then [] else ks[1..]
  }

  /** The searches of a full scan: per round the next Twitter keyword, then the next LinkedIn keyword, until both lists are drained. */
  function Rounds(ts: seq<Keyword>, ls: seq<Keyword>): (vs: seq<Visit>)
    ensures |vs| == |ts| + |ls|
    decreases |ts| + |ls|
  {
    if ts == [] && ls == [] then []
    else if ls == [] then [TwitterVisit(ts[0])] + Rounds(ts[1..], [])
    else if ts == [] then [LinkedInVisit(ls[0])] + Rounds([], ls[1..])
    else [TwitterVisit(ts[0]), LinkedInVisit(ls[0])] + Rounds(ts[1..], ls[1..])
  }

  /** One round of the scan: what `next` yields from each list, then the rounds of what is left. */
  lemma RoundsUnfold(ts: seq<Keyword>, ls: seq<Keyword>)
    ensures Rounds(ts, ls) == Step(ts, true) + Step(ls, false) + Rounds(Rest(ts), Rest(ls))
  {
  }

  /** The keywords searched on Twitter, in search order. */
  function TwitterKeywords(vs: seq<Visit>): seq<Keyword> {
    if vs == [] then []
    else (if vs[0].TwitterVisit? then [vs[0].keyword] else []) + TwitterKeywords(vs[1..])
  }

  /** The keywords searched on LinkedIn, in search order. */
  function LinkedInKeywords(vs: seq<Visit>): seq<Keyword> {
    if vs == [] then []
    else (if vs[0].LinkedInVisit? then [vs[0].keyword] else []) + LinkedInKeywords(vs[1..])
  }

  /** Projecting a search list with one more search in front. */
  lemma KeywordsCons(v: Visit, rest: seq<Visit>)
    ensures TwitterKeywords([v] + rest) == (if v.TwitterVisit? then [v.keyword] else []) + TwitterKeywords(rest)
    ensures LinkedInKeywords([v] + rest) == (if v.LinkedInVisit? then [v.keyword] else []) + LinkedInKeywords(rest)
  {
    assert ([v] + rest)[1..] == rest;
  }

  /** Projecting a search list with one full round in front. */
  lemma KeywordsRound(t: Keyword, l: Keyword, tail: seq<Visit>)
    ensures TwitterKeywords([TwitterVisit(t), LinkedInVisit(l)] + tail) == [t] + TwitterKeywords(tail)
    ensures LinkedInKeywords([TwitterVisit(t), LinkedInVisit(l)] + tail) == [l] + LinkedInKeywords(tail)
  {
    KeywordsCons(LinkedInVisit(l), tail);
    KeywordsCons(TwitterVisit(t), [LinkedInVisit(l)] + tail);
    assert [TwitterVisit(t), LinkedInVisit(l)] + tail == [TwitterVisit(t)] + ([LinkedInVisit(l)] + tail);
  }

  /** A scan searches every Twitter keyword once, in list order. */
  lemma {:induction false} RoundsVisitTwitterOnce(ts: seq<Keyword>, ls: seq<Keyword>)
    ensures TwitterKeywords(Rounds(ts, ls)) == ts
    decreases |ts| + |ls|
  {
    if ts == [] && ls == [] {
    } else if ls == [] {
      RoundsVisitTwitterOnce(ts[1..], []);
      KeywordsCons(TwitterVisit(ts[0]), Rounds(ts[1..], []));
      assert ts == [ts[0]] + ts[1..];
    } else if ts == [] {
      RoundsVisitTwitterOnce([], ls[1..]);
      KeywordsCons(LinkedInVisit(ls[0]), Rounds([], ls[1..]));
    } else {
      RoundsVisitTwitterOnce(ts[1..], ls[1..]);
      KeywordsRound(ts[0], ls[0], Rounds(ts[1..], ls[1..]));
      assert ts == [ts[0]] + ts[1..];
    }
  }

  /** A scan searches every LinkedIn keyword once, in list order. */
  lemma {:induction false} RoundsVisitLinkedInOnce(ts: seq<Keyword>, ls: seq<Keyword>)
    ensures LinkedInKeywords(Rounds(ts, ls)) == ls
    decreases |ts| + |ls|
  {
    if ts == [] && ls == [] {
    } else if ls == [] {
      RoundsVisitLinkedInOnce(ts[1..], []);
      KeywordsCons(TwitterVisit(ts[0]), Rounds(ts[1..], []));
    } else if ts == [] {
      RoundsVisitLinkedInOnce([], ls[1..]);
      KeywordsCons(LinkedInVisit(ls[0]), Rounds([], ls[1..]));
      assert ls == [ls[0]] + ls[1..];
    } else {
      RoundsVisitLinkedInOnce(ts[1..], ls[1..]);
      KeywordsRound(ts[0], ls[0], Rounds(ts[1..], ls[1..]));
      assert ls == [ls[0]] + ls[1..];
    }
  }

  /** Once one list is drained, the scan searches the rest of the other in order. */
  lemma {:induction false} RoundsOneSided(ks: seq<Keyword>)
    ensures forall j :: 0 <= j < |ks| ==> Rounds(ks, [])[j] == TwitterVisit(ks[j])
    ensures forall j :: 0 <= j < |ks| ==> Rounds([], ks)[j] == LinkedInVisit(ks[j])
  {
    if ks != [] {
      RoundsOneSided(ks[1..]);
      assert Rounds(ks, []) == [TwitterVisit(ks[0])] + Rounds(ks[1..], []);
      assert Rounds([], ks) == [LinkedInVisit(ks[0])] + Rounds([], ks[1..]);
    }
  }

  /** The shorter length of two keyword lists: the rounds in which both yield a keyword. */
  function Shorter(ts: seq<Keyword>, ls: seq<Keyword>): (m: nat)
    ensures m <= |ts| && m <= |ls| && (m == |ts| || m == |ls|)
  {
    if |ts| < |ls| then |ts| else |ls|
  }

  /** While both lists last the scan alternates: T0, L0, T1, L1, ... */
  lemma {:induction false} RoundsInterleave(ts: seq<Keyword>, ls: seq<Keyword>)
    ensures forall i :: 0 <= i < Shorter(ts, ls) ==>
      Rounds(ts, ls)[2 * i] == TwitterVisit(ts[i]) && Rounds(ts, ls)[2 * i + 1] == LinkedInVisit(ls[i])
    decreases |ts| + |ls|
  {
    if ts != [] && ls != [] {
      var r := Rounds(ts, ls);
      var tail := Rounds(ts[1..], ls[1..]);
      RoundsInterleave(ts[1..], ls[1..]);
      assert r == [TwitterVisit(ts[0]), LinkedInVisit(ls[0])] + tail;
      forall i | 0 <= i < Shorter(ts, ls)
        ensures r[2 * i] == TwitterVisit(ts[i]) && r[2 * i + 1] == LinkedInVisit(ls[i])
      {
        if i > 0 {
          assert r[2 * i] == tail[2 * (i - 1)];
          assert r[2 * i + 1] == tail[2 * (i - 1) + 1];
        }
      }
    }
  }

  /**
   * After the shorter list runs out, the scan searches the rest of the
   * longer one in order: keyword j of it at place m + j, m being the
   * length of the shorter list.
   */
  lemma {:induction false} RoundsLeftover(ts: seq<Keyword>, ls: seq<Keyword>)
    ensures forall j :: Shorter(ts, ls) <= j < |ts| ==> Rounds(ts, ls)[Shorter(ts, ls) + j] == TwitterVisit(ts[j])
    ensures forall j :: Shorter(ts, ls) <= j < |ls| ==> Rounds(ts, ls)[Shorter(ts, ls) + j] == LinkedInVisit(ls[j])
    decreases |ts| + |ls|
  {
    if ts == [] {
      RoundsOneSided(ls);
    } else if ls == [] {
      RoundsOneSided(ts);
    } else {
      var r := Rounds(ts, ls);
      var tail := Rounds(ts[1..], ls[1..]);
      var m := Shorter(ts, ls);
      RoundsLeftover(ts[1..], ls[1..]);
      assert Shorter(ts[1..], ls[1..]) == m - 1;
      assert r == [TwitterVisit(ts[0]), LinkedInVisit(ls[0])] + tail;
      forall j | m <= j < |ts|
        ensures r[m + j] == TwitterVisit(ts[j])
      {
        assert r[m + j] == tail[(m - 1) + (j - 1)];
      }
      forall j | m <= j < |ls|
        ensures r[m + j] == LinkedInVisit(ls[j])
      {
        assert r[m + j] == tail[(m - 1) + (j - 1)];
      }
    }
  }

  // ---------------------------------------------------------------------
  // scan: alerts and counts
  // ---------------------------------------------------------------------

  /** A candidate account found by a search, as posted in an alert. */
  datatype Candidate = TwitterCandidate(twitter: TwitterAccountIn) | LinkedInCandidate(linkedin: LinkedInAccountIn)

  /** The log types `post_alert` is called with. */
  const TwitterLog: string := "TwitterAccounts"
  const LinkedInLog: string := "LinkedInAccounts"

  /** One `post_alert` call: the candidate and its log type. */
  datatype Alert = Alert(candidate: Candidate, logType: string)

  /** The search agents: the candidates each returns for a keyword string. */
  type TwitterSearch = string -> seq<TwitterAccountIn>
  type LinkedInSearch = string -> seq<LinkedInAccountIn>

  /** The alerts for the candidates of one Twitter search: each stamped with the keyword id, in order. */
  function TwitterAlerts(accounts: seq<TwitterAccountIn>, keywordId: int): (alerts: seq<Alert>)
    ensures |alerts| == |accounts|
  {
    if accounts == [] then []
    else
      var last := accounts[|accounts| - 1];
      TwitterAlerts(accounts[..|accounts| - 1], keywordId) + [Alert(TwitterCandidate(last.(keywordId := keywordId)), TwitterLog)]
  }

  /** Alert `i` of a search is its candidate `i`, stamped with the keyword id. */
  lemma {:induction false} TwitterAlertsAt(accounts: seq<TwitterAccountIn>, keywordId: int)
    ensures forall i :: 0 <= i < |accounts| ==>
      TwitterAlerts(accounts, keywordId)[i] == Alert(TwitterCandidate(accounts[i].(keywordId := keywordId)), TwitterLog)
  {
    if accounts != [] {
      var init := accounts[..|accounts| - 1];
      TwitterAlertsAt(init, keywordId);
      assert forall i :: 0 <= i < |init| ==> init[i] == accounts[i];
    }
  }

  /** The alerts for the candidates of one LinkedIn search: each stamped with the keyword id, in order. */
  function LinkedInAlerts(accounts: seq<LinkedInAccountIn>, keywordId: int): (alerts: seq<Alert>)
    ensures |alerts| == |accounts|
  {
    if accounts == [] then []
    else
      var last := accounts[|accounts| - 1];
      LinkedInAlerts(accounts[..|accounts| - 1], keywordId) + [Alert(LinkedInCandidate(last.(keywordId := keywordId)), LinkedInLog)]
  }

  /** Alert `i` of a search is its candidate `i`, stamped with the keyword id. */
  lemma {:induction false} LinkedInAlertsAt(accounts: seq<LinkedInAccountIn>, keywordId: int)
    ensures forall i :: 0 <= i < |accounts| ==>
      LinkedInAlerts(accounts, keywordId)[i] == Alert(LinkedInCandidate(accounts[i].(keywordId := keywordId)), LinkedInLog)
  {
    if accounts != [] {
      var init := accounts[..|accounts| - 1];
      LinkedInAlertsAt(init, keywordId);
      assert forall i :: 0 <= i < |init| ==> init[i] == accounts[i];
    }
  }

  /** The alerts one search posts. */
  function VisitAlerts(v: Visit, twitterAgent: TwitterSearch, linkedinAgent: LinkedInSearch): seq<Alert> {
    match v
    case TwitterVisit(k) => TwitterAlerts(twitterAgent(k.keywordString), k.keywordId)
    case LinkedInVisit(k) => LinkedInAlerts(linkedinAgent(k.keywordString), k.keywordId)
  }

  /** The alerts a sequence of searches posts, in order. */
  function ScanAlerts(vs: seq<Visit>, twitterAgent: TwitterSearch, linkedinAgent: LinkedInSearch): seq<Alert> {
    if vs == [] then []
    else ScanAlerts(vs[..|vs| - 1], twitterAgent, linkedinAgent) + VisitAlerts(vs[|vs| - 1], twitterAgent, linkedinAgent)
  }

  /** How many Twitter candidates a sequence of searches finds. */
  function TwitterFound(vs: seq<Visit>, twitterAgent: TwitterSearch): nat {
    if vs == [] then 0
    else
      TwitterFound(vs[..|vs| - 1], twitterAgent)
        + (match vs[|vs| - 1] case TwitterVisit(k) => |twitterAgent(k.keywordString)| case LinkedInVisit(_) => 0)
  }

  /** How many LinkedIn candidates a sequence of searches finds. */
  function LinkedInFound(vs: seq<Visit>, linkedinAgent: LinkedInSearch): nat {
    if vs == [] then 0
    else
      LinkedInFound(vs[..|vs| - 1], linkedinAgent)
        + (match vs[|vs| - 1] case LinkedInVisit(k) => |linkedinAgent(k.keywordString)| case TwitterVisit(_) => 0)
  }

  /** How many alerts carry a log type. */
  function CountLog(alerts: seq<Alert>, logType: string): nat {
    if alerts == [] then 0
    else CountLog(alerts[..|alerts| - 1], logType) + (if alerts[|alerts| - 1].logType == logType then 1 else 0)
  }

  lemma {:induction false} CountLogAppend(a: seq<Alert>, b: seq<Alert>, logType: string)
    ensures CountLog(a + b, logType) == CountLog(a, logType) + CountLog(b, logType)
    decreases |b|
  {
    if b == [] {
      assert a + b == a;
    } else {
      var init := b[..|b| - 1];
      assert (a + b)[..|a + b| - 1] == a + init;
      CountLogAppend(a, init, logType);
    }
  }

  /** Alerts that all carry one log type count fully for it. */
  lemma {:induction false} CountLogUniform(alerts: seq<Alert>, logType: string, other: string)
    requires forall i :: 0 <= i < |alerts| ==> alerts[i].logType == logType
    requires other != logType
    ensures CountLog(alerts, logType) == |alerts| && CountLog(alerts, other) == 0
  {
    if alerts != [] {
      var init := alerts[..|alerts| - 1];
      assert forall i :: 0 <= i < |init| ==> init[i] == alerts[i];
      CountLogUniform(init, logType, other);
    }
  }

  /**
   * Every candidate found adds exactly one alert, under its platform's log
   * type: the alerts of each log type number the candidates found on that
   * platform.
   */
  lemma {:induction false} AlertsCounted(vs: seq<Visit>, twitterAgent: TwitterSearch, linkedinAgent: LinkedInSearch)
    ensures CountLog(ScanAlerts(vs, twitterAgent, linkedinAgent), TwitterLog) == TwitterFound(vs, twitterAgent)
    ensures CountLog(ScanAlerts(vs, twitterAgent, linkedinAgent), LinkedInLog) == LinkedInFound(vs, linkedinAgent)
  {
    if vs != [] {
      var init := vs[..|vs| - 1];
      var last := VisitAlerts(vs[|vs| - 1], twitterAgent, linkedinAgent);
      AlertsCounted(init, twitterAgent, linkedinAgent);
      CountLogAppend(ScanAlerts(init, twitterAgent, linkedinAgent), last, TwitterLog);
      CountLogAppend(ScanAlerts(init, twitterAgent, linkedinAgent), last, LinkedInLog);
      match vs[|vs| - 1]
      case TwitterVisit(k) =>
        TwitterAlertsAt(twitterAgent(k.keywordString), k.keywordId);
        CountLogUniform(last, TwitterLog, LinkedInLog);
      case LinkedInVisit(k) =>
        LinkedInAlertsAt(linkedinAgent(k.keywordString), k.keywordId);
        CountLogUniform(last, LinkedInLog, TwitterLog);
    }
  }

  /**
   * An alert comes from a search: it is one of the candidates that search
   * returned, stamped with the searched keyword's id, under that search's
   * platform's log type.
   */
  predicate FromSearch(alert: Alert, v: Visit, twitterAgent: TwitterSearch, linkedinAgent: LinkedInSearch) {
    match v
    case TwitterVisit(k) =>
      var found := twitterAgent(k.keywordString);
      alert.logType == TwitterLog
      && exists m :: 0 <= m < |found| && alert.candidate == TwitterCandidate(found[m].(keywordId := k.keywordId))
    case LinkedInVisit(k) =>
      var found := linkedinAgent(k.keywordString);
      alert.logType == LinkedInLog
      && exists m :: 0 <= m < |found| && alert.candidate == LinkedInCandidate(found[m].(keywordId := k.keywordId))
  }

  /** Every alert a sequence of searches posts comes from one of those searches. */
  lemma {:induction false} AlertsStamped(vs: seq<Visit>, twitterAgent: TwitterSearch, linkedinAgent: LinkedInSearch)
    ensures forall j :: 0 <= j < |ScanAlerts(vs, twitterAgent, linkedinAgent)| ==>
      exists i :: 0 <= i < |vs| && FromSearch(ScanAlerts(vs, twitterAgent, linkedinAgent)[j], vs[i], twitterAgent, linkedinAgent)
  {
    if vs != [] {
      var init := vs[..|vs| - 1];
      var v := vs[|vs| - 1];
      var before := ScanAlerts(init, twitterAgent, linkedinAgent);
      var last := VisitAlerts(v, twitterAgent, linkedinAgent);
      var alerts := ScanAlerts(vs, twitterAgent, linkedinAgent);
      AlertsStamped(init, twitterAgent, linkedinAgent);
      forall j | 0 <= j < |alerts|
        ensures exists i :: 0 <= i < |vs| && FromSearch(alerts[j], vs[i], twitterAgent, linkedinAgent)
      {
        if j < |before| {
          var i :| 0 <= i < |init| && FromSearch(before[j], init[i], twitterAgent, linkedinAgent);
          assert alerts[j] == before[j] && vs[i] == init[i];
        } else {
          var m := j - |before|;
          match v
          case TwitterVisit(k) => TwitterAlertsAt(twitterAgent(k.keywordString), k.keywordId);
          case LinkedInVisit(k) => LinkedInAlertsAt(linkedinAgent(k.keywordString), k.keywordId);
          assert alerts[j] == last[m];
          assert FromSearch(alerts[j], vs[|vs| - 1], twitterAgent, linkedinAgent);
        }
      }
    } else {
      assert ScanAlerts(vs, twitterAgent, linkedinAgent) == [];
    }
  }

  /** Concatenation regroups. */
  lemma Concat3<T>(x: seq<T>, y: seq<T>, z: seq<T>)
    ensures x + y + z == x + (y + z)
  {
  }

  /** The alerts of two stretches of searches, one after the other. */
  lemma {:induction false} ScanAlertsAppend(a: seq<Visit>, b: seq<Visit>, twitterAgent: TwitterSearch, linkedinAgent: LinkedInSearch)
    ensures ScanAlerts(a + b, twitterAgent, linkedinAgent) == ScanAlerts(a, twitterAgent, linkedinAgent) + ScanAlerts(b, twitterAgent, linkedinAgent)
    decreases |b|
  {
    if b == [] {
      assert a + b == a;
    } else {
      var init := b[..|b| - 1];
      var v := b[|b| - 1];
      assert (a + b)[..|a + b| - 1] == a + init;
      assert (a + b)[|a + b| - 1] == v;
      ScanAlertsAppend(a, init, twitterAgent, linkedinAgent);
      var x, y, z := ScanAlerts(a, twitterAgent, linkedinAgent), ScanAlerts(init, twitterAgent, linkedinAgent), VisitAlerts(v, twitterAgent, linkedinAgent);
      assert ScanAlerts(a + b, twitterAgent, linkedinAgent) == x + y + z;
      assert ScanAlerts(b, twitterAgent, linkedinAgent) == y + z;
      Concat3(x, y, z);
    }
  }

  /** Alerts already posted for some searches, then those of more searches: the alerts of all of them. */
  lemma ScanAlertsExtend(posted: seq<Alert>, done: seq<Visit>, more: seq<Visit>, twitterAgent: TwitterSearch, linkedinAgent: LinkedInSearch)
    ensures posted + ScanAlerts(done, twitterAgent, linkedinAgent) + ScanAlerts(more, twitterAgent, linkedinAgent)
      == posted + ScanAlerts(done + more, twitterAgent, linkedinAgent)
  {
    ScanAlertsAppend(done, more, twitterAgent, linkedinAgent);
    Concat3(posted, ScanAlerts(done, twitterAgent, linkedinAgent), ScanAlerts(more, twitterAgent, linkedinAgent));
  }

  /** The searches made so far and the rounds still to come: the same after one more round. */
  lemma RoundsExtend(done: seq<Visit>, ts: seq<Keyword>, ls: seq<Keyword>)
    ensures done + Rounds(ts, ls) == done + (Step(ts, true) + Step(ls, false)) + Rounds(Rest(ts), Rest(ls))
  {
    var round, r := Step(ts, true) + Step(ls, false), Rounds(Rest(ts), Rest(ls));
    RoundsUnfold(ts, ls);
    Concat3(done, round, r);
  }

  /** A Twitter search finds no LinkedIn candidates. */
  lemma TwitterStepFindsNoLinkedIn(ks: seq<Keyword>, linkedinAgent: LinkedInSearch)
    ensures LinkedInFound(Step(ks, true), linkedinAgent) == 0
  {
    if ks != [] {
      assert Step(ks, true)[..0] == [];
    }
  }

  /** The candidate counts of two stretches of searches add up. */
  lemma {:induction false} FoundAppend(a: seq<Visit>, b: seq<Visit>, twitterAgent: TwitterSearch, linkedinAgent: LinkedInSearch)
    ensures TwitterFound(a + b, twitterAgent) == TwitterFound(a, twitterAgent) + TwitterFound(b, twitterAgent)
    ensures LinkedInFound(a + b, linkedinAgent) == LinkedInFound(a, linkedinAgent) + LinkedInFound(b, linkedinAgent)
    decreases |b|
  {
    if b == [] {
      assert a + b == a;
    } else {
      var init := b[..|b| - 1];
      assert (a + b)[..|a + b| - 1] == a + init;
      assert (a + b)[|a + b| - 1] == b[|b| - 1];
      FoundAppend(a, init, twitterAgent, linkedinAgent);
    }
  }

  // ---------------------------------------------------------------------
  // classify
  // ---------------------------------------------------------------------

  /** The account id as passed in: an `int`, or a value of some other type. */
  datatype AccountIdArg = IntArg(value: int) | NotIntArg

  /** Why a classification is refused before any write. */
  datatype Rejection =
    | AccountIdNotInteger
    | StatusNotKnown
    | AccountTypeNotKnown
    | AccountNotFound
    | AccountWhitelisted
    | AccountDisabled

  /** The outcome of the guards: a refusal, or the status write to send. */
  datatype Decision =
    | Reject(reason: Rejection)
    | Write(platform: Platform, accountId: int, status: string, numReports: int)

  /** Whitelisted and Disabled accounts are never reclassified. */
  predicate IsProtectedStatus(status: string) {
    status == StatusLabel(Whitelisted) || status == StatusLabel(Disabled)
  }

  /** The guards after the fetch: found, not whitelisted, not disabled; then the write, one more report for "Imposter". */
  function GuardFetched<I>(platform: Platform, accountId: int, newStatus: string, account: Option<StoredAccount<I>>): (d: Decision)
    ensures d.Write? <==> account.Some? && !IsProtectedStatus(account.value.accountStatus)
    ensures d.Write? ==>
      && d.platform == platform && d.status == newStatus
      && d.numReports == account.value.numReports + (if newStatus == StatusLabel(Imposter) then 1 else 0)
  {
    match account
    case None => Reject(AccountNotFound)
    case Some(a) =>
      if a.accountStatus == StatusLabel(Whitelisted) then Reject(AccountWhitelisted)
      else if a.accountStatus == StatusLabel(Disabled) then Reject(AccountDisabled)
      else
        var numReports := if newStatus == StatusLabel(Imposter) then a.numReports + 1 else a.numReports;
        Write(platform, if platform == LinkedIn then a.accountId else accountId, newStatus, numReports)
  }

  /** The guard chain of `classify`, in order, on the tables as they are when it runs. */
  function ClassifyDecision(accountId: AccountIdArg, accountType: int, newStatus: string,
                            linkedin: seq<LinkedInAccount>, twitter: seq<TwitterAccount>): (d: Decision)
    ensures d.Write? ==>
      && accountId == IntArg(d.accountId) && PlatformOf(accountType) == Some(d.platform)
      && d.status == newStatus && newStatus in StatusLabels
  {
    if accountId.NotIntArg? then Reject(AccountIdNotInteger)
    else if newStatus !in StatusLabels then Reject(StatusNotKnown)
    else if accountType == LinkedInAccountType then GuardFetched(LinkedIn, accountId.value, newStatus, RowById(linkedin, accountId.value))
    else if accountType == TwitterAccountType then GuardFetched(Twitter, accountId.value, newStatus, RowById(twitter, accountId.value))
    else Reject(AccountTypeNotKnown)
  }

  /** The requests `classify` sends: the fetch once the first three guards pass, then the write if the rest pass. */
  function ClassifyRequests(accountId: AccountIdArg, accountType: int, newStatus: string,
                            linkedin: seq<LinkedInAccount>, twitter: seq<TwitterAccount>): seq<Request>
  {
    if accountId.NotIntArg? || newStatus !in StatusLabels || PlatformOf(accountType).None? then []
    else
      var d := ClassifyDecision(accountId, accountType, newStatus, linkedin, twitter);
      [FetchAccount(PlatformOf(accountType).value, accountId.value)]
        + (if d.Write? then [WriteStatus(d.platform, d.accountId, d.status, d.numReports)] else [])
  }

  /** Both account tables. */
  datatype Tables = Tables(linkedin: seq<LinkedInAccount>, twitter: seq<TwitterAccount>)

  /** One call to `classify`, with whether its status write, if sent, commits. */
  datatype ClassifyCall = ClassifyCall(accountId: AccountIdArg, accountType: int, newStatus: string, writeOk: bool)

  /** The tables after one call: the write applied when it is sent and commits, else as they were. */
  function AfterClassify(t: Tables, c: ClassifyCall): Tables {
    var d := ClassifyDecision(c.accountId, c.accountType, c.newStatus, t.linkedin, t.twitter);
    if d.Write? && c.writeOk then
      if d.platform == LinkedIn then t.(linkedin := SetStatus(t.linkedin, d.accountId, d.status, d.numReports))
      else t.(twitter := SetStatus(t.twitter, d.accountId, d.status, d.numReports))
    else t
  }

  /** The tables after a sequence of calls, in order. */
  function AfterClassifyAll(t: Tables, calls: seq<ClassifyCall>): Tables
    decreases |calls|
  {
    if calls == [] then t else AfterClassifyAll(AfterClassify(t, calls[0]), calls[1..])
  }

  /**
   * The first three guards, in this order, refuse the call before any
   * request is sent: a non-integer id, then a label outside the five, then
   * an account type other than 1 or 2.
   */
  lemma ClassifyGuardOrder(accountId: AccountIdArg, accountType: int, newStatus: string,
                           linkedin: seq<LinkedInAccount>, twitter: seq<TwitterAccount>)
    ensures var d := ClassifyDecision(accountId, accountType, newStatus, linkedin, twitter);
      var reqs := ClassifyRequests(accountId, accountType, newStatus, linkedin, twitter);
      && (accountId.NotIntArg? ==> d == Reject(AccountIdNotInteger) && reqs == [])
      && (accountId.IntArg? && newStatus !in StatusLabels ==> d == Reject(StatusNotKnown) && reqs == [])
      && (accountId.IntArg? && newStatus in StatusLabels && accountType != 1 && accountType != 2 ==>
            d == Reject(AccountTypeNotKnown) && reqs == [])
  {
  }

  /**
   * Past the first three guards, an absent, whitelisted or disabled
   * account is refused, whatever the new status: the fetch is the only
   * request, so nothing is written.
   */
  lemma ClassifyRefusesProtected(accountId: int, platform: Platform, newStatus: string,
                                 linkedin: seq<LinkedInAccount>, twitter: seq<TwitterAccount>)
    requires newStatus in StatusLabels
    ensures var d := ClassifyDecision(IntArg(accountId), AccountType(platform), newStatus, linkedin, twitter);
      var status := if platform == LinkedIn then StatusOf(RowById(linkedin, accountId)) else StatusOf(RowById(twitter, accountId));
      && (status == None ==> d == Reject(AccountNotFound))
      && (status == Some(StatusLabel(Whitelisted)) ==> d == Reject(AccountWhitelisted))
      && (status == Some(StatusLabel(Disabled)) ==> d == Reject(AccountDisabled))
      && (d.Reject? ==>
            ClassifyRequests(IntArg(accountId), AccountType(platform), newStatus, linkedin, twitter) == [FetchAccount(platform, accountId)])
  {
  }

  /**
   * Past the first two guards and with type 1 or 2, `classify` decides on a
   * write exactly when the account is found and is neither whitelisted nor
   * disabled; the write is to that account on its platform, with the new
   * label and its report count.
   */
  lemma ClassifyWritesUnprotected(accountId: int, newStatus: string,
                                  linkedin: seq<LinkedInAccount>, twitter: seq<TwitterAccount>)
    requires newStatus in StatusLabels
    ensures var a := RowById(linkedin, accountId);
      var d := ClassifyDecision(IntArg(accountId), LinkedInAccountType, newStatus, linkedin, twitter);
      && (d.Write? <==> a.Some? && !IsProtectedStatus(a.value.accountStatus))
      && (d.Write? ==> d == Write(LinkedIn, accountId, newStatus, ReportsAfter(a.value.numReports, newStatus)))
    ensures var a := RowById(twitter, accountId);
      var d := ClassifyDecision(IntArg(accountId), TwitterAccountType, newStatus, linkedin, twitter);
      && (d.Write? <==> a.Some? && !IsProtectedStatus(a.value.accountStatus))
      && (d.Write? ==> d == Write(Twitter, accountId, newStatus, ReportsAfter(a.value.numReports, newStatus)))
  {
  }

  /** The stored status of a fetched account, if one was found. */
  function StatusOf<I>(account: Option<StoredAccount<I>>): Option<string> {
    match account
    case None => None
    case Some(a) => Some(a.accountStatus)
  }

  /** The report count a write stores: one more than before for "Imposter", the same otherwise. */
  function ReportsAfter(numReports: int, newStatus: string): int {
    if newStatus == StatusLabel(Imposter) then numReports + 1 else numReports
  }

  /**
   * The write the post-fetch guards decide on, applied to the fetched
   * table: the account gets the new label and its report count, every
   * other account is kept, and so is the primary key.
   */
  lemma GuardedWriteEffect<I>(t: seq<StoredAccount<I>>, platform: Platform, accountId: int, newStatus: string, other: int)
    requires IdsDistinct(t)
    ensures var d := GuardFetched(platform, accountId, newStatus, RowById(t, accountId));
      d.Write? ==>
        var a := RowById(t, accountId).value;
        var u := SetStatus(t, d.accountId, d.status, d.numReports);
        && IdsDistinct(u)
        && RowById(u, accountId) == Some(a.(accountStatus := newStatus, numReports := ReportsAfter(a.numReports, newStatus)))
        && (other != accountId ==> RowById(u, other) == RowById(t, other))
  {
    var d := GuardFetched(platform, accountId, newStatus, RowById(t, accountId));
    if d.Write? {
      assert d.accountId == accountId;
      SetStatusKeepsIds(t, accountId, d.status, d.numReports);
      SetStatusTarget(t, accountId, d.status, d.numReports);
      if other != accountId {
        SetStatusOthers(t, accountId, d.status, d.numReports, other);
      }
    }
  }

  /**
   * A call that reaches the write and commits sets the stored status of the
   * account to the new label, adds one report exactly when the label is
   * "Imposter", and changes no other account and not the other table; any
   * other call leaves both tables as they were. The primary keys are kept
   * either way.
   */
  lemma ClassifyWriteEffect(t: Tables, c: ClassifyCall, other: int)
    requires IdsDistinct(t.linkedin) && IdsDistinct(t.twitter)
    ensures var d := ClassifyDecision(c.accountId, c.accountType, c.newStatus, t.linkedin, t.twitter);
      var u := AfterClassify(t, c);
      && IdsDistinct(u.linkedin) && IdsDistinct(u.twitter)
      && (!(d.Write? && c.writeOk) ==> u == t)
      && (d.Write? && c.writeOk && d.platform == LinkedIn ==>
            var a := RowById(t.linkedin, c.accountId.value).value;
            && RowById(u.linkedin, c.accountId.value)
                 == Some(a.(accountStatus := c.newStatus, numReports := ReportsAfter(a.numReports, c.newStatus)))
            && (other != c.accountId.value ==> RowById(u.linkedin, other) == RowById(t.linkedin, other))
            && u.twitter == t.twitter)
      && (d.Write? && c.writeOk && d.platform == Twitter ==>
            var a := RowById(t.twitter, c.accountId.value).value;
            && RowById(u.twitter, c.accountId.value)
                 == Some(a.(accountStatus := c.newStatus, numReports := ReportsAfter(a.numReports, c.newStatus)))
            && (other != c.accountId.value ==> RowById(u.twitter, other) == RowById(t.twitter, other))
            && u.linkedin == t.linkedin)
  {
    var d := ClassifyDecision(c.accountId, c.accountType, c.newStatus, t.linkedin, t.twitter);
    if d.Write? && c.writeOk {
      var id := c.accountId.value;
      if d.platform == LinkedIn {
        GuardedWriteEffect(t.linkedin, LinkedIn, id, c.newStatus, other);
      } else {
        GuardedWriteEffect(t.twitter, Twitter, id, c.newStatus, other);
      }
    }
  }

  /** A protected account's row in a table. */
  predicate ProtectedIn<I>(t: seq<StoredAccount<I>>, id: int) {
    RowById(t, id).Some? && IsProtectedStatus(RowById(t, id).value.accountStatus)
  }

  /** One call leaves a whitelisted or disabled account exactly as it was. */
  lemma ClassifyKeepsProtected(t: Tables, c: ClassifyCall, id: int)
    requires IdsDistinct(t.linkedin) && IdsDistinct(t.twitter)
    ensures var u := AfterClassify(t, c);
      && IdsDistinct(u.linkedin) && IdsDistinct(u.twitter)
      && (ProtectedIn(t.linkedin, id) ==> RowById(u.linkedin, id) == RowById(t.linkedin, id))
      && (ProtectedIn(t.twitter, id) ==> RowById(u.twitter, id) == RowById(t.twitter, id))
  {
    ClassifyWriteEffect(t, c, id);
  }

  /**
   * However many calls are made, in whatever order and with whatever
   * outcomes, a whitelisted or disabled account is never modified.
   */
  lemma {:induction false} ProtectedAccountsStay(t: Tables, calls: seq<ClassifyCall>, id: int)
    requires IdsDistinct(t.linkedin) && IdsDistinct(t.twitter)
    ensures ProtectedIn(t.linkedin, id) ==> RowById(AfterClassifyAll(t, calls).linkedin, id) == RowById(t.linkedin, id)
    ensures ProtectedIn(t.twitter, id) ==> RowById(AfterClassifyAll(t, calls).twitter, id) == RowById(t.twitter, id)
    decreases |calls|
  {
    if calls != [] {
      var u := AfterClassify(t, calls[0]);
      ClassifyKeepsProtected(t, calls[0], id);
      ProtectedAccountsStay(u, calls[1..], id);
    }
  }

  // ---------------------------------------------------------------------
  // ImpersonationMonitor
  // ---------------------------------------------------------------------

  /**
   * The LinkedIn keywords as the constructor leaves them: an iterator over
   * the list, or, when the list is empty, the plain empty list, which
   * `next` cannot be applied to.
   */
  datatype LinkedInCursor = Iterating(rest: seq<Keyword>) | UnwrappedList

  /** The keywords still to come from a LinkedIn cursor. */
  function Pending(c: LinkedInCursor): seq<Keyword> {
    match c
    case Iterating(rest) => rest
    case UnwrappedList => []
  }

  class Monitor {
    /** The connection's database. */
    const db: Database
    /** The platform search agents. */
    const twitterAgent: TwitterSearch
    const linkedinAgent: LinkedInSearch

    var searchTwitter: bool
    var searchLinkedIn: bool
    var numTwitterKeywords: nat
    var numLinkedInKeywords: nat
    /** The Twitter keyword iterator: the keywords it has still to yield. */
    var twitterCursor: seq<Keyword>
    var linkedinCursor: LinkedInCursor
    var numTwitterAccounts: nat
    var numLinkedInAccounts: nat
    /** The alerts posted so far, in order. */
    var alerts: seq<Alert>

    /**
     * The keyword set-up of `__init__`: search flags and counts per
     * platform, both keyword lists turned into iterators except an empty
     * LinkedIn list, which stays a list. With no keywords at all the
     * constructor raises, so both lists empty is excluded.
     */
    constructor (db: Database, twitterKeywords: seq<Keyword>, linkedinKeywords: seq<Keyword>,
                 twitterAgent: TwitterSearch, linkedinAgent: LinkedInSearch)
      requires twitterKeywords != [] || linkedinKeywords != []
      ensures this.db == db && this.twitterAgent == twitterAgent && this.linkedinAgent == linkedinAgent
      ensures searchTwitter == (twitterKeywords != []) && searchLinkedIn == (linkedinKeywords != [])
      ensures numTwitterKeywords == |twitterKeywords| && numLinkedInKeywords == |linkedinKeywords|
      ensures twitterCursor == twitterKeywords
      ensures linkedinCursor == if linkedinKeywords == [] then UnwrappedList else Iterating(linkedinKeywords)
      ensures numTwitterAccounts == 0 && numLinkedInAccounts == 0 && alerts == []
    {
      this.db := db;
      this.twitterAgent := twitterAgent;
      this.linkedinAgent := linkedinAgent;
      searchTwitter := true;
      searchLinkedIn := true;
      numTwitterKeywords := 0;
      numLinkedInKeywords := 0;
      if twitterKeywords == [] {
        searchTwitter := false;
      } else {
        numTwitterKeywords := |twitterKeywords|;
      }
      if linkedinKeywords == [] {
        searchLinkedIn := false;
        linkedinCursor := UnwrappedList;
      } else {
        numLinkedInKeywords := |linkedinKeywords|;
        linkedinCursor := Iterating(linkedinKeywords);
      }
      twitterCursor := twitterKeywords;
      numTwitterAccounts := 0;
      numLinkedInAccounts := 0;
      alerts := [];
    }

    /** The candidates of one Twitter keyword: each stamped, alerted and counted. */
    method SearchTwitter(k: Keyword)
      modifies this`alerts, this`numTwitterAccounts
      ensures alerts == old(alerts) + VisitAlerts(TwitterVisit(k), twitterAgent, linkedinAgent)
      ensures numTwitterAccounts == old(numTwitterAccounts) + |twitterAgent(k.keywordString)|
    {
      var accounts := twitterAgent(k.keywordString);
      for i := 0 to |accounts|
        invariant alerts == old(alerts) + TwitterAlerts(accounts[..i], k.keywordId)
        invariant numTwitterAccounts == old(numTwitterAccounts) + i
      {
        assert accounts[..i + 1][..i] == accounts[..i];
        var account := accounts[i].(keywordId := k.keywordId);
        alerts := alerts + [Alert(TwitterCandidate(account), TwitterLog)];
        numTwitterAccounts := numTwitterAccounts + 1;
      }
      assert accounts[..|accounts|] == accounts;
    }

    /** The candidates of one LinkedIn keyword: each stamped, alerted and counted. */
    method SearchLinkedIn(k: Keyword)
      modifies this`alerts, this`numLinkedInAccounts
      ensures alerts == old(alerts) + VisitAlerts(LinkedInVisit(k), twitterAgent, linkedinAgent)
      ensures numLinkedInAccounts == old(numLinkedInAccounts) + |linkedinAgent(k.keywordString)|
    {
      var accounts := linkedinAgent(k.keywordString);
      for i := 0 to |accounts|
        invariant alerts == old(alerts) + LinkedInAlerts(accounts[..i], k.keywordId)
        invariant numLinkedInAccounts == old(numLinkedInAccounts) + i
      {
        assert accounts[..i + 1][..i] == accounts[..i];
        var account := accounts[i].(keywordId := k.keywordId);
        alerts := alerts + [Alert(LinkedInCandidate(account), LinkedInLog)];
        numLinkedInAccounts := numLinkedInAccounts + 1;
      }
      assert accounts[..|accounts|] == accounts;
    }

    /** The Twitter half of a round: `next` on the Twitter iterator and, if it yields a keyword, its search. */
    method TwitterTurn() returns (more: bool)
      modifies this`twitterCursor, this`alerts, this`numTwitterAccounts
      ensures more == (old(twitterCursor) != [])
      ensures twitterCursor == Rest(old(twitterCursor))
      ensures alerts == old(alerts) + ScanAlerts(Step(old(twitterCursor), true), twitterAgent, linkedinAgent)
      ensures numTwitterAccounts == old(numTwitterAccounts) + TwitterFound(Step(old(twitterCursor), true), twitterAgent)
    {
      more := twitterCursor != [];
      if more {
        var k := twitterCursor[0];
        twitterCursor := twitterCursor[1..];
        SearchTwitter(k);
        assert [TwitterVisit(k)][..0] == [];
      }
    }

    /** The LinkedIn half of a round, on a LinkedIn iterator. */
    method LinkedInTurn() returns (more: bool)
      requires linkedinCursor.Iterating?
      modifies this`linkedinCursor, this`alerts, this`numLinkedInAccounts
      ensures more == (Pending(old(linkedinCursor)) != [])
      ensures linkedinCursor == Iterating(Rest(Pending(old(linkedinCursor))))
      ensures alerts == old(alerts) + ScanAlerts(Step(Pending(old(linkedinCursor)), false), twitterAgent, linkedinAgent)
      ensures numLinkedInAccounts == old(numLinkedInAccounts) + LinkedInFound(Step(Pending(old(linkedinCursor)), false), linkedinAgent)
    {
      var rest := linkedinCursor.rest;
      more := rest != [];
      if more {
        var k := rest[0];
        linkedinCursor := Iterating(rest[1..]);
        SearchLinkedIn(k);
        assert [LinkedInVisit(k)][..0] == [];
      }
    }

    /**
     * One pass of the `while True` body of `scan`: `next` on the Twitter
     * iterator and its search, then `next` on the LinkedIn cursor and its
     * search. On a plain LinkedIn list that second `next` raises, so only
     * the Twitter half happens.
     */
    method Round() returns (moreTwitter: bool, moreLinkedIn: bool)
      modifies this`twitterCursor, this`linkedinCursor, this`alerts, this`numTwitterAccounts, this`numLinkedInAccounts
      ensures moreTwitter == (old(twitterCursor) != [])
      ensures old(linkedinCursor).Iterating? ==> moreLinkedIn == (Pending(old(linkedinCursor)) != [])
      ensures twitterCursor == Rest(old(twitterCursor))
      ensures linkedinCursor == if old(linkedinCursor).Iterating? then Iterating(Rest(Pending(old(linkedinCursor)))) else UnwrappedList
      ensures var round := Step(old(twitterCursor), true) + Step(Pending(old(linkedinCursor)), false);
        && alerts == old(alerts) + ScanAlerts(round, twitterAgent, linkedinAgent)
        && numTwitterAccounts == old(numTwitterAccounts) + TwitterFound(round, twitterAgent)
        && numLinkedInAccounts == old(numLinkedInAccounts) + LinkedInFound(round, linkedinAgent)
    {
      ghost var st, sl := Step(twitterCursor, true), Step(Pending(linkedinCursor), false);
      moreTwitter := TwitterTurn();
      moreLinkedIn := false;
      if linkedinCursor.Iterating? {
        moreLinkedIn := LinkedInTurn();
      }
      ScanAlertsExtend(old(alerts), st, sl, twitterAgent, linkedinAgent);
      FoundAppend(st, sl, twitterAgent, linkedinAgent);
    }

    /**
     * `scan`: rounds of one Twitter keyword and one LinkedIn keyword until
     * a round yields neither. Every search's candidates are alerted and
     * counted; nothing is sent to the database. With the LinkedIn keywords
     * left as a plain list, the first `next` on it raises after the first
     * Twitter keyword has been searched (`completed` is false).
     */
    method Scan() returns (completed: bool)
      modifies this`twitterCursor, this`linkedinCursor, this`alerts, this`numTwitterAccounts, this`numLinkedInAccounts
      ensures unchanged(db)
      ensures completed == old(linkedinCursor).Iterating?
      ensures completed ==>
        var visits := Rounds(old(twitterCursor), Pending(old(linkedinCursor)));
        && alerts == old(alerts) + ScanAlerts(visits, twitterAgent, linkedinAgent)
        && numTwitterAccounts == old(numTwitterAccounts) + TwitterFound(visits, twitterAgent)
        && numLinkedInAccounts == old(numLinkedInAccounts) + LinkedInFound(visits, linkedinAgent)
        && twitterCursor == [] && linkedinCursor == Iterating([])
      ensures !completed ==>
        var visits := Step(old(twitterCursor), true);
        && alerts == old(alerts) + ScanAlerts(visits, twitterAgent, linkedinAgent)
        && numTwitterAccounts == old(numTwitterAccounts) + TwitterFound(visits, twitterAgent)
        && numLinkedInAccounts == old(numLinkedInAccounts)
        && twitterCursor == Rest(old(twitterCursor)) && linkedinCursor == UnwrappedList
    {
      ghost var a0, t0, l0 := alerts, numTwitterAccounts, numLinkedInAccounts;
      ghost var visits := Rounds(twitterCursor, Pending(linkedinCursor));
      ghost var done: seq<Visit> := [];
      var moreTwitter, moreLinkedIn := true, true;
      while moreTwitter || moreLinkedIn
        invariant linkedinCursor.Iterating? == old(linkedinCursor).Iterating?
        invariant visits == done + Rounds(twitterCursor, Pending(linkedinCursor))
        invariant alerts == a0 + ScanAlerts(done, twitterAgent, linkedinAgent)
        invariant numTwitterAccounts == t0 + TwitterFound(done, twitterAgent)
        invariant numLinkedInAccounts == l0 + LinkedInFound(done, linkedinAgent)
        invariant linkedinCursor.UnwrappedList? ==> done == [] && twitterCursor == old(twitterCursor) && moreTwitter
        invariant !moreTwitter && !moreLinkedIn ==> twitterCursor == [] && Pending(linkedinCursor) == []
        decreases |twitterCursor| + |Pending(linkedinCursor)|, if moreTwitter || moreLinkedIn then 1 else 0
      {
        ghost var ts, ls := twitterCursor, Pending(linkedinCursor);
        ghost var round := Step(ts, true) + Step(ls, false);
        RoundsExtend(done, ts, ls);
        moreTwitter, moreLinkedIn := Round();
        ScanAlertsExtend(a0, done, round, twitterAgent, linkedinAgent);
        FoundAppend(done, round, twitterAgent, linkedinAgent);
        if linkedinCursor.UnwrappedList? {
          assert done + round == Step(ts, true);
          TwitterStepFindsNoLinkedIn(ts, linkedinAgent);
          return false;
        }
        done := done + round;
      }
      assert Rounds([], []) == [];
      assert done == visits;
      completed := true;
    }

    /**
     * One `for` loop of `update`: each row converted, rows that do not
     * convert skipped, each entry inserted with the outcome `insertOk`
     * gives it, and the entries counted.
     */
    method InsertEntries<R>(rows: seq<R>, convert: R -> Option<ImpersonationAccountIn>, insertOk: ImpersonationAccountIn -> bool)
      returns (count: nat)
      modifies db`watchList, db`log
      ensures db.watchList == old(db.watchList) + Accepted(Entries(rows, convert), insertOk)
      ensures db.log == old(db.log) + Inserts(Entries(rows, convert))
      ensures count == |Entries(rows, convert)|
    {
      count := 0;
      for i := 0 to |rows|
        invariant db.watchList == old(db.watchList) + Accepted(Entries(rows[..i], convert), insertOk)
        invariant db.log == old(db.log) + Inserts(Entries(rows[..i], convert))
        invariant count == |Entries(rows[..i], convert)|
      {
        EntriesStep(rows, i, convert);
        var ia := convert(rows[i]);
        ghost var es := Entries(rows[..i], convert);
        if ia.None? {
          assert Entries(rows[..i + 1], convert) == es + [];
          assert es + [] == es;
          continue;
        }
        assert Entries(rows[..i + 1], convert) == es + [ia.value];
        AcceptedSnoc(es, ia.value, insertOk);
        InsertsSnoc(es, ia.value);
        Concat3(old(db.watchList), Accepted(es, insertOk), if insertOk(ia.value) then [ia.value] else []);
        Concat3(old(db.log), Inserts(es), [InsertWatched(ia.value)]);
        var _ := db.CreateImpersonationAccount(ia.value, insertOk(ia.value));
        count := count + 1;
      }
      assert rows[..|rows|] == rows;
    }

    /**
     * `update`: clear the watch list, stopping when that fails; then one
     * insert per watched LinkedIn account, then one per watched Twitter
     * account. The counts are of entries made, whatever their inserts do.
     * `clearOk` and `insertOk` are the outcomes of the statements.
     */
    method Update(clearOk: bool, insertOk: ImpersonationAccountIn -> bool) returns (cleared: bool, linkedinCount: nat, twitterCount: nat)
      modifies db`watchList, db`log
      ensures cleared == clearOk
      ensures !cleared ==>
        && db.watchList == old(db.watchList) && db.log == old(db.log) + [ClearWatchList]
        && linkedinCount == 0 && twitterCount == 0
      ensures cleared ==>
        var le := LinkedInEntries(db.linkedin);
        var te := TwitterEntries(db.twitter);
        && db.watchList == Accepted(le, insertOk) + Accepted(te, insertOk)
        && linkedinCount == |le| && twitterCount == |te|
        && db.log == old(db.log) + [ClearWatchList] + [FetchWatched(LinkedIn)] + Inserts(le) + [FetchWatched(Twitter)] + Inserts(te)
    {
      linkedinCount, twitterCount := 0, 0;
      cleared := db.ClearImpersonationAccountsTable(clearOk);
      if !cleared {
        return;
      }
      ghost var le, te := LinkedInEntries(db.linkedin), TwitterEntries(db.twitter);
      ghost var log0 := db.log;
      var linkedinRows := db.FetchLinkedInImpersonationAccounts();
      assert Entries(linkedinRows, ConvertLinkedIn) == le;
      linkedinCount := InsertEntries(linkedinRows, ConvertLinkedIn, insertOk);
      assert db.watchList == [] + Accepted(le, insertOk) == Accepted(le, insertOk);
      assert db.log == log0 + [FetchWatched(LinkedIn)] + Inserts(le);
      var twitterRows := db.FetchTwitterImpersonationAccounts();
      assert Entries(twitterRows, ConvertTwitter) == te;
      twitterCount := InsertEntries(twitterRows, ConvertTwitter, insertOk);
      assert db.log == log0 + [FetchWatched(LinkedIn)] + Inserts(le) + [FetchWatched(Twitter)] + Inserts(te);
    }

    /**
     * The LinkedIn branch of `classify` once the first three guards pass:
     * the fetch by id, the found / whitelisted / disabled guards, then the
     * status write under the stored row's own id.
     */
    method ClassifyLinkedIn(id: int, newStatus: string, writeOk: bool) returns (ok: bool)
      modifies db`linkedin, db`log
      ensures var d := GuardFetched(LinkedIn, id, newStatus, RowById(old(db.linkedin), id));
        && ok == (d.Write? && writeOk)
        && db.linkedin == (if d.Write? && writeOk then SetStatus(old(db.linkedin), d.accountId, d.status, d.numReports) else old(db.linkedin))
        && db.log == old(db.log) + [FetchAccount(LinkedIn, id)] + (if d.Write? then [WriteStatus(d.platform, d.accountId, d.status, d.numReports)] else [])
      ensures old(db.Valid()) ==> db.Valid()
    {
      var account := db.FetchLinkedInAccountById(id);
      if account.None? {
        return false;
      }
      var a := account.value;
      if a.accountStatus == StatusLabel(Whitelisted) {
        return false;
      }
      if a.accountStatus == StatusLabel(Disabled) {
        return false;
      }
      var numReports := a.numReports;
      if newStatus == StatusLabel(Imposter) {
        numReports := numReports + 1;
      }
      assert GuardFetched(LinkedIn, id, newStatus, account) == Write(LinkedIn, a.accountId, newStatus, numReports);
      ok := db.UpdateLinkedInAccountStatus(a.accountId, newStatus, numReports, writeOk);
    }

    /**
     * The Twitter branch of `classify` once the first three guards pass:
     * the fetch by id, the same guards, then the status write under the id
     * passed in.
     */
    method ClassifyTwitter(id: int, newStatus: string, writeOk: bool) returns (ok: bool)
      modifies db`twitter, db`log
      ensures var d := GuardFetched(Twitter, id, newStatus, RowById(old(db.twitter), id));
        && ok == (d.Write? && writeOk)
        && db.twitter == (if d.Write? && writeOk then SetStatus(old(db.twitter), d.accountId, d.status, d.numReports) else old(db.twitter))
        && db.log == old(db.log) + [FetchAccount(Twitter, id)] + (if d.Write? then [WriteStatus(d.platform, d.accountId, d.status, d.numReports)] else [])
      ensures old(db.Valid()) ==> db.Valid()
    {
      var account := db.FetchTwitterAccountById(id);
      if account.None? {
        return false;
      }
      var a := account.value;
      if a.accountStatus == StatusLabel(Whitelisted) {
        return false;
      }
      if a.accountStatus == StatusLabel(Disabled) {
        return false;
      }
      var numReports := a.numReports;
      if newStatus == StatusLabel(Imposter) {
        numReports := numReports + 1;
      }
      assert GuardFetched(Twitter, id, newStatus, account) == Write(Twitter, id, newStatus, numReports);
      ok := db.UpdateTwitterAccountStatus(id, newStatus, numReports, writeOk);
    }

    /**
     * `classify`: the guard chain, then the status write on the account's
     * platform. True exactly when the guards pass and the write commits;
     * the tables change as `AfterClassify` says and the requests sent are
     * `ClassifyRequests`.
     */
    method Classify(accountId: AccountIdArg, accountType: int, newStatus: string, writeOk: bool) returns (ok: bool)
      modifies db`linkedin, db`twitter, db`log
      ensures var d := ClassifyDecision(accountId, accountType, newStatus, old(db.linkedin), old(db.twitter));
        ok == (d.Write? && writeOk)
      ensures Tables(db.linkedin, db.twitter)
        == AfterClassify(Tables(old(db.linkedin), old(db.twitter)), ClassifyCall(accountId, accountType, newStatus, writeOk))
      ensures db.log == old(db.log) + ClassifyRequests(accountId, accountType, newStatus, old(db.linkedin), old(db.twitter))
      ensures old(db.Valid()) ==> db.Valid()
    {
      if accountId.NotIntArg? {
        return false;
      }
      if newStatus !in StatusLabels {
        return false;
      }
      var id := accountId.value;
      if accountType == LinkedInAccountType {
        ok := ClassifyLinkedIn(id, newStatus, writeOk);
      } else if accountType == TwitterAccountType {
        ok := ClassifyTwitter(id, newStatus, writeOk);
      } else {
        return false;
      }
    }
  }
}
