/**
 * The database as the monitor sees it through its connection: the two
 * account tables, each a sequence of rows in the order the server returns
 * them with one row per `account_id`, the watch-list (impersonation
 * accounts) table, and a log of the requests sent on the connection. Each
 * write takes the outcome of executing its statement as a parameter:
 * `true` where the statement commits, `false` where it raises and the
 * helper returns None.
 */
module Repository {
  import opened Wrappers
  import opened Models

  /** One request sent on the connection. */
  datatype Request =
    | FetchAccount(platform: Platform, accountId: int)
    | WriteStatus(platform: Platform, accountId: int, status: string, numReports: int)
    | ClearWatchList
    | FetchWatched(platform: Platform)
    | InsertWatched(entry: ImpersonationAccountIn)

  /** The statuses the watch-list queries select: `account_status in ('Unclassified', 'Imposter')`. */
  predicate IsWatchedStatus(status: string) {
    status == StatusLabel(Unclassified) || status == StatusLabel(Imposter)
  }

  /** `account_id` is the primary key: no two rows share one. */
  predicate IdsDistinct<I>(t: seq<StoredAccount<I>>) {
    forall i, j :: 0 <= i < j < |t| ==> t[i].accountId != t[j].accountId
  }

  /** The first row at or after `from` with that id. */
  function RowByIdFrom<I>(t: seq<StoredAccount<I>>, id: int, from: nat): (r: Option<StoredAccount<I>>)
    ensures r.None? <==> forall i :: from <= i < |t| ==> t[i].accountId != id
    ensures r.Some? ==> exists i :: from <= i < |t| && t[i] == r.value && t[i].accountId == id
    decreases |t| - from
  {
    if from >= |t| then None
    else if t[from].accountId == id then Some(t[from])
    else RowByIdFrom(t, id, from + 1)
  }

  /** `SELECT * ... WHERE account_id=?` followed by `fetchone()`: the row with that id, or None when there is none. */
  function RowById<I>(t: seq<StoredAccount<I>>, id: int): (r: Option<StoredAccount<I>>)
    ensures r.None? <==> forall i :: 0 <= i < |t| ==> t[i].accountId != id
    ensures r.Some? ==> exists i :: 0 <= i < |t| && t[i] == r.value && t[i].accountId == id
  {
    RowByIdFrom(t, id, 0)
  }

  /** With distinct ids, looking up the id of a row finds that very row. */
  lemma RowByIdFindsRow<I>(t: seq<StoredAccount<I>>, i: nat)
    requires IdsDistinct(t) && i < |t|
    ensures RowById(t, t[i].accountId) == Some(t[i])
  {
    var r := RowById(t, t[i].accountId);
    assert r.Some?;
    var j :| 0 <= j < |t| && t[j] == r.value && t[j].accountId == t[i].accountId;
    assert j == i;
  }

  /** The rows with a watched status, in table order (the two watch-list queries). */
  function Watched<I>(t: seq<StoredAccount<I>>): (rows: seq<StoredAccount<I>>)
    ensures |rows| <= |t|
  {
    if t == [] then []
    else
      var last := t[|t| - 1];
      Watched(t[..|t| - 1]) + (if IsWatchedStatus(last.accountStatus) then [last] else [])
  }

  /** A row is selected exactly when it is in the table with a watched status. */
  lemma {:induction false} WatchedMembers<I>(t: seq<StoredAccount<I>>, x: StoredAccount<I>)
    ensures x in Watched(t) <==> x in t && IsWatchedStatus(x.accountStatus)
  {
    if t != [] {
      var init := t[..|t| - 1];
      WatchedMembers(init, x);
      assert t == init + [t[|t| - 1]];
    }
  }

  /** The selected rows keep the primary key: no two share an id. */
  lemma {:induction false} WatchedDistinct<I>(t: seq<StoredAccount<I>>)
    requires IdsDistinct(t)
    ensures IdsDistinct(Watched(t))
  {
    if t != [] {
      var init := t[..|t| - 1];
      var last := t[|t| - 1];
      WatchedDistinct(init);
      var before := Watched(init);
      forall k | 0 <= k < |before|
        ensures before[k].accountId != last.accountId
      {
        WatchedMembers(init, before[k]);
        var i :| 0 <= i < |init| && init[i] == before[k];
        assert t[i] == init[i];
      }
    }
  }

  /** The statement a status update sends: every row with that id gets the new status and report count. */
  function SetStatus<I>(t: seq<StoredAccount<I>>, accountId: int, status: string, numReports: int): (u: seq<StoredAccount<I>>)
    ensures |u| == |t|
    ensures forall i :: 0 <= i < |t| ==>
      u[i] == if t[i].accountId == accountId then t[i].(accountStatus := status, numReports := numReports) else t[i]
  {
    if t == [] then []
    else
      var last := t[|t| - 1];
      SetStatus(t[..|t| - 1], accountId, status, numReports)
        + [if last.accountId == accountId then last.(accountStatus := status, numReports := numReports) else last]
  }

  /** A status update keeps the id of every row, so it keeps the primary key. */
  lemma SetStatusKeepsIds<I>(t: seq<StoredAccount<I>>, accountId: int, status: string, numReports: int)
    ensures var u := SetStatus(t, accountId, status, numReports);
      forall i :: 0 <= i < |t| ==> u[i].accountId == t[i].accountId
    ensures IdsDistinct(t) ==> IdsDistinct(SetStatus(t, accountId, status, numReports))
  {
  }

  /** After a status update the row with that id, if any, carries the new status and report count, the rest of it unchanged. */
  lemma SetStatusTarget<I>(t: seq<StoredAccount<I>>, accountId: int, status: string, numReports: int)
    requires IdsDistinct(t)
    ensures RowById(SetStatus(t, accountId, status, numReports), accountId) == (match RowById(t, accountId)
      case None => None
      case Some(row) => Some(row.(accountStatus := status, numReports := numReports)))
  {
    var u := SetStatus(t, accountId, status, numReports);
    SetStatusKeepsIds(t, accountId, status, numReports);
    if i :| 0 <= i < |t| && t[i].accountId == accountId {
      RowByIdFindsRow(t, i);
      RowByIdFindsRow(u, i);
    }
  }

  /** A status update leaves every other id's row as it was. */
  lemma SetStatusOthers<I>(t: seq<StoredAccount<I>>, accountId: int, status: string, numReports: int, other: int)
    requires IdsDistinct(t) && other != accountId
    ensures RowById(SetStatus(t, accountId, status, numReports), other) == RowById(t, other)
  {
    var u := SetStatus(t, accountId, status, numReports);
    SetStatusKeepsIds(t, accountId, status, numReports);
    if i :| 0 <= i < |t| && t[i].accountId == other {
      RowByIdFindsRow(t, i);
      RowByIdFindsRow(u, i);
    }
  }

  /** Copies out, in order, the rows the watch-list query selects, as the fetch loops over `fetchall()`. */
  method FilterWatched<I>(t: seq<StoredAccount<I>>) returns (rows: seq<StoredAccount<I>>)
    ensures rows == Watched(t)
  {
    rows := [];
    for k := 0 to |t|
      invariant rows == Watched(t[..k])
    {
      assert t[..k + 1][..k] == t[..k];
      if IsWatchedStatus(t[k].accountStatus) {
        rows := rows + [t[k]];
      }
    }
    assert t[..|t|] == t;
  }

  class Database {
    var linkedin: seq<LinkedInAccount>
    var twitter: seq<TwitterAccount>
    var watchList: seq<ImpersonationAccountIn>
    var log: seq<Request>

    /** Both account tables keep their primary key, `account_id`. */
    ghost predicate Valid()
      reads this
    {
      IdsDistinct(linkedin) && IdsDistinct(twitter)
    }

    constructor (linkedin: seq<LinkedInAccount>, twitter: seq<TwitterAccount>, watchList: seq<ImpersonationAccountIn>)
      requires IdsDistinct(linkedin) && IdsDistinct(twitter)
      ensures Valid()
      ensures this.linkedin == linkedin && this.twitter == twitter && this.watchList == watchList
      ensures log == []
    {
      this.linkedin := linkedin;
      this.twitter := twitter;
      this.watchList := watchList;
      log := [];
    }

    /** `fetch_linkedin_account_by_id`: the row with that id, or None. */
    method FetchLinkedInAccountById(accountId: int) returns (account: Option<LinkedInAccount>)
      modifies this`log
      ensures account == RowById(linkedin, accountId)
      ensures log == old(log) + [FetchAccount(LinkedIn, accountId)]
    {
      log := log + [FetchAccount(LinkedIn, accountId)];
      account := RowById(linkedin, accountId);
    }

    /** `fetch_twitter_account_by_id`: the row with that id, or None. */
    method FetchTwitterAccountById(accountId: int) returns (account: Option<TwitterAccount>)
      modifies this`log
      ensures account == RowById(twitter, accountId)
      ensures log == old(log) + [FetchAccount(Twitter, accountId)]
    {
      log := log + [FetchAccount(Twitter, accountId)];
      account := RowById(twitter, accountId);
    }

    /**
     * `update_linkedin_account_status`: True when the statement commits,
     * which sets status and report count of the row with that id (an
     * UPDATE of a missing id changes nothing and still commits).
     */
    method UpdateLinkedInAccountStatus(accountId: int, newStatus: string, numReports: int, commits: bool) returns (updated: bool)
      modifies this`linkedin, this`log
      ensures updated == commits
      ensures linkedin == if commits then SetStatus(old(linkedin), accountId, newStatus, numReports) else old(linkedin)
      ensures log == old(log) + [WriteStatus(LinkedIn, accountId, newStatus, numReports)]
      ensures old(Valid()) ==> Valid()
    {
      log := log + [WriteStatus(LinkedIn, accountId, newStatus, numReports)];
      if commits {
        SetStatusKeepsIds(linkedin, accountId, newStatus, numReports);
        linkedin := SetStatus(linkedin, accountId, newStatus, numReports);
      }
      updated := commits;
    }

    /** `update_twitter_account_status`, the same for the Twitter table. */
    method UpdateTwitterAccountStatus(accountId: int, newStatus: string, numReports: int, commits: bool) returns (updated: bool)
      modifies this`twitter, this`log
      ensures updated == commits
      ensures twitter == if commits then SetStatus(old(twitter), accountId, newStatus, numReports) else old(twitter)
      ensures log == old(log) + [WriteStatus(Twitter, accountId, newStatus, numReports)]
      ensures old(Valid()) ==> Valid()
    {
      log := log + [WriteStatus(Twitter, accountId, newStatus, numReports)];
      if commits {
        SetStatusKeepsIds(twitter, accountId, newStatus, numReports);
        twitter := SetStatus(twitter, accountId, newStatus, numReports);
      }
      updated := commits;
    }

    /** `clear_impersonation_accounts_table`: True and an empty watch list when the DELETE commits. */
    method ClearImpersonationAccountsTable(commits: bool) returns (cleared: bool)
      modifies this`watchList, this`log
      ensures cleared == commits
      ensures watchList == if commits then [] else old(watchList)
      ensures log == old(log) + [ClearWatchList]
    {
      log := log + [ClearWatchList];
      if commits {
        watchList := [];
      }
      cleared := commits;
    }

    /** `create_impersonation_account`: True and one more watch-list row when the insert commits. */
    method CreateImpersonationAccount(entry: ImpersonationAccountIn, commits: bool) returns (created: bool)
      modifies this`watchList, this`log
      ensures created == commits
      ensures watchList == old(watchList) + (if commits then [entry] else [])
      ensures log == old(log) + [InsertWatched(entry)]
    {
      log := log + [InsertWatched(entry)];
      if commits {
        watchList := watchList + [entry];
      }
      created := commits;
    }

    /** `fetch_linkedin_impersonation_accounts`: the LinkedIn rows with a watched status, in table order. */
    method FetchLinkedInImpersonationAccounts() returns (rows: seq<LinkedInAccount>)
      modifies this`log
      ensures rows == Watched(linkedin)
      ensures log == old(log) + [FetchWatched(LinkedIn)]
    {
      log := log + [FetchWatched(LinkedIn)];
      rows := FilterWatched(linkedin);
    }

    /** `fetch_twitter_impersonation_accounts`: the Twitter rows with a watched status, in table order. */
    method FetchTwitterImpersonationAccounts() returns (rows: seq<TwitterAccount>)
      modifies this`log
      ensures rows == Watched(twitter)
      ensures log == old(log) + [FetchWatched(Twitter)]
    {
      log := log + [FetchWatched(Twitter)];
      rows := FilterWatched(twitter);
    }
  }
}
