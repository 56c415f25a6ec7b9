/**
 * The records of the monitor: the account status labels, the two account
 * types, the candidate and stored account records of each platform, the
 * search keyword and the watch-list (impersonation) entry.
 */
module Models {
  import opened Wrappers

  // ---------------------------------------------------------------------
  // AccountStatusEnum
  // ---------------------------------------------------------------------

  datatype AccountStatus = Unclassified | Whitelisted | Imposter | Unrelated | Disabled

  /** The text stored in the `account_status` column for each status. */
  function StatusLabel(s: AccountStatus): string {
    match s
    case Unclassified => "Unclassified"
    case Whitelisted => "Whitelisted"
    case Imposter => "Imposter"
    case Unrelated => "Unrelated"
    case Disabled => "Disabled"
  }

  /** The five labels in field order, as `AccountStatusEnum().dict()` lists them. */
  const StatusLabels: seq<string> := ["Unclassified", "Whitelisted", "Imposter", "Unrelated", "Disabled"]

  /** The status a label names, if it names one of the five. */
  function ParseStatus(text: string): (r: Option<AccountStatus>)
    ensures r.Some? <==> text in StatusLabels
    ensures r.Some? ==> StatusLabel(r.value) == text
  {
    if text == "Unclassified" then Some(Unclassified)
    else if text == "Whitelisted" then Some(Whitelisted)
    else if text == "Imposter" then Some(Imposter)
    else if text == "Unrelated" then Some(Unrelated)
    else if text == "Disabled" then Some(Disabled)
    else None
  }

  /** The label list holds exactly the five labels, pairwise distinct, each status's once. */
  lemma StatusLabelsExact()
    ensures |StatusLabels| == 5
    ensures forall i, j :: 0 <= i < j < |StatusLabels| ==> StatusLabels[i] != StatusLabels[j]
    ensures forall s: AccountStatus :: StatusLabel(s) in StatusLabels
    ensures forall l :: l in StatusLabels ==> exists s: AccountStatus :: StatusLabel(s) == l
  {
    assert StatusLabel(Unclassified) == StatusLabels[0];
    assert StatusLabel(Whitelisted) == StatusLabels[1];
    assert StatusLabel(Imposter) == StatusLabels[2];
    assert StatusLabel(Unrelated) == StatusLabels[3];
    assert StatusLabel(Disabled) == StatusLabels[4];
  }

  /** Labels and statuses are in one-to-one correspondence. */
  lemma StatusLabelRoundTrip(s: AccountStatus)
    ensures ParseStatus(StatusLabel(s)) == Some(s)
  {
  }

  // ---------------------------------------------------------------------
  // AccountTypes
  // ---------------------------------------------------------------------

  datatype Platform = LinkedIn | Twitter

  const LinkedInAccountType: int := 1
  const TwitterAccountType: int := 2

  /** The `source_account_type` code of a platform. */
  function AccountType(p: Platform): int {
    match p
    case LinkedIn => LinkedInAccountType
    case Twitter => TwitterAccountType
  }

  /** The platform an account-type code names: 1 is LinkedIn, 2 is Twitter, nothing else is. */
  function PlatformOf(code: int): (r: Option<Platform>)
    ensures r.Some? <==> code == 1 || code == 2
    ensures r.Some? ==> AccountType(r.value) == code
  {
    if code == LinkedInAccountType then Some(LinkedIn)
    else if code == TwitterAccountType then Some(Twitter)
    else None
  }

  lemma AccountTypesDistinct()
    ensures AccountType(LinkedIn) == 1 && AccountType(Twitter) == 2
    ensures forall p, q :: AccountType(p) == AccountType(q) ==> p == q
    ensures forall p :: PlatformOf(AccountType(p)) == Some(p)
  {
  }

  // ---------------------------------------------------------------------
  // Records
  // ---------------------------------------------------------------------

  /** A timestamp; the core only copies timestamps around. */
  datatype DateTime = DateTime(ticks: int)

  /** A LinkedIn candidate as the search agent reports it. */
  datatype LinkedInAccountIn = LinkedInAccountIn(
    fullName: string,
    username: string,
    company: Option<string> := None,
    jobTitle: Option<string> := None,
    accountUrl: string,
    keywordId: int := 0)

  /** A Twitter candidate as the search agent reports it. */
  datatype TwitterAccountIn = TwitterAccountIn(
    twitterAccountId: string,
    fullName: string,
    username: string,
    accountUrl: string,
    isVerified: bool,
    createdAt: Option<DateTime> := None,
    numFollowers: Option<int> := None,
    numFriends: Option<int> := None,
    numStatuses: Option<int> := None,
    keywordId: int := 0)

  /**
   * A stored account of either platform: the candidate record (`info`) plus
   * the columns the store adds. The two stored classes add the same columns.
   */
  datatype StoredAccount<Info> = StoredAccount(
    info: Info,
    accountId: int,
    firstSeenAt: DateTime,
    lastSeenAt: DateTime,
    numReports: int,
    accountStatus: string)

  type LinkedInAccount = StoredAccount<LinkedInAccountIn>
  type TwitterAccount = StoredAccount<TwitterAccountIn>

  /** A search keyword (read-only for the monitor). */
  datatype Keyword = Keyword(
    keywordId: int,
    keywordString: string,
    useOnLinkedIn: bool,
    useOnTwitter: bool,
    firstSearchedAt: DateTime,
    lastSearchedAt: DateTime)

  /** A watch-list entry as the monitor builds it. */
  datatype ImpersonationAccountIn = ImpersonationAccountIn(
    sourceAccountId: int,
    sourceAccountType: int,
    fullName: string,
    username: string,
    numReports: int,
    accountUrl: string)

  /** A watch-list entry as the store keeps it. */
  datatype ImpersonationAccount = ImpersonationAccount(
    entry: ImpersonationAccountIn,
    accountId: int,
    createdAt: DateTime)

  /** The optional fields of a LinkedIn candidate default to None, its keyword id to 0. */
  lemma LinkedInAccountInDefaults(fullName: string, username: string, accountUrl: string)
    ensures var a := LinkedInAccountIn(fullName, username, accountUrl := accountUrl);
      a.company == None && a.jobTitle == None && a.keywordId == 0
      && a.fullName == fullName && a.username == username && a.accountUrl == accountUrl
  {
  }

  /** The optional fields of a Twitter candidate default to None, its keyword id to 0. */
  lemma TwitterAccountInDefaults(id: string, fullName: string, username: string, accountUrl: string, isVerified: bool)
    ensures var a := TwitterAccountIn(id, fullName, username, accountUrl, isVerified);
      a.createdAt == None && a.numFollowers == None && a.numFriends == None
      && a.numStatuses == None && a.keywordId == 0
  {
  }
}
