/**
 * The billing lookup of assume_role_get_billing.py: the role ARN assumed in
 * the member account, the paginated Cost Explorer query for last month,
 * and the flattening of its grouped results into one record per
 * (service, usage type). STS and Cost Explorer are replaced by the request
 * values sent to them and a script of the pages they answer with.
 */
module Billing {
  import opened Wrappers
  import opened BillingPeriod

  // ---------------------------------------------------------------------
  // assume_role: the role ARN
  // ---------------------------------------------------------------------

  const DefaultRoleName: string := "OrganizationAccountAccessRole"
  const SessionName: string := "BillingAccess"
  const ArnPrefix: string := "arn:aws:iam::"
  const RoleInfix: string := ":role/"

  function RoleArn(accountId: string, roleName: string := DefaultRoleName): string {
    ArnPrefix + accountId + RoleInfix + roleName
  }

  /** The first position of `c` in `s`, or `|s|` when it does not occur. */
  function IndexOf(s: string, c: char): (i: nat)
    ensures i <= |s|
    ensures i < |s| ==> s[i] == c
    ensures forall j :: 0 <= j < i ==> s[j] != c
    decreases |s|
  {
    if s == [] then 0
    else if s[0] == c then 0
    else 1 + IndexOf(s[1..], c)
  }

  /** Splits an IAM role ARN back into account id and role name. */
  function ParseRoleArn(arn: string): Option<(string, string)> {
    if |arn| < |ArnPrefix| || arn[..|ArnPrefix|] != ArnPrefix then None
    else
      var rest := arn[|ArnPrefix|..];
      var i := IndexOf(rest, ':');
      if i + |RoleInfix| <= |rest| && rest[i..i + |RoleInfix|] == RoleInfix then
        Some((rest[..i], rest[i + |RoleInfix|..]))
      else None
  }

  /** An account id without ':' can be read back from the ARN, and so can the role name. */
  lemma RoleArnRoundTrip(accountId: string, roleName: string)
    requires ':' !in accountId
    ensures ParseRoleArn(RoleArn(accountId, roleName)) == Some((accountId, roleName))
  {
    var arn := RoleArn(accountId, roleName);
    var rest := arn[|ArnPrefix|..];
    assert rest == accountId + RoleInfix + roleName;
    var i := IndexOf(rest, ':');
    assert rest[|accountId|] == ':';
    assert i == |accountId|;
    assert rest[i..i + |RoleInfix|] == RoleInfix;
    assert rest[..i] == accountId;
    assert rest[i + |RoleInfix|..] == roleName;
  }

  /** The STS AssumeRole request `assume_role` sends. */
  datatype AssumeRoleRequest = AssumeRoleRequest(roleArn: string, roleSessionName: string)

  function AssumeRole(accountId: string, roleName: string := DefaultRoleName): (req: AssumeRoleRequest)
    ensures req.roleSessionName == SessionName
    ensures ':' !in accountId ==> ParseRoleArn(req.roleArn) == Some((accountId, roleName))
  {
    RoleArnReadable(accountId, roleName);
    AssumeRoleRequest(RoleArn(accountId, roleName), SessionName)
  }

  /** RoleArnRoundTrip under the guard it needs. */
  lemma RoleArnReadable(accountId: string, roleName: string)
    ensures ':' !in accountId ==> ParseRoleArn(RoleArn(accountId, roleName)) == Some((accountId, roleName))
  {
    if ':' !in accountId {
      RoleArnRoundTrip(accountId, roleName);
    }
  }

  /** Without a role name, the request assumes the organisation's access role. */
  lemma DefaultRoleArn(accountId: string)
    ensures AssumeRole(accountId).roleArn == "arn:aws:iam::" + accountId + ":role/OrganizationAccountAccessRole"
  {
  }

  // ---------------------------------------------------------------------
  // Cost Explorer requests and responses
  // ---------------------------------------------------------------------

  datatype Dimension = Dimension(kind: string, key: string)

  /** The parameters of one `get_cost_and_usage` call. */
  datatype CostQuery = CostQuery(
    start: string, end: string,
    granularity: string, metrics: seq<string>, groupBy: seq<Dimension>,
    nextPageToken: Option<string>)

  /** A continuation token is truthy: present and non-empty. */
  predicate TokenSet(token: Option<string>) {
    token.Some? && token.value != ""
  }

  /** The request for the period [start, end); the token is passed only when truthy. */
  function Query(start: string, end: string, token: Option<string>): (q: CostQuery)
    ensures q.start == start && q.end == end
    ensures TokenSet(token) ==> q.nextPageToken == token
    ensures !TokenSet(token) ==> q.nextPageToken.None?
  {
    CostQuery(start, end, "MONTHLY", ["UnblendedCost"],
              [Dimension("DIMENSION", "SERVICE"), Dimension("DIMENSION", "USAGE_TYPE")],
              if TokenSet(token) then token else None)
  }

  datatype Metric = Metric(amount: string, unit: string)

  /** One group of a result: its dimension values and its metrics by name. */
  datatype Group = Group(keys: seq<string>, metrics: map<string, Metric>)

  /** One entry of `ResultsByTime`; `Groups` may be absent. */
  datatype ResultByTime = ResultByTime(groups: Option<seq<Group>>)

  /** One response page; `ResultsByTime` and `NextPageToken` may be absent. */
  datatype Page = Page(resultsByTime: Option<seq<ResultByTime>>, nextPageToken: Option<string>)

  /** `response.get("ResultsByTime", [])`. */
  function PageResults(p: Page): seq<ResultByTime> {
    match p.resultsByTime
    case None => []
    case Some(rs) => rs
  }

  // ---------------------------------------------------------------------
  // Pagination
  // ---------------------------------------------------------------------

  /** The requests sent, the results gathered, and whether a last page was reached before the script ran out. */
  datatype Fetch = Fetch(queries: seq<CostQuery>, results: seq<ResultByTime>, complete: bool)

  function Prepend(queries: seq<CostQuery>, results: seq<ResultByTime>, rest: Fetch): Fetch {
    Fetch(queries + rest.queries, results + rest.results, rest.complete)
  }

  lemma PrependPrepend(q1: seq<CostQuery>, r1: seq<ResultByTime>, q2: seq<CostQuery>, r2: seq<ResultByTime>, rest: Fetch)
    ensures Prepend(q1, r1, Prepend(q2, r2, rest)) == Prepend(q1 + q2, r1 + r2, rest)
  {
    assert (q1 + q2) + rest.queries == q1 + (q2 + rest.queries);
    assert (r1 + r2) + rest.results == r1 + (r2 + rest.results);
  }

  /** The pagination loop, sending `token` first and answered by `pages` in order. */
  function Paginate(start: string, end: string, token: Option<string>, pages: seq<Page>): Fetch
    decreases |pages|
  {
    if pages == [] then Fetch([], [], false)
    else
      var query := Query(start, end, token);
      var next := pages[0].nextPageToken;
      if !TokenSet(next) then Fetch([query], PageResults(pages[0]), true)
      else Prepend([query], PageResults(pages[0]), Paginate(start, end, next, pages[1..]))
  }

  /** The position of the first page without a truthy token, or `|pages|` if there is none. */
  function LastPage(pages: seq<Page>): (n: nat)
    ensures n <= |pages|
    ensures n < |pages| ==> !TokenSet(pages[n].nextPageToken)
    ensures forall k :: 0 <= k < n ==> TokenSet(pages[k].nextPageToken)
    decreases |pages|
  {
    if pages == [] then 0
    else if !TokenSet(pages[0].nextPageToken) then 0
    else 1 + LastPage(pages[1..])
  }

  /** How many pages the loop reads: up to and including the first without a truthy token. */
  function Answered(pages: seq<Page>): nat {
    if LastPage(pages) < |pages| then LastPage(pages) + 1 else |pages|
  }

  /** The `ResultsByTime` of `pages`, concatenated in order. */
  function Concat(pages: seq<Page>): seq<ResultByTime>
    decreases |pages|
  {
    if pages == [] then [] else PageResults(pages[0]) + Concat(pages[1..])
  }

  /**
   * The loop reads pages up to and including the first one without a
   * truthy token, stops complete exactly when it met such a page, sends one
   * request per page read, and gathers those pages' `ResultsByTime` in order.
   */
  lemma {:induction false} PaginateSpec(start: string, end: string, token: Option<string>, pages: seq<Page>)
    decreases |pages|
    ensures var f := Paginate(start, end, token, pages);
      && (f.complete <==> LastPage(pages) < |pages|)
      && |f.queries| == Answered(pages)
      && f.results == Concat(pages[..Answered(pages)])
  {
    if pages != [] {
      if !TokenSet(pages[0].nextPageToken) {
        assert Concat(pages[..1]) == PageResults(pages[0]) + Concat([]);
      } else {
        var tail := pages[1..];
        PaginateSpec(start, end, pages[0].nextPageToken, tail);
        assert LastPage(pages) == 1 + LastPage(tail);
        var n := Answered(pages);
        assert pages[..n][0] == pages[0] && pages[..n][1..] == tail[..n - 1];
      }
    }
  }

  /** Every request asks for [start, end); the first carries `token` if truthy, each later one the token of the page before it. */
  lemma {:induction false} PaginateQueries(start: string, end: string, token: Option<string>, pages: seq<Page>)
    decreases |pages|
    ensures var f := Paginate(start, end, token, pages);
      && |f.queries| <= |pages|
      && (forall k :: 0 <= k < |f.queries| ==> f.queries[k].start == start && f.queries[k].end == end)
      && (|f.queries| > 0 ==> f.queries[0].nextPageToken == (if TokenSet(token) then token else None))
      && (forall k :: 0 < k < |f.queries| ==> f.queries[k].nextPageToken == pages[k - 1].nextPageToken)
  {
    if pages != [] && TokenSet(pages[0].nextPageToken) {
      var tail := pages[1..];
      var next := pages[0].nextPageToken;
      PaginateQueries(start, end, next, tail);
      var f := Paginate(start, end, token, pages);
      var g := Paginate(start, end, next, tail);
      assert f.queries == [Query(start, end, token)] + g.queries;
      forall k | 0 < k < |f.queries|
        ensures f.queries[k].nextPageToken == pages[k - 1].nextPageToken
      {
        assert f.queries[k] == g.queries[k - 1];
        if k > 1 {
          assert pages[k - 1] == tail[k - 2];
        }
      }
    }
  }

  /** `list_service_usage`'s `while True` loop, answered by the scripted `pages`. */
  method FetchResults(start: string, end: string, pages: seq<Page>) returns (f: Fetch)
    ensures f == Paginate(start, end, None, pages)
  {
    var queries: seq<CostQuery> := [];
    var results: seq<ResultByTime> := [];
    var token: Option<string> := None;
    var i := 0;
    while i < |pages|
      invariant i <= |pages|
      invariant Paginate(start, end, None, pages) == Prepend(queries, results, Paginate(start, end, token, pages[i..]))
      decreases |pages| - i
    {
      var query := Query(start, end, token);
      var response := pages[i];
      ghost var here := Paginate(start, end, token, pages[i..]);
      ghost var rest := Paginate(start, end, response.nextPageToken, pages[i + 1..]);
      assert pages[i..][0] == response && pages[i..][1..] == pages[i + 1..];
      PrependPrepend(queries, results, [query], PageResults(response), rest);
      queries := queries + [query];
      results := results + PageResults(response);
      token := response.nextPageToken;
      i := i + 1;
      if !TokenSet(token) {
        assert here == Fetch([query], PageResults(response), true);
        f := Fetch(queries, results, true);
        return;
      }
      assert here == Prepend([query], PageResults(response), rest);
    }
    f := Fetch(queries, results, false);
  }

  // ---------------------------------------------------------------------
  // Flattening
  // ---------------------------------------------------------------------

  /** One output record; `amount` is the string the API returned. */
  datatype ServiceUsage = ServiceUsage(service: string, usageType: string, amount: string)

  /** The exceptions a malformed group raises. */
  datatype LookupError = IndexError | KeyError(key: string)

  /** `item.get("Groups", [])`. */
  function GroupsOf(r: ResultByTime): seq<Group> {
    match r.groups
    case None => []
    case Some(gs) => gs
  }

  /** The groups of `results` in the order the nested loops visit them. */
  function AllGroups(results: seq<ResultByTime>): seq<Group>
    decreases |results|
  {
    if results == [] then []
    else GroupsOf(results[0]) + AllGroups(results[1..])
  }

  /** Flattening respects concatenation: results outer, groups inner. */
  lemma {:induction false} AllGroupsAppend(a: seq<ResultByTime>, b: seq<ResultByTime>)
    ensures AllGroups(a + b) == AllGroups(a) + AllGroups(b)
    decreases |a|
  {
    if a == [] {
      assert a + b == b;
    } else {
      assert (a + b)[0] == a[0];
      assert (a + b)[1..] == a[1..] + b;
      AllGroupsAppend(a[1..], b);
    }
  }

  /** Appending one result appends its groups. */
  lemma AllGroupsSnoc(results: seq<ResultByTime>, r: ResultByTime)
    ensures AllGroups(results + [r]) == AllGroups(results) + GroupsOf(r)
  {
    AllGroupsAppend(results, [r]);
    assert [r][1..] == [];
  }

  /** A result without `Groups` contributes nothing. */
  lemma MissingGroupsContributeNothing(front: seq<ResultByTime>, r: ResultByTime, back: seq<ResultByTime>)
    requires r.groups.None?
    ensures AllGroups(front + [r] + back) == AllGroups(front + back)
  {
    AllGroupsAppend(front + [r], back);
    AllGroupsSnoc(front, r);
    AllGroupsAppend(front, back);
  }

  /** A group the record lookups succeed on. */
  predicate WellFormed(g: Group) {
    |g.keys| >= 2 && "UnblendedCost" in g.metrics
  }

  /** The exception the lookups raise on a malformed group: `Keys` is indexed before `Metrics`. */
  function GroupError(g: Group): LookupError
    requires !WellFormed(g)
  {
    if |g.keys| < 2 then IndexError else KeyError("UnblendedCost")
  }

  /** The record built from one group. */
  function Record(g: Group): ServiceUsage
    requires WellFormed(g)
  {
    ServiceUsage(g.keys[0], g.keys[1], g.metrics["UnblendedCost"].amount)
  }

  /** Every group of `gs` is well formed. */
  predicate AllWellFormed(gs: seq<Group>) {
    forall k :: 0 <= k < |gs| ==> WellFormed(gs[k])
  }

  /** `gs[k]` is the first group the lookups fail on. */
  predicate FirstMalformed(gs: seq<Group>, k: int) {
    0 <= k < |gs| && !WellFormed(gs[k]) && AllWellFormed(gs[..k])
  }

  /** A failure after a well-formed first group is the first failure of the whole. */
  lemma FirstMalformedCons(gs: seq<Group>, k: int)
    requires gs != [] && WellFormed(gs[0]) && FirstMalformed(gs[1..], k)
    ensures FirstMalformed(gs, k + 1) && gs[k + 1] == gs[1..][k]
  {
    assert gs[..k + 1] == [gs[0]] + gs[1..][..k];
  }

  /** The records of `gs` in order, or the exception raised by the first malformed group. */
  function Convert(gs: seq<Group>): (r: Result<seq<ServiceUsage>, LookupError>)
    ensures r.Success? <==> AllWellFormed(gs)
    ensures r.Success? ==> |r.value| == |gs| && forall k :: 0 <= k < |gs| ==> r.value[k] == Record(gs[k])
    ensures r.Failure? ==> exists k :: FirstMalformed(gs, k) && r.error == GroupError(gs[k])
    decreases |gs|
  {
    if gs == [] then Success([])
    else if !WellFormed(gs[0]) then
      assert FirstMalformed(gs, 0);
      Failure(GroupError(gs[0]))
    else
      match Convert(gs[1..])
      case Failure(e) =>
        var k :| FirstMalformed(gs[1..], k) && e == GroupError(gs[1..][k]);
        FirstMalformedCons(gs, k);
        Failure(e)
      case Success(rs) => Success([Record(gs[0])] + rs)
  }

  /** The records gathered so far, put in front of the outcome of the rest. */
  function Join(done: seq<ServiceUsage>, rest: Result<seq<ServiceUsage>, LookupError>): Result<seq<ServiceUsage>, LookupError> {
    match rest
    case Failure(e) => Failure(e)
    case Success(rs) => Success(done + rs)
  }

  lemma JoinJoin(a: seq<ServiceUsage>, b: seq<ServiceUsage>, rest: Result<seq<ServiceUsage>, LookupError>)
    ensures Join(a, Join(b, rest)) == Join(a + b, rest)
  {
    if rest.Success? {
      assert a + (b + rest.value) == (a + b) + rest.value;
    }
  }

  /**
   * Converting a concatenation: the first part's exception wins; otherwise
   * the second part's exception, or both parts' records in order.
   */
  lemma {:induction false} ConvertAppend(a: seq<Group>, b: seq<Group>)
    ensures Convert(a + b) == match Convert(a) case Failure(e) => Failure(e) case Success(rs) => Join(rs, Convert(b))
    decreases |a|
  {
    if a == [] {
      assert a + b == b;
      if Convert(b).Success? {
        assert [] + Convert(b).value == Convert(b).value;
      }
    } else {
      assert (a + b)[0] == a[0];
      assert (a + b)[1..] == a[1..] + b;
      if WellFormed(a[0]) {
        ConvertAppend(a[1..], b);
        if Convert(a[1..]).Success? {
          JoinJoin([Record(a[0])], Convert(a[1..]).value, Convert(b));
        }
      }
    }
  }

  /** The inner loop of `list_service_usage`: the records of one result's groups. */
  method Records(groups: seq<Group>) returns (r: Result<seq<ServiceUsage>, LookupError>)
    ensures r == Convert(groups)
  {
    var services: seq<ServiceUsage> := [];
    for j := 0 to |groups|
      invariant AllWellFormed(groups[..j])
      invariant |services| == j
      invariant forall k :: 0 <= k < j ==> services[k] == Record(groups[k])
    {
      var group := groups[j];
      if |group.keys| < 2 || "UnblendedCost" !in group.metrics {
        ConvertAtFirstMalformed(groups, j);
        r := Failure(GroupError(group));
        return;
      }
      services := services + [ServiceUsage(group.keys[0], group.keys[1], group.metrics["UnblendedCost"].amount)];
      assert groups[..j + 1] == groups[..j] + [group];
    }
    assert groups[..|groups|] == groups;
    assert Convert(groups).value == services;
    r := Success(services);
  }

  /** The nested loops of `list_service_usage` over the gathered results. */
  method Flatten(results: seq<ResultByTime>) returns (r: Result<seq<ServiceUsage>, LookupError>)
    ensures r == Convert(AllGroups(results))
  {
    var services: seq<ServiceUsage> := [];
    assert results[0..] == results;
    ghost var all := Convert(AllGroups(results));
    if all.Success? {
      assert services + all.value == all.value;
    }
    for i := 0 to |results|
      invariant Convert(AllGroups(results)) == Join(services, Convert(AllGroups(results[i..])))
    {
      var groups := GroupsOf(results[i]);
      ghost var later := AllGroups(results[i + 1..]);
      assert AllGroups(results[i..]) == groups + later by {
        assert results[i..][0] == results[i] && results[i..][1..] == results[i + 1..];
      }
      ConvertAppend(groups, later);
      var records := Records(groups);
      if records.Failure? {
        r := records;
        return;
      }
      JoinJoin(services, records.value, Convert(later));
      services := services + records.value;
    }
    assert results[|results|..] == [];
    assert services + [] == services;
    r := Success(services);
  }

  /** The flattening fails with the exception of the first malformed group. */
  lemma ConvertAtFirstMalformed(gs: seq<Group>, k: int)
    requires FirstMalformed(gs, k)
    ensures Convert(gs) == Failure(GroupError(gs[k]))
  {
    var r := Convert(gs);
    if r.Failure? {
      var k' :| FirstMalformed(gs, k') && r.error == GroupError(gs[k']);
      assert k' == k;
    }
  }

  // ---------------------------------------------------------------------
  // list_service_usage
  // ---------------------------------------------------------------------

  /** Why the lookup raised: the period overflowed, or a group lacked a key. */
  datatype UsageError = DateOverflow | Lookup(error: LookupError)

  /**
   * What one lookup sends and how it ends: the AssumeRole request, the Cost
   * Explorer requests, whether a last page was reached, and the records or
   * the exception raised.
   */
  datatype Usage = Usage(
    assumeRole: AssumeRoleRequest, queries: seq<CostQuery>, complete: bool,
    services: Result<seq<ServiceUsage>, UsageError>)

  /** `list_service_usage(account_id)` on date `today`, Cost Explorer answering with `pages`. */
  method ListServiceUsage(accountId: string, today: Date, pages: seq<Page>) returns (u: Usage)
    requires ValidDate(today)
    ensures u.assumeRole == AssumeRole(accountId)
    ensures u.services == Failure(DateOverflow) <==> LastMonthPeriod(today).None?
    ensures LastMonthPeriod(today).None? ==> u.queries == [] && !u.complete
    ensures LastMonthPeriod(today).Some? ==>
      var f := Paginate(LastMonthPeriod(today).value.0, LastMonthPeriod(today).value.1, None, pages);
      && u.queries == f.queries
      && u.complete == f.complete
      && u.services == match Convert(AllGroups(f.results))
        case Failure(e) => Failure(Lookup(e))
        case Success(services) => Success(services)
  {
    var session := AssumeRole(accountId);
    var period := LastMonthPeriod(today);
    if period.None? {
      return Usage(session, [], false, Failure(DateOverflow));
    }
    var (start, end) := period.value;
    var fetched := FetchResults(start, end, pages);
    var flat := Flatten(fetched.results);
    match flat
    case Failure(e) =>
      u := Usage(session, fetched.queries, fetched.complete, Failure(Lookup(e)));
    case Success(services) =>
      u := Usage(session, fetched.queries, fetched.complete, Success(services));
  }
}
