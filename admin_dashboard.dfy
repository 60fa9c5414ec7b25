/** The admin screen (src/pages/AdminDashboard.tsx): the two fetch helpers,
    the `fetchUsers` effect over four state fields, the two totals and
    the two tables. */
module AdminDashboard {
  import opened Types

  const FetchFailedMessage := "Failed to fetch data"
  const NoEndpointStatsMessage := "No endpoint statistics found"
  const NoUsersMessage := "No users found"

  /** The users list with every admin removed, as `getAllUsers` returns it. */
  function NonAdmins(users: seq<User>): (r: seq<User>)
    ensures |r| <= |users|
    ensures forall k :: 0 <= k < |r| ==> !r[k].isAdmin
    ensures forall u :: u in r <==> u in users && !u.isAdmin
    decreases |users|
  {
    if users == [] then []
    else if !users[0].isAdmin then [users[0]] + NonAdmins(users[1..])
    else NonAdmins(users[1..])
  }

  /** The filter keeps the relative order: filtering a concatenation is
      concatenating the filtered parts. */
  lemma {:induction false} NonAdminsAppend(a: seq<User>, b: seq<User>)
    ensures NonAdmins(a + b) == NonAdmins(a) + NonAdmins(b)
    decreases |a|
  {
    if a != [] {
      assert (a + b)[1..] == a[1..] + b;
      NonAdminsAppend(a[1..], b);
    } else {
      assert a + b == b;
    }
  }

  /** A list without admins passes the filter whole, so filtering twice is
      filtering once. */
  lemma {:induction false} NonAdminsKeepsNonAdmins(users: seq<User>)
    requires forall k :: 0 <= k < |users| ==> !users[k].isAdmin
    ensures NonAdmins(users) == users
    decreases |users|
  {
    if users != [] {
      NonAdminsKeepsNonAdmins(users[1..]);
    }
  }

  /** `getAllUsers`: a failed request propagates; otherwise the non-admins. */
  function GetAllUsers(reply: Outcome<seq<User>>): (r: Outcome<seq<User>>)
    ensures r.Failure? <==> reply.Failure?
    ensures reply.Failure? ==> r.thrown == reply.thrown
    ensures reply.Success? ==> r.data == NonAdmins(reply.data)
  {
    match reply
    case Success(users) => Success(NonAdmins(users))
    case Failure(e) => Failure(e)
  }

  /** `getEndpointStats`: a failed request is swallowed as the empty list. */
  function GetEndpointStats(reply: Outcome<seq<EndpointStat>>): (stats: seq<EndpointStat>)
    ensures reply.Failure? ==> stats == []
    ensures reply.Success? ==> stats == reply.data
  {
    match reply
    case Success(data) => data
    case Failure(_) => []
  }

  datatype Panel = Panel(users: seq<User>, endpointStats: seq<EndpointStat>, isLoading: bool, error: Option<string>)

  const InitialPanel := Panel([], [], true, None)

  /** `fetchUsers`: fetch the users, then the stats, store both, then fetch
      the users a second time and store that list. A failed users fetch
      sets the error and stops where it is; loading ends either way. */
  function FetchStep(p: Panel, first: Outcome<seq<User>>, stats: Outcome<seq<EndpointStat>>,
                     second: Outcome<seq<User>>): (q: Panel)
    ensures !q.isLoading
    ensures first.Failure? ==> q == p.(isLoading := false, error := Some(FetchFailedMessage))
    ensures first.Success? ==> q.endpointStats == GetEndpointStats(stats)
    ensures first.Success? && second.Success? ==> q.users == NonAdmins(second.data) && q.error == p.error
    ensures first.Success? && second.Failure? ==>
              q.users == NonAdmins(first.data) && q.error == Some(FetchFailedMessage)
    ensures forall k :: 0 <= k < |q.users| ==> !q.users[k].isAdmin || q.users == p.users
  {
    var loading := p.(isLoading := true);
    match GetAllUsers(first)
    case Failure(_) => loading.(error := Some(FetchFailedMessage), isLoading := false)
    case Success(usersData) =>
      var stored := loading.(users := usersData, endpointStats := GetEndpointStats(stats));
      match GetAllUsers(second)
      case Failure(_) => stored.(error := Some(FetchFailedMessage), isLoading := false)
      case Success(data) => stored.(users := data, isLoading := false)
  }

  /** The sum of the listed users' call counts, starting from 0, or
      None when some listed count is not a number. */
  function TotalApiCalls(users: seq<User>): (total: Option<int>)
    ensures users == [] ==> total == Some(0)
    ensures |users| == 1 && users[0].apiCalls.Count? ==> total == Some(users[0].apiCalls.n)
    ensures total.Some? <==> forall k :: 0 <= k < |users| ==> users[k].apiCalls.Count?
    decreases |users|
  {
    if users == [] then Some(0)
    else match (users[0].apiCalls, TotalApiCalls(users[1..]))
      case (Count(n), Some(rest)) => Some(n + rest)
      case _ => None
  }

  /** The total adds up over a split of the list. */
  lemma {:induction false} TotalApiCallsAppend(a: seq<User>, b: seq<User>)
    requires TotalApiCalls(a).Some? && TotalApiCalls(b).Some?
    ensures TotalApiCalls(a + b) == Some(TotalApiCalls(a).value + TotalApiCalls(b).value)
    decreases |a|
  {
    if a != [] {
      assert (a + b)[1..] == a[1..] + b;
      TotalApiCallsAppend(a[1..], b);
    } else {
      assert a + b == b;
    }
  }

  /** Counts that are never negative give a total that is never negative
      and no smaller than any one user's count. */
  lemma {:induction false} TotalApiCallsBounds(users: seq<User>, k: nat)
    requires forall j :: 0 <= j < |users| ==> users[j].apiCalls.Count? && users[j].apiCalls.n >= 0
    requires k < |users|
    ensures TotalApiCalls(users).Some?
    ensures users[k].apiCalls.n <= TotalApiCalls(users).value
    decreases |users|
  {
    if k > 0 {
      TotalApiCallsBounds(users[1..], k - 1);
    } else if |users| > 1 {
      TotalApiCallsBounds(users[1..], 0);
    }
  }

  /** The two stat cards: "Total Users" and "Total User Prompted API Calls". */
  datatype Totals = Totals(userCount: nat, apiCalls: Option<int>)

  function TotalsOf(p: Panel): (t: Totals)
    ensures t.userCount == |p.users|
    ensures t.apiCalls == TotalApiCalls(p.users)
    ensures p.users == [] ==> t == Totals(0, Some(0))
  {
    Totals(|p.users|, TotalApiCalls(p.users))
  }

  /** After a complete fetch the cards count exactly the non-admin users
      of the second list and sum their calls. */
  lemma TotalsAfterFetch(p: Panel, first: seq<User>, stats: Outcome<seq<EndpointStat>>, second: seq<User>)
    ensures
      var q := FetchStep(p, Success(first), stats, Success(second));
      TotalsOf(q) == Totals(|NonAdmins(second)|, TotalApiCalls(NonAdmins(second)))
  {
  }

  /** What a table body shows. */
  datatype Table<+T> = LoadingRow | EmptyRow(message: string) | Rows(rows: seq<T>)

  /** The user table: loading, the empty message, or one row per user. */
  function UserTable(p: Panel): (t: Table<User>)
    ensures t.LoadingRow? <==> p.isLoading
    ensures t.EmptyRow? <==> !p.isLoading && p.users == []
    ensures t.EmptyRow? ==> t.message == NoUsersMessage
    ensures t.Rows? ==> t.rows == p.users && t.rows != []
  {
    if p.isLoading then LoadingRow
    else if |p.users| == 0 then EmptyRow(NoUsersMessage)
    else Rows(p.users)
  }

  /** The endpoint table as written: its empty message is chosen on the
      length of the USER list. */
  function EndpointTable(p: Panel): (t: Table<EndpointStat>)
    ensures t.LoadingRow? <==> p.isLoading
    ensures t.EmptyRow? <==> !p.isLoading && p.users == []
    ensures t.EmptyRow? ==> t.message == NoEndpointStatsMessage
    ensures t.Rows? ==> t.rows == p.endpointStats
  {
    if p.isLoading then LoadingRow
    else if |p.users| == 0 then EmptyRow(NoEndpointStatsMessage)
    else Rows(p.endpointStats)
  }

  /** Two panels on which the table as written misleads: with statistics
      but no non-admin users it claims there are no statistics; with users
      but no statistics it shows neither rows nor the message. */
  lemma EndpointTableKeyedOnUsers(stat: EndpointStat, u: User)
    ensures EndpointTable(Panel([], [stat], false, None)) == EmptyRow(NoEndpointStatsMessage)
    ensures EndpointTable(Panel([u], [], false, None)) == Rows([])
  {
  }

  /** The endpoint table keyed on its own list, as its message intends. */
  function EndpointTableIntended(p: Panel): (t: Table<EndpointStat>)
    ensures t.LoadingRow? <==> p.isLoading
    ensures t.EmptyRow? <==> !p.isLoading && p.endpointStats == []
    ensures t.EmptyRow? ==> t.message == NoEndpointStatsMessage
    ensures t.Rows? ==> t.rows == p.endpointStats && t.rows != []
  {
    if p.isLoading then LoadingRow
    else if |p.endpointStats| == 0 then EmptyRow(NoEndpointStatsMessage)
    else Rows(p.endpointStats)
  }

  /** With the intended table, "no statistics" is shown exactly when a
      finished fetch found none, whatever the user list holds. */
  lemma IntendedTableReportsStats(p: Panel, first: seq<User>, stats: Outcome<seq<EndpointStat>>, second: Outcome<seq<User>>)
    ensures
      var q := FetchStep(p, Success(first), stats, second);
      EndpointTableIntended(q).EmptyRow? <==> GetEndpointStats(stats) == []
  {
  }

  /** What the page shows. A panel with an error shows nothing but the
      error line; otherwise the two cards and the two tables. */
  datatype PageView = ErrorView(text: string)
                    | Content(totals: Totals, endpointTable: Table<EndpointStat>, userTable: Table<User>)

  const ErrorPrefix := "Error: "

  /** The page as written, with the endpoint table keyed on the users. */
  function PageOf(p: Panel): (v: PageView)
    ensures v.ErrorView? <==> p.error.Some?
    ensures p.error.Some? ==> v.text == ErrorPrefix + p.error.value
    ensures p.error.None? ==>
              v.totals == TotalsOf(p) && v.endpointTable == EndpointTable(p) && v.userTable == UserTable(p)
  {
    match p.error
    case Some(message) => ErrorView(ErrorPrefix + message)
    case None => Content(TotalsOf(p), EndpointTable(p), UserTable(p))
  }

  /** The page with the endpoint table keyed on its own list. */
  function PageIntended(p: Panel): (v: PageView)
    ensures v.ErrorView? <==> p.error.Some?
    ensures p.error.Some? ==> v.text == ErrorPrefix + p.error.value
    ensures p.error.None? ==>
              v.totals == TotalsOf(p) && v.endpointTable == EndpointTableIntended(p) && v.userTable == UserTable(p)
  {
    match p.error
    case Some(message) => ErrorView(ErrorPrefix + message)
    case None => Content(TotalsOf(p), EndpointTableIntended(p), UserTable(p))
  }

  /** A failed users fetch, first or second, replaces the whole page by the
      error line: no cards and no tables. */
  lemma FailedFetchShowsOnlyError(p: Panel, first: Outcome<seq<User>>, stats: Outcome<seq<EndpointStat>>,
                                  second: Outcome<seq<User>>)
    ensures first.Failure? || second.Failure? ==>
              PageOf(FetchStep(p, first, stats, second)) == ErrorView(ErrorPrefix + FetchFailedMessage)
  {
  }

  /** On the intended page, "no statistics" is shown exactly when a fetch of
      a panel without an error completed and found no statistics. */
  lemma IntendedPageReportsStats(p: Panel, first: seq<User>, stats: Outcome<seq<EndpointStat>>,
                                 second: Outcome<seq<User>>)
    ensures
      var v := PageIntended(FetchStep(p, Success(first), stats, second));
      v.Content? && v.endpointTable.EmptyRow? <==>
        p.error.None? && second.Success? && GetEndpointStats(stats) == []
  {
  }

  class AdminPanel {
    var users: seq<User>
    var endpointStats: seq<EndpointStat>
    var isLoading: bool
    var error: Option<string>

    function PanelState(): Panel
      reads this
    {
      Panel(users, endpointStats, isLoading, error)
    }

    constructor ()
      ensures PanelState() == InitialPanel
    {
      users := [];
      endpointStats := [];
      isLoading := true;
      error := None;
    }

    method FetchUsers(first: Outcome<seq<User>>, stats: Outcome<seq<EndpointStat>>, second: Outcome<seq<User>>)
      modifies this
      ensures PanelState() == FetchStep(old(PanelState()), first, stats, second)
    {
      isLoading := true;
      var usersData := GetAllUsers(first);
      if usersData.Failure? {
        error := Some(FetchFailedMessage);
        isLoading := false;
        return;
      }
      var endpointsData := GetEndpointStats(stats);
      users := usersData.data;
      endpointStats := endpointsData;
      var data := GetAllUsers(second);
      if data.Failure? {
        error := Some(FetchFailedMessage);
        isLoading := false;
        return;
      }
      users := data.data;
      isLoading := false;
    }
  }
}
