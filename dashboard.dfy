/** The dashboard: one connection hook and five feeds, all driven by the
    hook's connection id, the global refresh, the submit of the connection
    form, and what the screen shows. */
module Dashboard {
  import opened Base
  import opened Poller
  import Connection
  import Text
  import ConnectionForm
  import StatsFeed
  import IssuesFeed
  import JobsFeed
  import LogsFeed
  import PerformanceFeed

  /** The connection string the dashboard starts with. */
  const DefaultConnectionString := "Server=localhost;Database=master;User Id=sa;Password=yourStrong(!)Password;"

  /** The order in which the global refresh calls the feeds: stats, issues,
      jobs, logs, metrics. The metrics feed asks for the default history. */
  function FeedOrder(): (r: seq<FeedKind>)
    ensures |r| == 5 && r[4] == Performance(PerformanceFeed.DefaultHours)
  {
    [Status, Issues, Jobs, Logs, Performance(PerformanceFeed.DefaultHours)]
  }

  /** One feed as its card receives it. */
  datatype Panel<T> = Panel(data: T, isLoading: bool, error: Option<string>)

  /** What the connection form renders. */
  datatype FormView = FormView(
    displayed: string,
    inputDisabled: bool,
    submitDisabled: bool,
    buttonLabel: string,
    refreshShown: bool,
    refreshDisabled: bool,
    error: Option<string>)

  /** Below the form: the five cards while connected, a placeholder otherwise. */
  datatype Body =
    | Cards(
        stats: Panel<StatsFeed.Stats>,
        issues: Panel<seq<IssuesFeed.Issue>>,
        jobs: Panel<seq<JobsFeed.Job>>,
        metrics: Panel<seq<PerformanceFeed.MetricPoint>>,
        logs: Panel<seq<LogsFeed.LogEntry>>)
    | NotConnected

  datatype Screen = Screen(form: FormView, body: Body)

  class DashboardState {
    const conn: Connection.ConnectionHook
    const stats: Feed<StatsFeed.Stats>
    const issues: Feed<seq<IssuesFeed.Issue>>
    const jobs: Feed<seq<JobsFeed.Job>>
    const logs: Feed<seq<LogsFeed.LogEntry>>
    const metrics: Feed<seq<PerformanceFeed.MetricPoint>>

    /** Each feed asks for its own kind of data and reports its own fallback. */
    ghost predicate Wired()
      reads this, stats, issues, jobs, logs, metrics
    {
      && stats.kind == Status && stats.fallback == StatsFeed.Fallback
      && issues.kind == Issues && issues.fallback == IssuesFeed.Fallback
      && jobs.kind == Jobs && jobs.fallback == JobsFeed.Fallback
      && logs.kind == Logs && logs.fallback == LogsFeed.Fallback
      && metrics.kind == Performance(PerformanceFeed.DefaultHours) && metrics.fallback == PerformanceFeed.Fallback
    }

    /** Every feed polls under the hook's current id, and none polls without
      a truthy one. */
    ghost predicate Synced()
      reads this, conn, stats, issues, jobs, logs, metrics
    {
      var id := ActiveId(conn.connectionId);
      stats.timer == id && issues.timer == id && jobs.timer == id && logs.timer == id && metrics.timer == id
    }

    /** The feeds are wired and in step with the hook, and the hook holds an
      id only while connected. */
    ghost predicate Valid()
      reads this, conn, stats, issues, jobs, logs, metrics
    {
      Wired() && Synced() && conn.Paired()
    }

    /** A feed that is not loading, has no error and has never fetched. */
    static predicate Idle<T>(f: Feed<T>)
      reads f
    {
      !f.isLoading && f.error == None && f.lastUpdated == None
    }

    /** The dashboard as first rendered: the default connection string, no
      session, and feeds holding their initial data. The first run of each
      polling effect sees no id, so nothing is fetched. */
    constructor ()
      ensures Valid()
      ensures fresh(conn) && fresh(stats) && fresh(issues) && fresh(jobs) && fresh(logs) && fresh(metrics)
      ensures conn.connectionString == DefaultConnectionString
      ensures conn.connectionId == None && !conn.isConnected && !conn.isLoading && conn.error == None
      ensures conn.Consistent()
      ensures stats.data == StatsFeed.InitialStats()
      ensures issues.data == [] && jobs.data == [] && logs.data == [] && metrics.data == []
      ensures Idle(stats) && Idle(issues) && Idle(jobs) && Idle(logs) && Idle(metrics)
    {
      conn := new Connection.ConnectionHook(DefaultConnectionString);
      stats := new Feed(Status, StatsFeed.InitialStats(), StatsFeed.Fallback);
      issues := new Feed(Issues, [], IssuesFeed.Fallback);
      jobs := new Feed(Jobs, [], JobsFeed.Fallback);
      logs := new Feed(Logs, [], LogsFeed.Fallback);
      metrics := new Feed(Performance(PerformanceFeed.DefaultHours), [], PerformanceFeed.Fallback);
    }

    /** `handleRefresh`: starts the five fetches under the current id, each
      exactly once and in the order of FeedOrder, without waiting for any of
      them; their responses arrive later through each feed's CompleteFetch.
      Without a truthy id nothing is fetched. */
    method Refresh() returns (requests: seq<Request>)
      requires Valid()
      modifies stats, issues, jobs, logs, metrics
      ensures Valid()
      ensures requests == Requests(FeedOrder(), conn.connectionId)
      ensures stats.Began(conn.connectionId) && issues.Began(conn.connectionId) && jobs.Began(conn.connectionId)
      ensures logs.Began(conn.connectionId) && metrics.Began(conn.connectionId)
    {
      var id := conn.connectionId;
      var r1 := stats.BeginFetch(id);
      var r2 := issues.BeginFetch(id);
      var r3 := jobs.BeginFetch(id);
      var r4 := logs.BeginFetch(id);
      var r5 := metrics.BeginFetch(id);
      requests := Issued([r1, r2, r3, r4, r5]);
      FeedOrderRequests(id);
    }

    /** A change of the hook's id reruns the five polling effects, in the order
      the hooks are called; an unchanged id reruns none. */
    method Resync(previous: Option<string>) returns (requests: seq<Request>)
      requires Wired()
      modifies stats, issues, jobs, logs, metrics
      ensures Wired()
      ensures unchanged(conn)
      ensures conn.connectionId != previous && IsPresent(conn.connectionId) ==>
        stats.isLoading && issues.isLoading && jobs.isLoading && logs.isLoading && metrics.isLoading
      ensures stats.data == old(stats.data) && issues.data == old(issues.data) && jobs.data == old(jobs.data)
      ensures logs.data == old(logs.data) && metrics.data == old(metrics.data)
      ensures conn.connectionId == previous ==> requests == [] && unchanged(stats, issues, jobs, logs, metrics)
      ensures conn.connectionId != previous ==> Synced() && requests == Requests(FeedOrder(), conn.connectionId)
      ensures conn.connectionId != previous ==>
        stats.Began(conn.connectionId) && issues.Began(conn.connectionId) && jobs.Began(conn.connectionId) &&
        logs.Began(conn.connectionId) && metrics.Began(conn.connectionId)
    {
      if conn.connectionId == previous {
        return [];
      }
      var id := conn.connectionId;
      var r1 := stats.OnConnectionIdChange(id);
      var r2 := issues.OnConnectionIdChange(id);
      var r3 := jobs.OnConnectionIdChange(id);
      var r4 := logs.OnConnectionIdChange(id);
      var r5 := metrics.OnConnectionIdChange(id);
      requests := Issued([r1, r2, r3, r4, r5]);
      FeedOrderRequests(id);
    }

    /** Typing into the form: only the connection string changes. */
    method UpdateConnectionString(s: string)
      requires Valid()
      modifies conn
      ensures Valid()
      ensures conn.connectionString == s
      ensures conn.connectionId == old(conn.connectionId) && conn.isConnected == old(conn.isConnected)
      ensures conn.isLoading == old(conn.isLoading) && conn.error == old(conn.error)
    {
      conn.UpdateConnectionString(s);
    }

    /** The form's submit up to the backend call: `disconnect` when connected,
      `connect` otherwise. While the call is in flight the button reads
      `Connecting...`, whichever operation it is. */
    method Submit() returns (r: Connection.Begin)
      requires Valid()
      modifies conn
      ensures Valid()
      ensures conn.connectionString == old(conn.connectionString)
      ensures conn.connectionId == old(conn.connectionId) && conn.isConnected == old(conn.isConnected)
      ensures old(conn.isConnected) && IsPresent(old(conn.connectionId)) ==> r == Connection.Calling(old(conn.connectionId).value)
      ensures old(conn.isConnected) && !IsPresent(old(conn.connectionId)) ==>
        r == Connection.Returned(true) && conn.isLoading == old(conn.isLoading) && conn.error == old(conn.error)
      ensures !old(conn.isConnected) && old(conn.isLoading) ==>
        r == Connection.Returned(false) && conn.isLoading && conn.error == old(conn.error)
      ensures !old(conn.isConnected) && !old(conn.isLoading) && Text.IsBlank(old(conn.connectionString)) ==>
        r == Connection.Returned(false) && !conn.isLoading && conn.error == Some(Connection.RequiredMessage)
      ensures !old(conn.isConnected) && !ConnectionForm.SubmitDisabled(old(conn.isLoading), old(conn.connectionString)) ==>
        r == Connection.Calling(old(conn.connectionString))
      ensures r.Calling? ==> conn.isLoading && conn.error == None
      ensures r.Calling? ==> ConnectionForm.ButtonLabel(conn.isLoading, conn.isConnected) == "Connecting..."
    {
      if conn.isConnected {
        r := conn.BeginDisconnect();
      } else {
        if !ConnectionForm.SubmitDisabled(conn.isLoading, conn.connectionString) {
          ConnectionForm.EnabledSubmitPassesConnectGuards(conn.isLoading, conn.connectionString);
        }
        r := conn.BeginConnect();
      }
    }

    /** `connect` settles; if the id changed, every feed starts polling under
      the new one. */
    method CompleteConnect(outcome: Outcome<Option<string>>) returns (ok: bool, requests: seq<Request>)
      requires Valid()
      modifies conn, stats, issues, jobs, logs, metrics
      ensures Valid()
      ensures ok <==> outcome.Ok?
      ensures !conn.isLoading && conn.connectionString == old(conn.connectionString)
      ensures outcome.Ok? ==> conn.isConnected && conn.connectionId == outcome.payload && conn.error == old(conn.error)
      ensures outcome.Err? ==>
        conn.connectionId == old(conn.connectionId) && conn.isConnected == old(conn.isConnected) &&
        conn.error == Some(ErrorText(outcome.message, Connection.ConnectFallback))
      ensures conn.connectionId != old(conn.connectionId) ==> requests == Requests(FeedOrder(), conn.connectionId)
      ensures conn.connectionId == old(conn.connectionId) ==> requests == []
      ensures outcome.Ok? && IsPresent(outcome.payload) && outcome.payload != old(conn.connectionId) ==>
        |requests| == 5 && forall i :: 0 <= i < 5 ==> requests[i] == Fetch(FeedOrder()[i], outcome.payload.value)
      ensures stats.data == old(stats.data) && issues.data == old(issues.data) && jobs.data == old(jobs.data)
      ensures logs.data == old(logs.data) && metrics.data == old(metrics.data)
      ensures old(conn.Consistent()) && (outcome.Ok? ==> IsPresent(outcome.payload)) ==> conn.Consistent()
      ensures conn.connectionId != old(conn.connectionId) ==>
        stats.Began(conn.connectionId) && issues.Began(conn.connectionId) && jobs.Began(conn.connectionId) &&
        logs.Began(conn.connectionId) && metrics.Began(conn.connectionId)
      ensures conn.connectionId == old(conn.connectionId) ==> unchanged(stats, issues, jobs, logs, metrics)
    {
      var previous := conn.connectionId;
      ok := conn.CompleteConnect(outcome);
      requests := Resync(previous);
    }

    /** `disconnect` settles; on success the feeds stop polling, and keep
      the data they last fetched. */
    method CompleteDisconnect(outcome: Outcome<()>) returns (ok: bool, requests: seq<Request>)
      requires Valid()
      modifies conn, stats, issues, jobs, logs, metrics
      ensures Valid()
      ensures ok <==> outcome.Ok?
      ensures requests == []
      ensures !conn.isLoading && conn.connectionString == old(conn.connectionString)
      ensures outcome.Ok? ==> conn.connectionId == None && conn.error == old(conn.error)
      ensures outcome.Err? ==>
        conn.connectionId == old(conn.connectionId) && conn.isConnected == old(conn.isConnected) &&
        conn.error == Some(ErrorText(outcome.message, Connection.DisconnectFallback))
      ensures outcome.Ok? ==>
        !conn.isConnected && stats.timer == None && issues.timer == None && jobs.timer == None &&
        logs.timer == None && metrics.timer == None
      ensures stats.data == old(stats.data) && issues.data == old(issues.data) && jobs.data == old(jobs.data)
      ensures logs.data == old(logs.data) && metrics.data == old(metrics.data)
      ensures old(conn.Consistent()) ==> conn.Consistent()
      ensures conn.connectionId != old(conn.connectionId) ==>
        stats.Began(conn.connectionId) && issues.Began(conn.connectionId) && jobs.Began(conn.connectionId) &&
        logs.Began(conn.connectionId) && metrics.Began(conn.connectionId)
      ensures conn.connectionId == old(conn.connectionId) ==> unchanged(stats, issues, jobs, logs, metrics)
    {
      var previous := conn.connectionId;
      ok := conn.CompleteDisconnect(outcome);
      requests := Resync(previous);
    }

    /** The rendered screen, with the form's password shown or masked. */
    function View(passwordVisible: bool): (v: Screen)
      reads this, conn, stats, issues, jobs, logs, metrics
      ensures v.body.Cards? <==> conn.isConnected
      ensures v.form.displayed == ConnectionForm.DisplayConnectionString(conn.connectionString, passwordVisible)
      ensures v.form.refreshShown <==> conn.isConnected
      ensures v.body.Cards? ==>
        v.body.stats.data.totalSchemaObjects == Some(StatsFeed.TotalSchemaObjects(stats.data))
    {
      var form := FormView(
        ConnectionForm.DisplayConnectionString(conn.connectionString, passwordVisible),
        ConnectionForm.InputDisabled(conn.isConnected, conn.isLoading),
        ConnectionForm.SubmitDisabled(conn.isLoading, conn.connectionString),
        ConnectionForm.ButtonLabel(conn.isLoading, conn.isConnected),
        conn.isConnected,
        conn.isLoading,
        conn.error);
      if conn.isConnected then
        Screen(form, Cards(
          Panel(StatsFeed.Exposed(stats.data), stats.isLoading, stats.error),
          Panel(issues.data, issues.isLoading, issues.error),
          Panel(jobs.data, jobs.isLoading, jobs.error),
          Panel(metrics.data, metrics.isLoading, metrics.error),
          Panel(logs.data, logs.isLoading, logs.error)))
      else
        Screen(form, NotConnected)
    }
  }

  /** The five feeds' fetches under one id issue the requests of FeedOrder. */
  lemma FeedOrderRequests(id: Option<string>)
    ensures Issued([Started(Status, id), Started(Issues, id), Started(Jobs, id), Started(Logs, id),
                    Started(Performance(PerformanceFeed.DefaultHours), id)]) == Requests(FeedOrder(), id)
  {
    IssuedInOrder([Started(Status, id), Started(Issues, id), Started(Jobs, id), Started(Logs, id),
                   Started(Performance(PerformanceFeed.DefaultHours), id)], FeedOrder(), id);
  }

  lemma RequestsUnder(id: string)
    requires id != ""
    ensures Requests(FeedOrder(), Some(id)) ==
      [Fetch(Status, id), Fetch(Issues, id), Fetch(Jobs, id), Fetch(Logs, id), Fetch(Performance(PerformanceFeed.DefaultHours), id)]
  {
    var r := Requests(FeedOrder(), Some(id));
    assert |r| == 5;
  }

  /** Opening a session: typing a non-blank connection string and submitting
      it, with the backend answering a usable id, connects, shows the cards
      and starts the five feeds under that id, each with one immediate
      request. */
  method ConnectStartsFeeds(connectionString: string, id: string) returns (first: seq<Request>, connected: bool)
    requires !Text.IsBlank(connectionString)
    requires id != ""
    ensures connected
    ensures first == [Fetch(Status, id), Fetch(Issues, id), Fetch(Jobs, id), Fetch(Logs, id), Fetch(Performance(PerformanceFeed.DefaultHours), id)]
  {
    var d := new DashboardState();
    d.UpdateConnectionString(connectionString);
    var connect := d.Submit();
    assert connect == Connection.Calling(connectionString);
    var ok;
    ok, first := d.CompleteConnect(Ok(Some(id)));
    RequestsUnder(id);
    connected := d.View(false).body.Cards?;
  }
}
