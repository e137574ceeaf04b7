/** The dashboard page's mutable state and the handlers that change it:
    the connection configuration, the browser storage it is persisted in,
    the current orders page and the activity log shown in the sidebar.
    Clock readings, confirmation dialogs and network replies are method
    parameters. */
module Dashboard {
  import opened Common
  import opened Settings
  import opened ApiClient
  import opened Views

  // ---------------------------------------------------------- activity log

  datatype Severity = Info | Error

  datatype LogEntry = LogEntry(time: string, message: string, severity: Severity)

  const MaxEntries := 20

  /** The log after adding `e`: newest first, at most MaxEntries long,
      the oldest entries dropped. */
  function Logged(log: seq<LogEntry>, e: LogEntry): seq<LogEntry>
  {
    var full := [e] + log;
    if |full| > MaxEntries then full[..MaxEntries] else full
  }

  /** The new entry is first, the log never exceeds its bound, and the
      survivors are the newest old entries in their old order. */
  lemma LoggedShape(log: seq<LogEntry>, e: LogEntry)
    ensures var r := Logged(log, e);
      && 1 <= |r| <= MaxEntries && r[0] == e
      && |r| == (if |log| + 1 < MaxEntries then |log| + 1 else MaxEntries)
      && r[1..] == log[..|r| - 1]
  {
  }

  /** A 21st entry pushes exactly the oldest one out. */
  lemma LoggedEvictsOldest(log: seq<LogEntry>, e: LogEntry)
    requires |log| == MaxEntries
    ensures Logged(log, e) == [e] + log[..MaxEntries - 1]
  {
  }

  // ------------------------------------------------------------ pagination

  /** The page after moving by `delta`: the requested page, or 1 when that
      would fall below the first page. */
  function NextPage(page: int, delta: int): (p: int)
    ensures p >= 1
    ensures p == page + delta || (p == 1 && page + delta < 1)
  {
    if page + delta < 1 then 1 else page + delta
  }

  /** Going back from the first page stays there. */
  lemma FirstPageIsSticky()
    ensures NextPage(1, -1) == 1
  {
  }

  class DashboardApp {
    var config: Config
    var store: Store
    var currentPage: int
    var activity: seq<LogEntry>

    ghost predicate Valid()
      reads this
    {
      currentPage >= 1 && |activity| <= MaxEntries
    }

    /** The page as it starts, before settings are loaded. */
    constructor (initialStore: Store)
      ensures Valid()
      ensures config == Defaults && store == initialStore
      ensures currentPage == 1 && activity == []
    {
      config := Defaults;
      store := initialStore;
      currentPage := 1;
      activity := [];
    }

    /** Reads the four keys; each non-empty stored value replaces the
        current one, and the debug flag is on only for the text "true". */
    method LoadConfiguration()
      modifies this`config
      ensures config == LoadedConfig(store, old(config))
    {
      var endpoint := Stored(store, EndpointKey);
      if endpoint.Some? {
        config := config.(endpoint := endpoint.value);
      }
      var key := Stored(store, ApiKeyKey);
      if key.Some? {
        config := config.(apiKey := key.value);
      }
      var region := Stored(store, RegionKey);
      if region.Some? {
        config := config.(region := region.value);
      }
      var debug := Stored(store, DebugKey);
      if debug.Some? {
        config := config.(debug := debug.value == "true");
      }
    }

    /** The settings panel's save: the endpoint and key inputs are trimmed
        and validated; on any error nothing is stored, the configuration is
        unchanged and nothing is requested. Otherwise all four values are
        stored and become the configuration, and the dashboard is reloaded
        with them (the reply to that reload is a parameter). */
    method SaveSettings(endpointInput: string, keyInput: string, region: string, debug: bool,
                        reply: Reply<ListReply>, elapsedMs: nat, time: string)
      returns (errors: FieldErrors, stats: Option<Stats>, sent: Option<Request>)
      requires Valid()
      modifies this`store, this`config, this`activity
      ensures Valid()
      ensures errors == ValidateSettings(Trim(endpointInput), Trim(keyInput))
      ensures errors.HasError() ==>
                && store == old(store) && config == old(config) && activity == old(activity)
                && stats == None && sent == None
      ensures !errors.HasError() ==>
                && config == Config(Trim(endpointInput), Trim(keyInput), region, debug)
                && IsConfigured(config)
                && store == Persisted(old(store), config)
                && sent == Some(BuildRequest(config, DashboardPath, GET, None).value)
                && sent.value.url == config.endpoint + DashboardPath
                && (stats.Some? <==> ReplyOutcome(reply).Ok?)
                && (stats.Some? ==> stats.value == DashboardStats(ReplyOutcome(reply).value))
                && activity == Logged(old(activity), LogEntry(time,
                     ActivityLine(GET, DashboardPath, ReplyOutcome(reply), elapsedMs),
                     if ReplyOutcome(reply).Ok? then Info else Error))
    {
      var endpoint := Trim(endpointInput);
      var key := Trim(keyInput);
      errors := ValidateSettings(endpoint, key);
      if errors.HasError() {
        return errors, None, None;
      }
      store := store[EndpointKey := endpoint][ApiKeyKey := key][RegionKey := region][DebugKey := FlagText(debug)];
      config := Config(endpoint, key, region, debug);
      stats, sent := LoadDashboard(reply, elapsedMs, time);
    }

    /** "Clear all": after confirmation the four keys are deleted and the
        configuration returns to its defaults; declining changes nothing. */
    method ClearAllSettings(confirmed: bool)
      modifies this`store, this`config
      ensures !confirmed ==> store == old(store) && config == old(config)
      ensures confirmed ==> store == Cleared(old(store)) && config == Defaults && !IsConfigured(config)
    {
      if !confirmed {
        return;
      }
      store := store - {EndpointKey};
      store := store - {ApiKeyKey};
      store := store - {RegionKey};
      store := store - {DebugKey};
      config := Config("", "", DefaultRegion, false);
    }

    /** Moves the orders view by `delta` pages, never below page 1, and
        reloads the orders list for the new page: the list request goes
        through the request helper, so it is refused without a
        configuration and otherwise sent and logged. The reply is a
        parameter; the rows it holds only feed the table. */
    method ChangePage(delta: int, reply: Reply<ListReply>, elapsedMs: nat, time: string)
      returns (sent: Option<Request>)
      requires Valid()
      modifies this`currentPage, this`activity
      ensures Valid()
      ensures currentPage == NextPage(old(currentPage), delta)
      ensures !IsConfigured(config) ==> sent == None && activity == old(activity)
      ensures IsConfigured(config) ==>
                && sent == Some(BuildRequest(config, OrdersPagePath(currentPage), GET, None).value)
                && activity == Logged(old(activity), LogEntry(time,
                     ActivityLine(GET, OrdersPagePath(currentPage), ReplyOutcome(reply), elapsedMs),
                     if ReplyOutcome(reply).Ok? then Info else Error))
    {
      currentPage := currentPage + delta;
      if currentPage < 1 {
        currentPage := 1;
      }
      var listed;
      listed, sent := ApiCall(OrdersPagePath(currentPage), GET, None, reply, elapsedMs, time);
    }

    /** Adds an entry at the top of the log, then removes entries from the
        bottom while there are more than MaxEntries. */
    method LogActivity(message: string, severity: Severity, time: string)
      requires Valid()
      modifies this`activity
      ensures Valid()
      ensures activity == Logged(old(activity), LogEntry(time, message, severity))
      ensures |activity| <= MaxEntries
    {
      var full := [LogEntry(time, message, severity)] + activity;
      activity := full;
      while |activity| > MaxEntries
        invariant |activity| <= |full| && activity == full[..|activity|]
        invariant |full| > MaxEntries ==> |activity| >= MaxEntries
        invariant |full| <= MaxEntries ==> activity == full
        decreases |activity|
      {
        activity := activity[..|activity| - 1];
      }
    }

    /** The request helper. Without endpoint and key it fails at once with
        "API not configured": no request is made and nothing is logged.
        Otherwise it makes the request, turns the reply into a value or an
        error message and logs one entry saying which. */
    method ApiCall<T>(path: string, m: HttpMethod, body: Option<string>, reply: Reply<T>, elapsedMs: nat, time: string)
      returns (r: Result<T, string>, sent: Option<Request>)
      requires Valid()
      modifies this`activity
      ensures Valid()
      ensures !IsConfigured(config) ==>
                r == Err(NotConfiguredMsg) && sent == None && activity == old(activity)
      ensures IsConfigured(config) ==>
                && sent == Some(BuildRequest(config, path, m, body).value)
                && r == ReplyOutcome(reply)
                && activity == Logged(old(activity),
                     LogEntry(time, ActivityLine(m, path, r, elapsedMs), if r.Ok? then Info else Error))
      ensures |old(activity)| <= MaxEntries ==> |activity| <= MaxEntries
    {
      var request := BuildRequest(config, path, m, body);
      if request.Err? {
        return Err(request.error), None;
      }
      sent := Some(request.value);
      r := ReplyOutcome(reply);
      var line := ActivityLine(m, path, r, elapsedMs);
      LogActivity(line, if r.Ok? then Info else Error, time);
    }

    /** Loading the dashboard: fetch up to 100 orders and compute the
        figures; a failed call leaves the figures unset. */
    method LoadDashboard(reply: Reply<ListReply>, elapsedMs: nat, time: string)
      returns (stats: Option<Stats>, sent: Option<Request>)
      requires Valid()
      modifies this`activity
      ensures Valid()
      ensures IsConfigured(config) ==>
                && sent == Some(BuildRequest(config, DashboardPath, GET, None).value)
                && sent.value.url == config.endpoint + DashboardPath
      ensures stats.Some? <==> IsConfigured(config) && ReplyOutcome(reply).Ok?
      ensures stats.Some? ==> stats.value == DashboardStats(ReplyOutcome(reply).value)
      ensures !IsConfigured(config) ==> sent == None && activity == old(activity)
      ensures IsConfigured(config) ==>
                activity == Logged(old(activity), LogEntry(time,
                  ActivityLine(GET, DashboardPath, ReplyOutcome(reply), elapsedMs),
                  if ReplyOutcome(reply).Ok? then Info else Error))
    {
      var r;
      r, sent := ApiCall(DashboardPath, GET, None, reply, elapsedMs, time);
      if r.Err? {
        return None, sent;
      }
      stats := Some(DashboardStats(r.value));
    }
  }

  /** Saving valid settings and then reloading the page restores them. */
  method SaveThenReload(endpoint: string, key: string, region: string, debug: bool, initialStore: Store,
                        reply: Reply<ListReply>)
    returns (before: Config, after: Config)
    requires region != ""
    ensures !ValidateSettings(Trim(endpoint), Trim(key)).HasError() ==>
              before == after == Config(Trim(endpoint), Trim(key), region, debug)
  {
    var page := new DashboardApp(initialStore);
    page.LoadConfiguration();
    var errors, _, _ := page.SaveSettings(endpoint, key, region, debug, reply, 0, "");
    before := page.config;
    var reloaded := new DashboardApp(page.store);
    reloaded.LoadConfiguration();
    after := reloaded.config;
    if !errors.HasError() {
      SaveLoadRoundTrip(initialStore, before, Defaults);
    }
  }
}
