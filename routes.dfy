/**
 * The HTTP handlers of the API blueprint that decide something: the check of a new server's
 * fields, the password removed from server records, and the natural-language query endpoint,
 * which picks the servers, runs the request on each and folds the results into one reply.
 * Flask, JSON encoding and the SSH and database calls are outside the model: what those calls
 * return is a parameter.
 */
module Routes {
  import opened Wrappers
  import opened Text
  import opened Remote
  import opened DB
  import SSH
  import Probes
  import Agent

  /** A handler's answer: the HTTP status and the JSON body. */
  datatype Reply<B> = Reply(status: int, body: B)

  // ---------------------------------------------------------------- server records

  /** The body of the server endpoints: a record, or `{'error': message}`. */
  datatype ServerBody = Record(record: map<string, Value>) | Error(error: string)

  /** A stored row as a client sees it: without its password, and otherwise unchanged. */
  function Redacted(row: map<string, Value>): (r: map<string, Value>)
    ensures r.Keys == row.Keys - {"password"}
    ensures forall k :: k in r ==> r[k] == row[k]
  {
    if "password" in row then row - {"password"} else row
  }

  /** get_server, for what the database lookup found (`SELECT *`, so credentials included). */
  function GetServer(found: Option<map<string, Value>>): (r: Reply<ServerBody>)
    ensures r.status == 200 <==> found.Some? && found.value != map[]
    ensures r.status == 200 ==> r.body == Record(Redacted(found.value))
    ensures r.status != 200 ==> r == Reply(404, Error("Server not found"))
  {
    if found.Some? && found.value != map[] then Reply(200, Record(Redacted(found.value)))
    else Reply(404, Error("Server not found"))
  }

  /** No record the server endpoints answer with carries a password. */
  lemma GetServerHidesPassword(found: Option<map<string, Value>>)
    ensures GetServer(found).body.Record? ==> "password" !in GetServer(found).body.record
  {
  }

  /** str() of the TypeError a body with a `server_id` key causes in `update_server(server_id, **data)`. */
  const DuplicateServerId := "update_server() got multiple values for argument 'server_id'"

  /**
   * update_server: 404 for an unknown server; otherwise the database update with the body's
   * keys, then the fresh row without its password, or 500 when nothing was updated. `before`
   * and `after` are what the lookups before and after the update found, `rowcount` how many
   * rows the UPDATE changed, and `failure` the text of the exception the UPDATE raised, if any,
   * which the handler answers with a 500.
   */
  method UpdateServer(serverId: ServerId, data: Object, before: Option<map<string, Value>>, rowcount: nat,
                      failure: Option<string>, after: Option<map<string, Value>>) returns (r: Reply<ServerBody>, issued: Option<Statement>)
    ensures before.None? || before.value == map[] ==> r == Reply(404, Error("Server not found")) && issued.None?
    ensures before.Some? && before.value != map[] && Has(data, "server_id") ==>
      r == Reply(500, Error(DuplicateServerId)) && issued.None?
    ensures before.Some? && before.value != map[] && !Has(data, "server_id") ==>
      && (Kept(data) == [] ==> issued.None?)
      && (Kept(data) != [] ==> issued == Some(Statement(UpdateSql(SetClause(Names(Kept(data)))), Values(Kept(data)) + [Str(serverId)])))
      && r == (if Kept(data) != [] && failure.Some? then Reply(500, Error(failure.value))
               else if Kept(data) == [] || rowcount == 0 then Reply(500, Error("Failed to update server"))
               else if after.None? then Reply(500, Error(Agent.NoneNotIterable))
               else Reply(200, Record(Redacted(after.value))))
  {
    if before.None? || before.value == map[] {
      return Reply(404, Error("Server not found")), None;
    }
    if Has(data, "server_id") {
      return Reply(500, Error(DuplicateServerId)), None;
    }
    var success, raised;
    success, issued, raised := DB.UpdateServer(serverId, data, rowcount, failure);
    if raised.Some? {
      return Reply(500, Error(raised.value)), issued;
    }
    if success {
      if after.None? {
        return Reply(500, Error(Agent.NoneNotIterable)), issued;
      }
      var updated := after.value;
      if "password" in updated {
        updated := updated - {"password"};
      }
      return Reply(200, Record(updated)), issued;
    }
    r := Reply(500, Error("Failed to update server"));
  }

  // ---------------------------------------------------------------- add_server

  /** The fields a new server must have, checked in this order. */
  const RequiredFields: seq<string> := ["name", "hostname", "username"]

  const NoCredential := "Either password or key_path must be provided"

  /** The first of `fields` the body lacks. */
  function FirstMissing(data: Object, fields: seq<string>): (r: Option<string>)
    ensures r.None? <==> forall i :: 0 <= i < |fields| ==> Has(data, fields[i])
    ensures r.Some? ==> exists i :: 0 <= i < |fields| && fields[i] == r.value && !Has(data, fields[i])
                                    && forall j :: 0 <= j < i ==> Has(data, fields[j])
  {
    if fields == [] then None
    else if !Has(data, fields[0]) then Some(fields[0])
    else
      var rest := FirstMissing(data, fields[1..]);
      assert forall i :: 0 < i < |fields| ==> fields[1..][i - 1] == fields[i];
      rest
  }

  /** What add_server answers for a body, the id it draws and the database's exception if any. */
  function AddServerReply(data: Option<Object>, freshId: ServerId, failure: Option<string>): Reply<ServerBody>
  {
    if data.None? then Reply(500, Error(Agent.NoneNotIterable))
    else
      var d := data.value;
      match FirstMissing(d, RequiredFields)
      case Some(field) => Reply(400, Error("Missing required field: " + field))
      case None =>
        if !IsTruthy(GetOr(d, "password", Null)) && !IsTruthy(GetOr(d, "key_path", Null)) then Reply(400, Error(NoCredential))
        else if failure.Some? then Reply(500, Error(failure.value))
        else Reply(201, Record(AddServerRecord(freshId, GetOr(d, "name", Null), GetOr(d, "hostname", Null),
                                               GetOr(d, "username", Null), GetOr(d, "password", Null),
                                               GetOr(d, "key_path", Null), GetOr(d, "port", Int(22)))))
  }

  /** add_server: the required fields one by one, then the credential, then the insert. */
  method AddServer(data: Option<Object>, freshId: ServerId, failure: Option<string>) returns (r: Reply<ServerBody>)
    ensures r == AddServerReply(data, freshId, failure)
  {
    if data.None? {
      return Reply(500, Error(Agent.NoneNotIterable));
    }
    var d := data.value;
    for i := 0 to |RequiredFields|
      invariant forall j :: 0 <= j < i ==> Has(d, RequiredFields[j])
    {
      if !Has(d, RequiredFields[i]) {
        assert FirstMissing(d, RequiredFields) == Some(RequiredFields[i]);
        return Reply(400, Error("Missing required field: " + RequiredFields[i]));
      }
    }
    if !IsTruthy(GetOr(d, "password", Null)) && !IsTruthy(GetOr(d, "key_path", Null)) {
      return Reply(400, Error(NoCredential));
    }
    if failure.Some? {
      return Reply(500, Error(failure.value));
    }
    var server := AddServerRecord(freshId, GetOr(d, "name", Null), GetOr(d, "hostname", Null),
                                  GetOr(d, "username", Null), GetOr(d, "password", Null),
                                  GetOr(d, "key_path", Null), GetOr(d, "port", Int(22)));
    r := Reply(201, Record(server));
  }

  /** The required fields are checked in order, and the first one missing is named. */
  lemma AddServerNamesFirstMissing(d: Object, freshId: ServerId, failure: Option<string>, i: nat)
    requires i < |RequiredFields| && !Has(d, RequiredFields[i])
    requires forall j :: 0 <= j < i ==> Has(d, RequiredFields[j])
    ensures AddServerReply(Some(d), freshId, failure) == Reply(400, Error("Missing required field: " + RequiredFields[i]))
  {
    var r := FirstMissing(d, RequiredFields);
    assert r.Some?;
    var k :| 0 <= k < |RequiredFields| && RequiredFields[k] == r.value && !Has(d, RequiredFields[k])
             && forall j :: 0 <= j < k ==> Has(d, RequiredFields[j]);
    assert k == i;
  }

  /**
   * A server is accepted (201) exactly when the body has the three fields and a truthy password
   * or key path and the insert succeeds; the record then carries no credential, and its port is
   * the body's or 22.
   */
  lemma AddServerAccepts(d: Object, freshId: ServerId, failure: Option<string>)
    ensures var r := AddServerReply(Some(d), freshId, failure);
      && (r.status == 201 <==>
            && (forall i :: 0 <= i < |RequiredFields| ==> Has(d, RequiredFields[i]))
            && (IsTruthy(GetOr(d, "password", Null)) || IsTruthy(GetOr(d, "key_path", Null)))
            && failure.None?)
      && (r.status == 201 ==>
            && r.body.Record? && "password" !in r.body.record && "key_path" !in r.body.record
            && r.body.record["id"] == Str(freshId)
            && r.body.record["port"] == (if Has(d, "port") then GetOr(d, "port", Null) else Int(22)))
  {
    var r := AddServerReply(Some(d), freshId, failure);
    if r.status == 201 && Has(d, "port") {
      var i :| 0 <= i < |d| && d[i] == ("port", GetOr(d, "port", Int(22)));
      var k :| 0 <= k < |d| && d[k] == ("port", GetOr(d, "port", Null));
      GetOrFirst(d, "port", Int(22), Null);
    }
  }

  /** When the key is present, the default does not matter. */
  lemma {:induction false} GetOrFirst(d: Object, key: string, a: Value, b: Value)
    requires Has(d, key)
    ensures GetOr(d, key, a) == GetOr(d, key, b)
  {
    if d[0].0 != key {
      assert Has(d[1..], key) by {
        var i :| 0 <= i < |d| && d[i].0 == key;
        assert i != 0 && d[1..][i - 1].0 == key;
      }
      GetOrFirst(d[1..], key, a, b);
    }
  }

  /** With all three fields present but neither credential truthy, the request is refused. */
  lemma AddServerNeedsCredential(d: Object, freshId: ServerId, failure: Option<string>)
    requires forall i :: 0 <= i < |RequiredFields| ==> Has(d, RequiredFields[i])
    requires !IsTruthy(GetOr(d, "password", Null)) && !IsTruthy(GetOr(d, "key_path", Null))
    ensures AddServerReply(Some(d), freshId, failure) == Reply(400, Error(NoCredential))
  {
  }

  /** An empty list or object, or 0.0, is no credential either: add_server tests truthiness. */
  lemma EmptyValuesAreNoCredential(d: Object, freshId: ServerId, failure: Option<string>)
    requires forall i :: 0 <= i < |RequiredFields| ==> Has(d, RequiredFields[i])
    requires GetOr(d, "password", Null) in {List([]), Dict([]), Real(0.0)} && !Has(d, "key_path")
    ensures AddServerReply(Some(d), freshId, failure) == Reply(400, Error(NoCredential))
  {
    AddServerNeedsCredential(d, freshId, failure);
  }

  // ---------------------------------------------------------------- natural_language_query

  /** The `data` of a per-server result. */
  datatype Data =
    | Picked(values: map<string, Option<Probes.MetricValue>>)          // the metrics the action asked for
    | Everything(metrics: Probes.Metrics)                              // the whole metrics dictionary
    | Ran(command: string, output: Option<(string, string)>, exitCode: int)  // stdout and stderr on success only

  /** One entry of `results`; `error` and `data` are absent from some entries. */
  datatype Entry = Entry(server: string, success: bool, message: string, error: Option<Probes.MetricValue>, data: Option<Data>)

  /** The bodies natural_language_query answers with. */
  datatype QueryBody =
    | Missing(error: string)                                 // {'error': ...}
    | Refused(message: string, parsed: Agent.Parsed)         // {'success': False, 'message', 'parsed_intent'}
    | Crashed(message: string)                               // {'success': False, 'message'} from the except
    | Single(entry: Entry, parsed: Agent.Parsed)             // the only result, with 'parsed_intent' added
    | Across(success: bool, message: string, parsed: Agent.Parsed, results: seq<Entry>)

  /**
   * What the calls into the SSH manager return for a server: whether a connection is already
   * open, whether a key file exists, the dialler, the metrics dictionary, the result of running
   * the command, and str() of a metric value (floats are not modelled).
   */
  datatype Backend = Backend(connected: ServerId -> bool, keyExists: string -> bool, dial: Dialer,
                             metricsOf: ServerId -> Probes.Metrics, execOf: (ServerId, string) -> SSH.CommandResult,
                             show: Probes.MetricValue -> string)

  /**
   * The connect the loop attempts for a server with no open connection. The rows come from
   * get_servers, which selects no credentials, so both `server.get` calls give None.
   */
  predicate Connects(row: ServerRow, b: Backend)
  {
    var auth := SSH.ChooseAuth(None, None, b.keyExists);
    auth.Some? && b.dial(auth.value).Connected?
  }

  /** The connect of the query loop never succeeds: it has no credential to try. */
  lemma NeverConnects(row: ServerRow, b: Backend)
    ensures !Connects(row, b)
  {
  }

  function ConnectFailure(name: string): Entry
  {
    Entry(name, false, "Failed to connect to server " + name, None, None)
  }

  /** `metrics.get(key, 'Unknown')` in an f-string. */
  function Shown(m: Probes.Metrics, key: string, show: Probes.MetricValue -> string): string
  {
    if key in m then show(m[key]) else "Unknown"
  }

  /** `metrics.get(key)`. */
  function Lookup(m: Probes.Metrics, key: string): Option<Probes.MetricValue>
  {
    if key in m then Some(m[key]) else None
  }

  /** `metrics['success']` is true (a dictionary without it reads as false here). */
  predicate MetricsOk(m: Probes.Metrics)
  {
    "success" in m && m["success"] == Probes.Flag(true)
  }

  /** The result entry for a metrics request on a connected server. */
  function MetricEntry(name: string, action: string, m: Probes.Metrics, show: Probes.MetricValue -> string): (e: Entry)
    ensures e.server == name && (e.success <==> MetricsOk(m))
    ensures !e.success ==> e.error == Some(if "error" in m then m["error"] else Probes.Str("Unknown error")) && e.data.None?
  {
    var error := Some(if "error" in m then m["error"] else Probes.Str("Unknown error"));
    if action == "cpu" then
      if MetricsOk(m) then
        Entry(name, true, "CPU usage on " + name + ": " + Shown(m, "cpu_usage", show) + "%", None,
              Some(Picked(map["cpu_usage" := Lookup(m, "cpu_usage")])))
      else Entry(name, false, "Failed to get CPU metrics from " + name, error, None)
    else if action == "memory" then
      if MetricsOk(m) then
        Entry(name, true, "Memory usage on " + name + ": " + Shown(m, "memory_percent", show) + "% ("
                          + Shown(m, "memory_used", show) + "MB / " + Shown(m, "memory_total", show) + "MB)", None,
              Some(Picked(map["memory_percent" := Lookup(m, "memory_percent"), "memory_used" := Lookup(m, "memory_used"),
                              "memory_total" := Lookup(m, "memory_total")])))
      else Entry(name, false, "Failed to get memory metrics from " + name, error, None)
    else if action == "disk" then
      if MetricsOk(m) then
        Entry(name, true, "Disk usage on " + name + ": " + Shown(m, "disk_percent", show) + "%", None,
              Some(Picked(map["disk_percent" := Lookup(m, "disk_percent")])))
      else Entry(name, false, "Failed to get disk metrics from " + name, error, None)
    else
      if MetricsOk(m) then
        Entry(name, true, "System metrics for " + name + ":\n"
                          + "- CPU: " + Shown(m, "cpu_usage", show) + "%\n"
                          + "- Memory: " + Shown(m, "memory_percent", show) + "% ("
                          + Shown(m, "memory_used", show) + "MB / " + Shown(m, "memory_total", show) + "MB)\n"
                          + "- Disk: " + Shown(m, "disk_percent", show) + "%\n"
                          + "- Load: " + Shown(m, "load_1", show) + " (1m), "
                          + Shown(m, "load_5", show) + " (5m), "
                          + Shown(m, "load_15", show) + " (15m)", None, Some(Everything(m)))
      else Entry(name, false, "Failed to get metrics from " + name, error, None)
  }

  /** The result entry for a command on a connected server; a failure reports its stderr. */
  function CommandEntry(name: string, command: string, r: SSH.CommandResult): (e: Entry)
    ensures e.server == name && e.success == r.success
    ensures e.data == Some(Ran(command, if r.success then Some((r.stdout, r.stderr)) else None, r.exitCode))
    ensures !e.success ==> e.error == Some(Probes.Str(r.stderr))
  {
    if r.success then
      Entry(name, true, "Command executed successfully on " + name, None,
            Some(Ran(command, Some((r.stdout, r.stderr)), r.exitCode)))
    else
      Entry(name, false, "Failed to execute command on " + name, Some(Probes.Str(r.stderr)),
            Some(Ran(command, None, r.exitCode)))
  }

  /** What one pass of the loop appends for a server: one entry, or none for an unknown intent. */
  function Outcome(row: ServerRow, intent: string, action: string, b: Backend): seq<Entry>
  {
    if !b.connected(row.id) && !Connects(row, b) then [ConnectFailure(row.name)]
    else if intent == "metrics" then [MetricEntry(row.name, action, b.metricsOf(row.id), b.show)]
    else if intent == "command" then [CommandEntry(row.name, action, b.execOf(row.id, action))]
    else []
  }

  /** The results list after the loop has visited `rows`. */
  function Results(rows: seq<ServerRow>, intent: string, action: string, b: Backend): seq<Entry>
  {
    if rows == [] then []
    else Results(rows[..|rows| - 1], intent, action, b) + Outcome(rows[|rows| - 1], intent, action, b)
  }

  /** The loop over the servers to process. */
  method ProcessServers(rows: seq<ServerRow>, intent: string, action: string, b: Backend) returns (results: seq<Entry>)
    ensures results == Results(rows, intent, action, b)
  {
    results := [];
    for i := 0 to |rows|
      invariant results == Results(rows[..i], intent, action, b)
    {
      assert rows[..i + 1][..i] == rows[..i];
      var server := rows[i];
      if !b.connected(server.id) {
        var connected := Connects(server, b);
        if !connected {
          results := results + [ConnectFailure(server.name)];
          continue;
        }
      }
      if intent == "metrics" {
        results := results + [MetricEntry(server.name, action, b.metricsOf(server.id), b.show)];
      } else if intent == "command" {
        results := results + [CommandEntry(server.name, action, b.execOf(server.id, action))];
      }
    }
    assert rows[..|rows|] == rows;
  }

  /** Python's all() over the entries' success. */
  predicate AllSucceeded(results: seq<Entry>)
  {
    forall i :: 0 <= i < |results| ==> results[i].success
  }

  /** The final reply for the results: one result flattened, otherwise the aggregate. */
  function Aggregate(results: seq<Entry>, p: Agent.Parsed): (r: Reply<QueryBody>)
    ensures r.status == 200 <==> AllSucceeded(results)
    ensures r.status == 200 || r.status == 500
  {
    if |results| == 1 then Reply(if results[0].success then 200 else 500, Single(results[0], p))
    else
      var overall := AllSucceeded(results);
      Reply(if overall then 200 else 500,
            Across(overall, "Processed query across " + NatToString(|results|) + " servers", p, results))
  }

  /** The servers whose name equals the target ignoring case, in list order. */
  function Matching(servers: seq<ServerRow>, target: string): (r: seq<ServerRow>)
    ensures forall x :: x in r <==> x in servers && SameIgnoringCase(x.name, target)
    ensures |r| <= |servers|
  {
    if servers == [] then []
    else
      var init, last := servers[..|servers| - 1], servers[|servers| - 1];
      assert forall x :: x in servers <==> x in init || x == last;
      Matching(init, target) + (if SameIgnoringCase(last.name, target) then [last] else [])
  }

  /** str() of the AttributeError `None.lower()` raises for a request with no target. */
  const NoneLower := "'NoneType' object has no attribute 'lower'"

  /** The 404 message for a missing target when there is no server to compare it with. */
  const NoneNotFound := "Server \"None\" not found."

  /**
   * The reply of natural_language_query for the request body, the parser, the configured
   * servers and the SSH outcomes.
   */
  function QueryReply(data: Option<Object>, parse: Value -> Agent.Parsed, servers: seq<ServerRow>, b: Backend): Reply<QueryBody>
  {
    if data.None? then Reply(500, Crashed("Error processing query: " + Agent.NoneNotIterable))
    else if !Has(data.value, "input") then Reply(400, Missing("Missing required field: input"))
    else
      var p := parse(GetOr(data.value, "input", Null));
      if !Truthy(p.intent) || !Truthy(p.action) then Reply(400, Refused("Could not understand the query.", p))
      else if p.target == Some("all") then
        if servers == [] then Reply(404, Refused("No servers are configured.", p))
        else Aggregate(Results(servers, p.intent.value, p.action.value, b), p)
      else if p.target.None? then
        if servers == [] then Reply(404, Refused(NoneNotFound, p))
        else Reply(500, Crashed("Error processing query: " + NoneLower))
      else
        var matching := Matching(servers, p.target.value);
        if matching == [] then Reply(404, Refused("Server \"" + p.target.value + "\" not found.", p))
        else Aggregate(Results(matching, p.intent.value, p.action.value, b), p)
  }

  /** natural_language_query: validate, pick the servers, run the loop, fold the results. */
  method NaturalLanguageQuery(data: Option<Object>, parse: Value -> Agent.Parsed, servers: seq<ServerRow>, b: Backend)
    returns (r: Reply<QueryBody>)
    ensures r == QueryReply(data, parse, servers, b)
  {
    if data.None? {
      return Reply(500, Crashed("Error processing query: " + Agent.NoneNotIterable));
    }
    if !Has(data.value, "input") {
      return Reply(400, Missing("Missing required field: input"));
    }
    var parsed := parse(GetOr(data.value, "input", Null));
    if !Truthy(parsed.intent) || !Truthy(parsed.action) {
      return Reply(400, Refused("Could not understand the query.", parsed));
    }
    var intent, action := parsed.intent.value, parsed.action.value;
    var toProcess: seq<ServerRow>;
    if parsed.target == Some("all") {
      if servers == [] {
        return Reply(404, Refused("No servers are configured.", parsed));
      }
      toProcess := servers;
    } else {
      if parsed.target.None? {
        if servers == [] {
          return Reply(404, Refused(NoneNotFound, parsed));
        }
        return Reply(500, Crashed("Error processing query: " + NoneLower));
      }
      var matching := Matching(servers, parsed.target.value);
      if matching == [] {
        return Reply(404, Refused("Server \"" + parsed.target.value + "\" not found.", parsed));
      }
      toProcess := matching;
    }
    var results := ProcessServers(toProcess, intent, action, b);
    var overall := AllSucceeded(results);
    if |results| == 1 {
      return Reply(if results[0].success then 200 else 500, Single(results[0], parsed));
    }
    r := Reply(if overall then 200 else 500,
               Across(overall, "Processed query across " + NatToString(|results|) + " servers", parsed, results));
  }

  // ---------------------------------------------------------------- what the query promises

  /** A request the parser could not turn into an intent and an action is refused with 400. */
  lemma QueryRefusesVague(d: Object, parse: Value -> Agent.Parsed, servers: seq<ServerRow>, b: Backend)
    requires Has(d, "input")
    requires var p := parse(GetOr(d, "input", Null)); !Truthy(p.intent) || !Truthy(p.action)
    ensures QueryReply(Some(d), parse, servers, b)
         == Reply(400, Refused("Could not understand the query.", parse(GetOr(d, "input", Null))))
  {
  }

  /** A named target no server's name matches, ignoring case, gives 404. */
  lemma QueryUnknownServer(d: Object, parse: Value -> Agent.Parsed, servers: seq<ServerRow>, b: Backend, t: string)
    requires Has(d, "input")
    requires var p := parse(GetOr(d, "input", Null)); Truthy(p.intent) && Truthy(p.action) && p.target == Some(t)
    requires t != "all" && forall i :: 0 <= i < |servers| ==> !SameIgnoringCase(servers[i].name, t)
    ensures QueryReply(Some(d), parse, servers, b).status == 404
  {
    MatchingEmptyIff(servers, t);
  }

  /**
   * A request with no target: the comparison that calls `None.lower()` only runs when there
   * is a server to compare, so with no servers the reply is the 404 for "None".
   */
  lemma QueryWithoutTarget(d: Object, parse: Value -> Agent.Parsed, servers: seq<ServerRow>, b: Backend)
    requires Has(d, "input")
    requires var p := parse(GetOr(d, "input", Null)); Truthy(p.intent) && Truthy(p.action) && p.target.None?
    ensures var r := QueryReply(Some(d), parse, servers, b);
      && (servers == [] ==> r == Reply(404, Refused(NoneNotFound, parse(GetOr(d, "input", Null)))))
      && (servers != [] ==> r == Reply(500, Crashed("Error processing query: " + NoneLower)))
  {
  }

  /** No server is selected exactly when no server's name matches the target ignoring case. */
  lemma MatchingEmptyIff(servers: seq<ServerRow>, t: string)
    ensures Matching(servers, t) == [] <==> forall i :: 0 <= i < |servers| ==> !SameIgnoringCase(servers[i].name, t)
  {
    var m := Matching(servers, t);
    if m != [] {
      assert m[0] in m;
    } else {
      forall i | 0 <= i < |servers| ensures !SameIgnoringCase(servers[i].name, t) {
        assert servers[i] in servers;
      }
    }
  }

  /**
   * For a metrics or command request the loop gives exactly one entry per server, in order, and
   * a server with no open connection gets the connect failure without any further work.
   */
  lemma {:induction false} OneEntryPerServer(rows: seq<ServerRow>, intent: string, action: string, b: Backend)
    requires intent == "metrics" || intent == "command"
    ensures var results := Results(rows, intent, action, b);
      && |results| == |rows|
      && forall i :: 0 <= i < |rows| ==>
           && results[i].server == rows[i].name
           && (!b.connected(rows[i].id) ==> results[i] == ConnectFailure(rows[i].name))
  {
    if rows != [] {
      var init := rows[..|rows| - 1];
      OneEntryPerServer(init, intent, action, b);
      OneOutcome(rows[|rows| - 1], intent, action, b);
      assert forall i :: 0 <= i < |init| ==> init[i] == rows[i];
    }
  }

  /** A metrics or command request adds one entry for the server, a failure when it is not connected. */
  lemma OneOutcome(row: ServerRow, intent: string, action: string, b: Backend)
    requires intent == "metrics" || intent == "command"
    ensures var o := Outcome(row, intent, action, b);
      |o| == 1 && o[0].server == row.name && (!b.connected(row.id) ==> o[0] == ConnectFailure(row.name))
  {
    NeverConnects(row, b);
  }

  /** With an intent the loop does not know, connected servers add nothing and the rest fail. */
  lemma {:induction false} UnknownIntentOnlyFailures(rows: seq<ServerRow>, intent: string, action: string, b: Backend)
    requires intent != "metrics" && intent != "command"
    ensures forall e :: e in Results(rows, intent, action, b) ==> !e.success
    ensures (forall i :: 0 <= i < |rows| ==> b.connected(rows[i].id)) ==> Results(rows, intent, action, b) == []
  {
    if rows != [] {
      var init := rows[..|rows| - 1];
      UnknownIntentOnlyFailures(init, intent, action, b);
      NeverConnects(rows[|rows| - 1], b);
      assert forall i :: 0 <= i < |init| ==> init[i] == rows[i];
    }
  }

  /**
   * The status is 200 exactly when every entry succeeded; a single entry comes back flattened,
   * any other number as the aggregate with the count.
   */
  lemma AggregateShape(results: seq<Entry>, p: Agent.Parsed)
    ensures var r := Aggregate(results, p);
      && (r.status == 200 <==> forall e :: e in results ==> e.success)
      && (|results| == 1 ==> r.body == Single(results[0], p))
      && (|results| != 1 ==> r.body == Across(AllSucceeded(results), "Processed query across " + NatToString(|results|) + " servers", p, results))
  {
  }

  /** Every entry for a server that had no open connection is a failure, whatever was asked. */
  lemma UnconnectedServersFail(rows: seq<ServerRow>, intent: string, action: string, b: Backend)
    requires intent == "metrics" || intent == "command"
    requires rows != [] && forall i :: 0 <= i < |rows| ==> !b.connected(rows[i].id)
    ensures Aggregate(Results(rows, intent, action, b), Agent.Parsed(Some(intent), Some(action), None)).status == 500
  {
    OneEntryPerServer(rows, intent, action, b);
    var results := Results(rows, intent, action, b);
    assert !results[0].success;
  }
}
