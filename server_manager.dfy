/**
 * ServerManager (server_manager.py): the registry of servers, loaded from and written to the
 * `servers` table, with one cached paramiko client per server. Unlike SSHManager it connects
 * on demand: every command first asks _get_connection, which dials when there is no client.
 * The table is modelled as a map from id to row; the network is reached only through the
 * oracles of `Remote`, and `calls` records every call made on it.
 */
module Servers {
  import opened Wrappers
  import opened Text
  import opened Remote
  import opened Ordered
  import opened Probes

  /** A row of the `servers` table, which is also the in-memory dictionary value. */
  datatype Server = Server(id: ServerId, name: string, hostname: string, username: string,
                           password: Option<string>, keyPath: Option<string>, port: int)

  /** What add_server returns and list_servers lists: no password and no key path. */
  datatype Summary = Summary(id: ServerId, name: string, hostname: string, username: string, port: int)

  function SummaryOf(s: Server): Summary
  {
    Summary(s.id, s.name, s.hostname, s.username, s.port)
  }

  /** A Python call that returns a value or raises an exception (its str() is `message`). */
  datatype Raise<T> = Returns(value: T) | Raises(message: string)

  /** The dictionary execute_command returns. */
  datatype CommandOutput = CommandOutput(stdout: string, stderr: string, exitCode: int)

  /** The timeout every command is run with. */
  const ExecTimeout := 30

  /** sqlite's message when an INSERT repeats a primary key. */
  const DuplicateId := "UNIQUE constraint failed: servers.id"

  const ExecPrefix := "Error executing command: "
  const ConnectPrefix := "Failed to connect to server: "

  function NotFound(id: ServerId): string
  {
    "Server with ID " + id + " not found"
  }

  /** The one authentication _get_connection attempts: the key file if a key path is set, else the password. */
  function AuthOf(s: Server): Auth
  {
    if Truthy(s.keyPath) then KeyFile(s.keyPath.value) else PasswordAuth(s.password)
  }

  /** _get_connection in a state: the cached client, a new one, or the exception raised. */
  function Reach(id: ServerId, servers: map<ServerId, Server>, conns: map<ServerId, ClientId>, dial: Dialer): (r: Raise<ClientId>)
    ensures id in conns ==> r == Returns(conns[id])
    ensures id !in conns && id !in servers ==> r == Raises(NotFound(id))
    ensures id !in conns && id in servers ==>
      match dial(AuthOf(servers[id]))
      case Connected(c) => r == Returns(c)
      case ConnectFailed(msg) => r == Raises(ConnectPrefix + msg)
  {
    if id in conns then Returns(conns[id])
    else if id !in servers then Raises(NotFound(id))
    else match dial(AuthOf(servers[id]))
      case Connected(c) => Returns(c)
      case ConnectFailed(msg) => Raises(ConnectPrefix + msg)
  }

  /** The dial _get_connection makes in a state: none when a client is cached or the id is unknown. */
  function DialCalls(id: ServerId, servers: map<ServerId, Server>, conns: map<ServerId, ClientId>): seq<RemoteCall>
  {
    if id in conns || id !in servers then []
    else
      var s := servers[id];
      [Dial(s.hostname, s.port, s.username, AuthOf(s))]
  }

  /** The client cache after _get_connection: a new client is kept, a failure keeps nothing. */
  function Settled(id: ServerId, conns: map<ServerId, ClientId>, reach: Raise<ClientId>): map<ServerId, ClientId>
  {
    if reach.Returns? then conns[id := reach.value] else conns
  }

  /**
   * Asking again after _get_connection gives the same answer; only a failed attempt dials
   * again, and then the same way.
   */
  lemma ReachAgain(id: ServerId, servers: map<ServerId, Server>, conns: map<ServerId, ClientId>, dial: Dialer)
    ensures var r := Reach(id, servers, conns, dial);
      var conns' := Settled(id, conns, r);
      && Reach(id, servers, conns', dial) == r
      && DialCalls(id, servers, conns') == (if r.Returns? then [] else DialCalls(id, servers, conns))
      && Settled(id, conns', r) == conns'
  {
  }

  /** execute_command's dictionary, for what _get_connection did and what the command did. */
  function OutputOf(reach: Raise<ClientId>, shell: Shell, command: string): (r: CommandOutput)
    ensures reach.Raises? ==> r == CommandOutput("", ExecPrefix + reach.message, -1)
    ensures reach.Returns? ==>
      match shell(reach.value, command)
      case Completed(code, out, err) => r == CommandOutput(out, err, code)
      case ExecFailed(msg) => r == CommandOutput("", ExecPrefix + msg, -1)
  {
    match reach
    case Raises(msg) => CommandOutput("", ExecPrefix + msg, -1)
    case Returns(c) =>
      match shell(c, command)
      case Completed(code, out, err) => CommandOutput(out, err, code)
      case ExecFailed(msg) => CommandOutput("", ExecPrefix + msg, -1)
  }

  /** Every failure inside execute_command comes back as exit code -1, no stdout and a prefixed message. */
  lemma FailuresAreReported(reach: Raise<ClientId>, shell: Shell, command: string)
    requires reach.Raises? || shell(reach.value, command).ExecFailed?
    ensures var r := OutputOf(reach, shell, command);
      r.exitCode == -1 && r.stdout == "" && ExecPrefix <= r.stderr
  {
  }

  /** The command execute_command sends, when it has a client. */
  function ExecCalls(reach: Raise<ClientId>, command: string): seq<RemoteCall>
  {
    if reach.Returns? then [Exec(reach.value, command, ExecTimeout)] else []
  }

  /** What get_metrics' gate sees of a command: exit code 0, and the stdout. */
  function InputOfOutput(r: CommandOutput): ProbeInput
  {
    ProbeInput(r.exitCode == 0, r.stdout)
  }

  /** The input each probe's command gives, once _get_connection's answer is fixed. */
  function MetricInputs(reach: Raise<ClientId>, shell: Shell): Probe -> ProbeInput
  {
    p => InputOfOutput(OutputOf(reach, shell, Command(p)))
  }

  /** `s` repeated `n` times. */
  function Repeat(s: seq<RemoteCall>, n: nat): (r: seq<RemoteCall>)
    ensures |r| == |s| * n
  {
    if n == 0 then [] else Repeat(s, n - 1) + s
  }

  /**
   * The calls of get_metrics' first `n` commands, where `dials` is the dial _get_connection
   * makes on the first: with a client, that dial once and then the commands; without one,
   * each command dials again (for an unknown id or a cached client `dials` is empty).
   */
  function MetricsCalls(reach: Raise<ClientId>, dials: seq<RemoteCall>, n: nat): seq<RemoteCall>
    requires n <= |Battery|
  {
    if n == 0 then []
    else match reach
      case Returns(c) => dials + ProbeCalls(c, Battery[..n], ExecTimeout)
      case Raises(_) => Repeat(dials, n)
  }

  /** The ids of the rows, in the order they were fetched. */
  function Ids(rows: seq<Server>): (r: seq<ServerId>)
    ensures |r| == |rows|
    ensures forall i :: 0 <= i < |rows| ==> r[i] == rows[i].id
  {
    seq(|rows|, i requires 0 <= i < |rows| => rows[i].id)
  }

  /** The dictionary _load_servers builds from the fetched rows: the last row with an id wins. */
  function Rows(rows: seq<Server>): (r: map<ServerId, Server>)
    ensures forall id :: id in r <==> id in Ids(rows)
    ensures forall id :: id in r ==> r[id].id == id
  {
    if rows == [] then map[]
    else
      var init, last := rows[..|rows| - 1], rows[|rows| - 1];
      assert Ids(rows) == Ids(init) + [last.id];
      Rows(init)[last.id := last]
  }

  lemma RowsNext(rows: seq<Server>, i: nat)
    requires i < |rows|
    ensures Rows(rows[..i + 1]) == Rows(rows[..i])[rows[i].id := rows[i]]
  {
    assert rows[..i + 1][..i] == rows[..i];
  }

  /** The dictionary's key order after loading: each id where its first row put it. */
  function FirstIds(rows: seq<Server>): (r: seq<ServerId>)
    ensures Distinct(r)
    ensures forall id :: id in r <==> id in Ids(rows)
  {
    if rows == [] then []
    else
      var init, last := rows[..|rows| - 1], rows[|rows| - 1];
      assert Ids(rows) == Ids(init) + [last.id];
      var r := FirstIds(init);
      if last.id in r then r
      else
        DistinctSnoc(r, last.id);
        r + [last.id]
  }

  /** With distinct ids (the table's primary key) the key order is the fetch order itself. */
  lemma {:induction false} FirstIdsDistinct(rows: seq<Server>)
    requires Distinct(Ids(rows))
    ensures FirstIds(rows) == Ids(rows)
  {
    if rows != [] {
      var init, last := rows[..|rows| - 1], rows[|rows| - 1];
      assert Ids(rows) == Ids(init) + [last.id];
      DistinctSnoc(Ids(init), last.id);
      FirstIdsDistinct(init);
    }
  }

  /** list_servers for a key order: the summary of each server, in that order. */
  function Summaries(ids: seq<ServerId>, servers: map<ServerId, Server>): (r: seq<Summary>)
    requires forall id :: id in ids ==> id in servers
    ensures |r| == |ids|
    ensures forall i :: 0 <= i < |ids| ==> r[i] == SummaryOf(servers[ids[i]])
  {
    seq(|ids|, i requires 0 <= i < |ids| => SummaryOf(servers[ids[i]]))
  }

  /** Where the ids are the servers' own, the listed ids are the key order itself. */
  lemma SummariesIds(ids: seq<ServerId>, servers: map<ServerId, Server>)
    requires forall id :: id in ids ==> id in servers && servers[id].id == id
    ensures forall i :: 0 <= i < |ids| ==> Summaries(ids, servers)[i].id == ids[i]
  {
  }

  /** Listing after adding a server to the end of the order lists it last. */
  lemma SummariesSnoc(ids: seq<ServerId>, servers: map<ServerId, Server>, s: Server)
    requires forall id :: id in ids ==> id in servers
    requires s.id !in ids
    ensures Summaries(ids + [s.id], servers[s.id := s]) == Summaries(ids, servers) + [SummaryOf(s)]
  {
  }

  class ServerManager {
    /** self.servers: every registered server, by id. */
    var servers: map<ServerId, Server>
    /** The keys of `servers` in dictionary order. */
    var order: seq<ServerId>
    /** The rows of the `servers` table. */
    var table: map<ServerId, Server>
    /** self.connections: the cached clients. */
    var connections: map<ServerId, ClientId>
    /** Every call made on the network or on a client, oldest first. */
    var calls: seq<RemoteCall>

    /** The dictionary mirrors the table, each row sits under its own id, and the order lists the keys once each. */
    ghost predicate Valid()
      reads this
    {
      && Distinct(order)
      && (forall id :: id in servers <==> id in order)
      && (forall id :: id in servers ==> servers[id].id == id)
      && table == servers
    }

    /** __init__ with _load_servers: the rows the SELECT fetched become the dictionary, in fetch order. */
    constructor(rows: seq<Server>)
      ensures Valid()
      ensures servers == Rows(rows) && table == Rows(rows)
      ensures order == FirstIds(rows)
      ensures Distinct(Ids(rows)) ==> order == Ids(rows)
      ensures connections == map[] && calls == []
    {
      var loaded: map<ServerId, Server> := map[];
      var keys: seq<ServerId> := [];
      for i := 0 to |rows|
        invariant loaded == Rows(rows[..i])
        invariant keys == FirstIds(rows[..i])
        invariant Distinct(keys) && forall id :: id in loaded <==> id in keys
      {
        var row := rows[i];
        RowsNext(rows, i);
        assert rows[..i + 1][..i] == rows[..i] && rows[..i + 1][i] == row;
        if row.id !in loaded {
          DistinctSnoc(keys, row.id);
          keys := keys + [row.id];
        }
        loaded := loaded[row.id := row];
      }
      assert rows[..|rows|] == rows;
      if Distinct(Ids(rows)) {
        FirstIdsDistinct(rows);
      }
      servers, order, table := loaded, keys, loaded;
      connections, calls := map[], [];
    }

    /** list_servers: the summaries in dictionary order. */
    function ListServers(): (r: seq<Summary>)
      requires Valid()
      reads this
      ensures |r| == |order| == |servers|
      ensures forall i :: 0 <= i < |r| ==> r[i] == SummaryOf(servers[order[i]]) && r[i].id == order[i]
    {
      SummariesIds(order, servers);
      MapSize(order, servers);
      Summaries(order, servers)
    }

    /**
     * add_server: the row is inserted into the table (sqlite refuses a repeated id) and then
     * into the dictionary; the summary is returned.
     */
    method AddServer(name: string, hostname: string, username: string, password: Option<string>,
                     keyPath: Option<string>, port: int, freshId: ServerId) returns (r: Raise<Summary>)
      requires Valid()
      modifies this
      ensures Valid()
      ensures freshId in old(table) ==>
        && r == Raises(DuplicateId)
        && servers == old(servers) && table == old(table) && order == old(order)
      ensures freshId !in old(table) ==>
        var s := Server(freshId, name, hostname, username, password, keyPath, port);
        && r == Returns(SummaryOf(s))
        && servers == old(servers)[freshId := s] && table == old(table)[freshId := s]
        && order == old(order) + [freshId]
        && ListServers() == old(ListServers()) + [SummaryOf(s)]
      ensures connections == old(connections) && calls == old(calls)
    {
      var s := Server(freshId, name, hostname, username, password, keyPath, port);
      if freshId in table {
        return Raises(DuplicateId);
      }
      table := table[freshId := s];
      SummariesSnoc(order, servers, s);
      DistinctSnoc(order, freshId);
      servers := servers[freshId := s];
      order := order + [freshId];
      r := Returns(SummaryOf(s));
    }

    /**
     * disconnect: close the cached client and drop it; a close that raises propagates and
     * keeps the client.
     */
    method Disconnect(id: ServerId, close: ClientId -> CloseOutcome) returns (r: Raise<bool>)
      modifies this
      ensures id !in old(connections) ==> r == Returns(false) && connections == old(connections) && calls == old(calls)
      ensures id in old(connections) ==>
        var c := old(connections)[id];
        && calls == old(calls) + [Close(c)]
        && (close(c) == Closed ==> r == Returns(true) && connections == old(connections) - {id})
        && (close(c).CloseFailed? ==> r == Raises(close(c).message) && connections == old(connections))
      ensures servers == old(servers) && order == old(order) && table == old(table)
    {
      if id !in connections {
        return Returns(false);
      }
      var c := connections[id];
      calls := calls + [Close(c)];
      match close(c)
      case Closed =>
        connections := connections - {id};
        r := Returns(true);
      case CloseFailed(msg) =>
        r := Raises(msg);
    }

    /**
     * remove_server: disconnect first (an exception there propagates and removes nothing),
     * then delete the row and the dictionary entry.
     */
    method RemoveServer(id: ServerId, close: ClientId -> CloseOutcome) returns (r: Raise<bool>)
      requires Valid()
      modifies this
      ensures Valid()
      ensures r.Raises? <==> id in old(connections) && close(old(connections)[id]).CloseFailed?
      ensures r.Raises? ==> servers == old(servers) && table == old(table) && order == old(order)
      ensures r.Returns? ==>
        && (r.value <==> id in old(servers))
        && servers == old(servers) - {id} && table == old(table) - {id}
        && order == Without(old(order), id)
        && id !in connections
      ensures forall other :: other != id && other in old(servers) ==> other in servers && servers[other] == old(servers)[other]
      ensures connections == if r.Raises? then old(connections) else old(connections) - {id}
      ensures calls == old(calls) + if id in old(connections) then [Close(old(connections)[id])] else []
    {
      if id in connections {
        var d := Disconnect(id, close);
        if d.Raises? {
          return Raises(d.message);
        }
      }
      if id !in servers {
        WithoutAbsent(order, id);
        assert servers - {id} == servers;
        return Returns(false);
      }
      table := table - {id};
      WithoutMembers(order, id);
      WithoutDistinct(order, id);
      servers := servers - {id};
      order := Without(order, id);
      r := Returns(true);
    }

    /** _get_connection: the cached client, or a new one from one authentication attempt. */
    method GetConnection(id: ServerId, dial: Dialer) returns (r: Raise<ClientId>)
      modifies this
      ensures r == Reach(id, old(servers), old(connections), dial)
      ensures connections == Settled(id, old(connections), r)
      ensures calls == old(calls) + DialCalls(id, old(servers), old(connections))
      ensures servers == old(servers) && order == old(order) && table == old(table)
    {
      if id in connections {
        UpdateSame(connections, id, connections[id]);
        return Returns(connections[id]);
      }
      if id !in servers {
        return Raises(NotFound(id));
      }
      var s := servers[id];
      var auth := AuthOf(s);
      calls := calls + [Dial(s.hostname, s.port, s.username, auth)];
      match dial(auth)
      case Connected(c) =>
        connections := connections[id := c];
        r := Returns(c);
      case ConnectFailed(msg) =>
        r := Raises(ConnectPrefix + msg);
    }

    /** execute_command: every exception, from connecting or from running, becomes exit code -1. */
    method ExecuteCommand(id: ServerId, command: string, dial: Dialer, shell: Shell) returns (r: CommandOutput)
      modifies this
      ensures var reach := Reach(id, old(servers), old(connections), dial);
        && r == OutputOf(reach, shell, command)
        && connections == Settled(id, old(connections), reach)
        && calls == old(calls) + DialCalls(id, old(servers), old(connections)) + ExecCalls(reach, command)
      ensures servers == old(servers) && order == old(order) && table == old(table)
    {
      var client := GetConnection(id, dial);
      match client
      case Raises(msg) =>
        r := CommandOutput("", ExecPrefix + msg, -1);
      case Returns(c) =>
        calls := calls + [Exec(c, command, ExecTimeout)];
        match shell(c, command)
        case Completed(code, out, err) =>
          r := CommandOutput(out, err, code);
        case ExecFailed(msg) =>
          r := CommandOutput("", ExecPrefix + msg, -1);
    }

    /**
     * get_metrics: the six probes in order, each through execute_command; the first parse
     * that raises discards everything and leaves only the error, otherwise the timestamp is
     * added last.
     */
    method GetMetrics(id: ServerId, now: int, dial: Dialer, shell: Shell, isFloat: string -> bool) returns (m: Metrics)
      modifies this
      ensures var reach := Reach(id, old(servers), old(connections), dial);
        var run := RunBattery(MetricInputs(reach, shell), isFloat);
        && m == ServerSnapshot(run, now)
        && connections == Settled(id, old(connections), reach)
        && 1 <= run.ran
        && calls == old(calls) +
          match reach
          case Returns(c) => DialCalls(id, old(servers), old(connections)) + ProbeCalls(c, Battery[..run.ran], ExecTimeout)
          case Raises(_) => Repeat(DialCalls(id, old(servers), old(connections)), run.ran)
      ensures id !in old(connections) && (id !in old(servers) || dial(AuthOf(old(servers)[id])).ConnectFailed?) ==>
        m == map["timestamp" := Clock(now)]
      ensures servers == old(servers) && order == old(order) && table == old(table)
    {
      ghost var reach := Reach(id, servers, connections, dial);
      ghost var start := MetricsStart(reach, Steps(MetricInputs(reach, shell), isFloat), shell, isFloat, servers, connections, calls);
      forall j | 0 <= j < |Battery|
        ensures StepOf(start, j)
      {
        MetricInputsApply(reach, shell, Battery[j]);
        StepsApply(MetricInputs(reach, shell), isFloat, Battery[j]);
      }
      ghost var g: WiredStart := start;
      assert CollectUpTo(g.outs, 0) == Start;
      m := MetricStanzas(id, now, dial, shell, isFloat, 0, g, map[]);
      RunBatteryShape(MetricInputs(reach, shell), isFloat);
      if reach.Raises? {
        UnreachableGivesOnlyTimestamp(reach.message, shell, isFloat, now);
      }
    }

    /** The client cache and the call log before stanza `k` of get_metrics, which started in `g`. */
    ghost predicate LinkAt(id: ServerId, dial: Dialer, k: nat, g: MetricsStart)
      reads this
    {
      && k <= |Battery|
      && g.reach == Reach(id, g.servers, g.conns, dial) && servers == g.servers
      && connections == (if k == 0 then g.conns else Settled(id, g.conns, g.reach))
      && calls == g.calls + MetricsCalls(g.reach, DialCalls(id, g.servers, g.conns), k)
    }

    /** The state get_metrics ends in, returning `m`. */
    ghost predicate Finished(id: ServerId, dial: Dialer, now: int, g: MetricsStart, m: Metrics)
      reads this
    {
      var run := Collect(g.outs);
      m == ServerSnapshot(run, now) && LinkAt(id, dial, run.ran, g)
    }

    /** The try block of get_metrics from stanza `k` on. */
    method MetricStanzas(id: ServerId, now: int, dial: Dialer, shell: Shell, isFloat: string -> bool, k: nat,
                         ghost g: WiredStart, m: Metrics) returns (m': Metrics)
      requires g.shell == shell && g.isFloat == isFloat
      requires LinkAt(id, dial, k, g) && RunAt(k, g, m)
      modifies this
      ensures Finished(id, dial, now, g, m')
      ensures servers == old(servers) && order == old(order) && table == old(table)
      decreases |Battery| - k, 1
    {
      if k == |Battery| {
        AllStepsDone(now, g, m);
        m' := m["timestamp" := Clock(now)];
      } else {
        m' := MetricFrom(id, now, dial, shell, isFloat, k, g, m);
      }
    }

    /** Stanza `k` of the try block, then the rest of it unless that stanza raised. */
    method MetricFrom(id: ServerId, now: int, dial: Dialer, shell: Shell, isFloat: string -> bool, k: nat,
                      ghost g: WiredStart, m: Metrics) returns (m': Metrics)
      requires g.shell == shell && g.isFloat == isFloat
      requires LinkAt(id, dial, k, g) && RunAt(k, g, m) && k < |Battery|
      modifies this
      ensures Finished(id, dial, now, g, m')
      ensures servers == old(servers) && order == old(order) && table == old(table)
      decreases |Battery| - k, 0
    {
      var stop;
      m', stop := MetricStanza(id, now, dial, shell, isFloat, k, g, m);
      if !stop {
        m' := MetricStanzas(id, now, dial, shell, isFloat, k + 1, g, m');
      }
    }

    /**
     * Stanza `k` of get_metrics: run its probe's command and, when the gate opens, parse the
     * output; a parse that raises ends the try block with only the error.
     */
    method MetricStanza(id: ServerId, now: int, dial: Dialer, shell: Shell, isFloat: string -> bool, k: nat,
                        ghost g: WiredStart, m: Metrics) returns (m': Metrics, stop: bool)
      requires g.shell == shell && g.isFloat == isFloat
      requires LinkAt(id, dial, k, g) && RunAt(k, g, m) && k < |Battery|
      modifies this
      ensures LinkAt(id, dial, k + 1, g)
      ensures stop ==> Collect(g.outs).ran == k + 1 && m' == ServerSnapshot(Collect(g.outs), now)
      ensures !stop ==> RunAt(k + 1, g, m')
      ensures servers == old(servers) && order == old(order) && table == old(table)
    {
      var p := Battery[k];
      var output := StanzaCommand(id, p, dial, shell, k, g);
      var step := ProbeStep(p, InputOfOutput(output), isFloat);
      MetricStep(now, k, g, m, output, step);
      stop := step.failure.Some?;
      m' := if stop then map["error" := Failure(step.failure.value)] else m + step.fields;
    }

    /** The command of stanza `k`, through execute_command. */
    method StanzaCommand(id: ServerId, p: Probe, dial: Dialer, shell: Shell, k: nat, ghost g: MetricsStart) returns (result: CommandOutput)
      requires LinkAt(id, dial, k, g) && k < |Battery| && p == Battery[k]
      modifies this
      ensures LinkAt(id, dial, k + 1, g)
      ensures result == OutputOf(g.reach, shell, Command(p))
      ensures servers == old(servers) && order == old(order) && table == old(table)
    {
      ghost var before := connections;
      result := ExecuteCommand(id, Command(p), dial, shell);
      LinkNext(g.calls, id, g.servers, g.conns, dial, k, before, old(calls));
    }
  }

  /**
   * What get_metrics starts from: the answer _get_connection gives, each probe's contribution,
   * the remote shell and float test the contributions come from, and the state.
   */
  datatype MetricsStart = MetricsStart(reach: Raise<ClientId>, outs: Probe -> ProbeOut, shell: Shell, isFloat: string -> bool,
                                       servers: map<ServerId, Server>, conns: map<ServerId, ClientId>, calls: seq<RemoteCall>)

  /** Probe `j`'s contribution in `g` is what its command's output gives. */
  ghost predicate StepOf(g: MetricsStart, j: nat)
    requires j < |Battery|
  {
    g.outs(Battery[j]) == ProbeStep(Battery[j], InputOfOutput(OutputOf(g.reach, g.shell, Command(Battery[j]))), g.isFloat)
  }

  ghost predicate Wired(g: MetricsStart)
  {
    forall j :: 0 <= j < |Battery| ==> StepOf(g, j)
  }

  /** A start whose contributions are those of its probe commands; a host that cannot be reached contributes nothing. */
  type WiredStart = g: MetricsStart | Wired(g)
    ghost witness MetricsStart(Raises(""), p => Nothing, (c, command) => ExecFailed(""), s => false, map[], map[], [])

  /** The run of get_metrics, which started in `g`, before stanza `k`, with `m` collected so far. */
  ghost predicate RunAt(k: nat, g: MetricsStart, m: Metrics)
  {
    && k <= |Battery|
    && CollectUpTo(g.outs, k).failure.None? && m == CollectUpTo(g.outs, k).fields
  }

  /** The run after stanza `k` of get_metrics, from the output of its command. */
  lemma MetricStep(now: int, k: nat, g: WiredStart, m: Metrics, result: CommandOutput, out: ProbeOut)
    requires RunAt(k, g, m) && k < |Battery|
    requires result == OutputOf(g.reach, g.shell, Command(Battery[k]))
    requires out == ProbeStep(Battery[k], InputOfOutput(result), g.isFloat)
    ensures var run := CollectUpTo(g.outs, k + 1);
      && run.ran == k + 1
      && (out.failure.None? <==> run.failure.None?)
      && (out.failure.None? ==> RunAt(k + 1, g, m + out.fields))
      && (out.failure.Some? ==> Collect(g.outs) == run && map["error" := Failure(out.failure.value)] == ServerSnapshot(run, now))
  {
    assert StepOf(g, k);
    CollectNext(g.outs, k, m, out, now);
  }

  /** After the last stanza the timestamp completes the snapshot. */
  lemma AllStepsDone(now: int, g: MetricsStart, m: Metrics)
    requires RunAt(|Battery|, g, m)
    ensures Collect(g.outs).ran == |Battery|
    ensures m["timestamp" := Clock(now)] == ServerSnapshot(Collect(g.outs), now)
  {
  }

  /**
   * An unknown or unreachable server: every execute_command fails with exit code -1, so no
   * probe's gate opens and get_metrics answers with the timestamp alone, with no error and
   * no success key (SSHManager would report success false and "Not connected to server").
   */
  lemma UnreachableGivesOnlyTimestamp(msg: string, shell: Shell, isFloat: string -> bool, now: int)
    ensures ServerSnapshot(RunBattery(MetricInputs(Raises(msg), shell), isFloat), now) == map["timestamp" := Clock(now)]
  {
    var inputs := MetricInputs(Raises(msg), shell);
    var run := RunBattery(inputs, isFloat);
    forall p: Probe ensures !Gate(p, inputs(p)) && ProbeStep(p, inputs(p), isFloat) == Nothing {
      MetricInputsApply(Raises(msg), shell, p);
    }
    RunBatteryShape(inputs, isFloat);
    forall p: Probe ensures run.fields.Keys !! Keys(p) {
      ClosedGateWritesNothing(inputs, isFloat, p);
    }
    assert run.fields.Keys !! AllProbeKeys();
    assert run.fields.Keys <= AllProbeKeys();
    assert run.fields == map[];
  }

  lemma MetricInputsApply(reach: Raise<ClientId>, shell: Shell, p: Probe)
    ensures MetricInputs(reach, shell)(p) == InputOfOutput(OutputOf(reach, shell, Command(p)))
  {
  }

  /** One more contribution to a run that has not raised. */
  lemma CollectNext(outs: Probe -> ProbeOut, k: nat, m: Metrics, out: ProbeOut, now: int)
    requires k < |Battery| && out == outs(Battery[k])
    requires CollectUpTo(outs, k).failure.None? && m == CollectUpTo(outs, k).fields
    ensures var run := CollectUpTo(outs, k + 1);
      && run.ran == k + 1
      && (out.failure.None? <==> run.failure.None?)
      && (out.failure.None? ==> m + out.fields == run.fields)
      && (out.failure.Some? ==> Collect(outs) == run && map["error" := Failure(out.failure.value)] == ServerSnapshot(run, now))
  {
    if out.failure.Some? {
      Stopped(outs, k + 1);
    }
  }

  /**
   * Stanza `k`'s dial, if any, and its command extend the calls of the first `k` commands to
   * those of the first `k + 1`; the client cache it leaves is the one the first stanza left.
   */
  lemma LinkNext(calls0: seq<RemoteCall>, id: ServerId, servers: map<ServerId, Server>, conns: map<ServerId, ClientId>, dial: Dialer, k: nat,
                 before: map<ServerId, ClientId>, callsBefore: seq<RemoteCall>)
    requires k < |Battery|
    requires before == if k == 0 then conns else Settled(id, conns, Reach(id, servers, conns, dial))
    requires callsBefore == calls0 + MetricsCalls(Reach(id, servers, conns, dial), DialCalls(id, servers, conns), k)
    ensures var reach := Reach(id, servers, conns, dial);
      && Reach(id, servers, before, dial) == reach
      && Settled(id, before, reach) == Settled(id, conns, reach)
      && callsBefore + DialCalls(id, servers, before) + ExecCalls(reach, Command(Battery[k]))
        == calls0 + MetricsCalls(reach, DialCalls(id, servers, conns), k + 1)
  {
    var reach := Reach(id, servers, conns, dial);
    ReachAgain(id, servers, conns, dial);
    match reach
    case Returns(c) =>
      assert DialCalls(id, servers, before) == if k == 0 then DialCalls(id, servers, conns) else [];
      ExecLogNext(calls0, DialCalls(id, servers, conns), c, k);
    case Raises(msg) =>
      assert DialCalls(id, servers, before) == DialCalls(id, servers, conns);
      DialLogNext(calls0, DialCalls(id, servers, conns), msg, k);
  }

  /** With a client, stanza `k` dials only if it is the first, and then sends its command. */
  lemma ExecLogNext(calls0: seq<RemoteCall>, dials: seq<RemoteCall>, c: ClientId, k: nat)
    requires k < |Battery|
    ensures calls0 + MetricsCalls(Returns(c), dials, k) + (if k == 0 then dials else []) + [Exec(c, Command(Battery[k]), ExecTimeout)]
      == calls0 + MetricsCalls(Returns(c), dials, k + 1)
  {
    var exec := Exec(c, Command(Battery[k]), ExecTimeout);
    ProbeCallsNext(c, k, ExecTimeout);
    if k == 0 {
      assert ProbeCalls(c, Battery[..1], ExecTimeout) == [exec];
    } else {
      CallsAssoc(calls0, dials + ProbeCalls(c, Battery[..k], ExecTimeout), [exec]);
      CallsAssoc(dials, ProbeCalls(c, Battery[..k], ExecTimeout), [exec]);
    }
  }

  /** Without a client, stanza `k` dials again and sends nothing. */
  lemma DialLogNext(calls0: seq<RemoteCall>, dials: seq<RemoteCall>, msg: string, k: nat)
    requires k < |Battery|
    ensures calls0 + MetricsCalls(Raises(msg), dials, k) + dials + [] == calls0 + MetricsCalls(Raises(msg), dials, k + 1)
  {
    if k == 0 {
      assert Repeat(dials, 1) == [] + dials;
    } else {
      CallsAssoc(calls0, Repeat(dials, k), dials);
    }
  }

  lemma CallsAssoc(a: seq<RemoteCall>, b: seq<RemoteCall>, c: seq<RemoteCall>)
    ensures a + b + c == a + (b + c)
  {
  }

  /** Overwriting a key with the value it already has changes nothing. */
  lemma UpdateSame(m: map<ServerId, ClientId>, k: ServerId, v: ClientId)
    requires k in m && m[k] == v
    ensures m[k := v] == m
  {
  }
}
