/**
 * SSHManager (ssh_manager.py): a dictionary from server id to an open paramiko client and
 * the time it was last used, with connect, disconnect, lookup, remote execution, the metrics
 * battery and the idle sweep. The network is reached only through the oracles of `Remote`;
 * `calls` records, in order, every call made on it.
 */
module SSH {
  import opened Wrappers
  import opened Text
  import opened Remote
  import opened Ordered
  import opened Probes

  /** One dictionary value: `{'client': client, 'last_used': time}`. */
  datatype Entry = Entry(client: ClientId, lastUsed: int)

  /** The dictionary execute_command returns; `error` is present only on failures that set it. */
  datatype CommandResult = CommandResult(success: bool, error: Option<string>, stdout: string, stderr: string, exitCode: int)

  /** The result for a server with no open connection. */
  const NotConnected := CommandResult(false, Some("Not connected to server"), "", "SSH connection not established", -1)

  /** The timeout execute_command uses when the caller gives none. */
  const DefaultTimeout := 30

  /** The result for a command that reached the server. */
  function ResultOf(o: ExecOutcome): (r: CommandResult)
    ensures r.success <==> o.Completed? && o.exitCode == 0
    ensures o.Completed? ==> r.error.None? && r.stdout == o.stdout && r.stderr == o.stderr && r.exitCode == o.exitCode
    ensures o.ExecFailed? ==> r.error == Some(o.message) && r.stdout == "" && r.stderr == "Error: " + o.message && r.exitCode == -1
  {
    match o
    case Completed(code, out, err) => CommandResult(code == 0, None, out, err, code)
    case ExecFailed(msg) => CommandResult(false, Some(msg), "", "Error: " + msg, -1)
  }

  /**
   * The authentication connect tries: the key file when a key path is given and exists,
   * otherwise the password when one is given, otherwise none (and nothing is dialled).
   */
  function ChooseAuth(password: Option<string>, keyPath: Option<string>, keyExists: string -> bool): (a: Option<Auth>)
    ensures a.None? <==> !(Truthy(keyPath) && keyExists(keyPath.value)) && !Truthy(password)
    ensures Truthy(keyPath) && keyExists(keyPath.value) ==> a == Some(KeyFile(keyPath.value))
    ensures !(Truthy(keyPath) && keyExists(keyPath.value)) && Truthy(password) ==> a == Some(PasswordAuth(password))
  {
    if Truthy(keyPath) && keyExists(keyPath.value) then Some(KeyFile(keyPath.value))
    else if Truthy(password) then Some(PasswordAuth(password))
    else None
  }

  /** A key file that exists wins over a password given alongside it. */
  lemma KeyFileWins(password: Option<string>, path: string, keyExists: string -> bool)
    requires path != "" && keyExists(path)
    ensures ChooseAuth(password, Some(path), keyExists) == Some(KeyFile(path))
  {
  }

  /** What the metrics gate sees of a probe's result. */
  function InputOf(r: CommandResult): ProbeInput
  {
    ProbeInput(r.success, r.stdout)
  }

  /** The outcome each probe's command has on a client. */
  function ProbeInputs(shell: Shell, c: ClientId): Probe -> ProbeInput
  {
    p => InputOf(ResultOf(shell(c, Command(p))))
  }

  /** Whether an entry has been idle longer than the limit. */
  predicate Idle(e: Entry, maxIdle: int, now: int)
  {
    now - e.lastUsed > maxIdle
  }

  /** The ids the sweep tries to close: connected and idle. */
  function StaleIds(conns: map<ServerId, Entry>, maxIdle: int, now: int): (r: set<ServerId>)
    ensures forall id :: id in r <==> id in conns && Idle(conns[id], maxIdle, now)
  {
    set id | id in conns && Idle(conns[id], maxIdle, now)
  }

  /** The ids the sweep removes: stale, and their client closes. */
  function EvictedIds(conns: map<ServerId, Entry>, maxIdle: int, now: int, close: ClientId -> CloseOutcome): (r: set<ServerId>)
    ensures forall id :: id in r <==> id in StaleIds(conns, maxIdle, now) && close(conns[id].client) == Closed
  {
    set id | id in StaleIds(conns, maxIdle, now) && close(conns[id].client) == Closed
  }

  /** The ids the sweep leaves in place. */
  function KeptIds(conns: map<ServerId, Entry>, maxIdle: int, now: int, close: ClientId -> CloseOutcome): (r: set<ServerId>)
    ensures forall id :: id in r <==> id in conns && id !in EvictedIds(conns, maxIdle, now, close)
  {
    conns.Keys - EvictedIds(conns, maxIdle, now, close)
  }

  /** The close calls for the ids `ids`, in order. */
  function CloseCalls(ids: seq<ServerId>, conns: map<ServerId, Entry>): (r: seq<RemoteCall>)
    requires forall id :: id in ids ==> id in conns
    ensures |r| == |ids|
    ensures forall i :: 0 <= i < |ids| ==> r[i] == Close(conns[ids[i]].client)
  {
    seq(|ids|, i requires 0 <= i < |ids| => Close(conns[ids[i]].client))
  }

  lemma CloseCallsNext(ids: seq<ServerId>, id: ServerId, conns: map<ServerId, Entry>)
    requires forall x :: x in ids ==> x in conns
    requires id in conns
    ensures CloseCalls(ids + [id], conns) == CloseCalls(ids, conns) + [Close(conns[id].client)]
  {
  }

  /** The dictionary the sweep leaves: the entries it does not evict, untouched. */
  function Survivors(conns: map<ServerId, Entry>, maxIdle: int, now: int, close: ClientId -> CloseOutcome): (r: map<ServerId, Entry>)
    ensures r.Keys == KeptIds(conns, maxIdle, now, close)
    ensures forall id :: id in r ==> r[id] == conns[id]
  {
    map id | id in KeptIds(conns, maxIdle, now, close) :: conns[id]
  }

  /** After a sweep, every connection left is fresh, or it is one whose close failed. */
  lemma SurvivorsAreFreshOrStuck(conns: map<ServerId, Entry>, maxIdle: int, now: int, close: ClientId -> CloseOutcome)
    ensures var r := Survivors(conns, maxIdle, now, close);
      forall id :: id in r ==> !Idle(r[id], maxIdle, now) || close(r[id].client) != Closed
  {
  }

  /** A second sweep at the same time with the same close outcomes evicts nothing more. */
  lemma SweepIdempotent(conns: map<ServerId, Entry>, maxIdle: int, now: int, close: ClientId -> CloseOutcome)
    ensures var r := Survivors(conns, maxIdle, now, close);
      Survivors(r, maxIdle, now, close) == r
  {
  }

  /**
   * The count the sweep returns: the evictions among the keys, which is also the number of
   * entries the dictionary lost.
   */
  lemma SweepCount(order: seq<ServerId>, conns: map<ServerId, Entry>, maxIdle: int, now: int, close: ClientId -> CloseOutcome)
    requires Distinct(order) && forall id :: id in conns <==> id in order
    ensures |Filter(order, EvictedIds(conns, maxIdle, now, close))| == |conns| - |Survivors(conns, maxIdle, now, close)|
  {
    var evicted, kept := EvictedIds(conns, maxIdle, now, close), KeptIds(conns, maxIdle, now, close);
    FilterPartition(order, evicted, kept);
    FilterDistinct(order, kept);
    MapSize(order, conns);
    MapSize(Filter(order, kept), Survivors(conns, maxIdle, now, close));
  }

  /** The key order after visiting position `i` of the sweep's snapshot. */
  lemma SweepOrderNext(snapshot: seq<ServerId>, i: nat, kept: set<ServerId>)
    requires Distinct(snapshot) && i < |snapshot|
    ensures var before := Filter(snapshot[..i], kept) + snapshot[i..];
      var after := Filter(snapshot[..i + 1], kept) + snapshot[i + 1..];
      && (snapshot[i] in kept ==> before == after)
      && (snapshot[i] !in kept ==> Without(before, snapshot[i]) == after)
  {
    var id, prefix := snapshot[i], Filter(snapshot[..i], kept);
    DistinctAt(snapshot, i);
    FilterPrefixNext(snapshot, i, kept);
    assert id !in prefix;
    WithoutSplit(prefix, id, snapshot[i + 1..]);
    assert prefix + snapshot[i..] == prefix + [id] + snapshot[i + 1..];
  }

  /** The close calls after visiting position `i` of the sweep's snapshot. */
  lemma SweepCallsNext(calls0: seq<RemoteCall>, snapshot: seq<ServerId>, i: nat, conns: map<ServerId, Entry>, stale: set<ServerId>)
    requires i < |snapshot| && forall id :: id in snapshot ==> id in conns
    ensures var before := calls0 + CloseCalls(Filter(snapshot[..i], stale), conns);
      var after := calls0 + CloseCalls(Filter(snapshot[..i + 1], stale), conns);
      && (snapshot[i] in stale ==> before + [Close(conns[snapshot[i]].client)] == after)
      && (snapshot[i] !in stale ==> before == after)
  {
    var id, chosen := snapshot[i], Filter(snapshot[..i], stale);
    FilterPrefixNext(snapshot, i, stale);
    forall x | x in chosen ensures x in conns {
      assert x in snapshot[..i];
      assert x in snapshot;
    }
    if id in stale {
      assert id in snapshot;
      CloseCallsNext(chosen, id, conns);
      CallsJoin(calls0, CloseCalls(chosen, conns), Close(conns[id].client));
    }
  }

  /** What the sweep leaves after visiting every key is the survivors' dictionary. */
  lemma SweepLeaves(m: map<ServerId, Entry>, order: seq<ServerId>, conns: map<ServerId, Entry>, maxIdle: int, now: int, close: ClientId -> CloseOutcome)
    requires forall id :: id in conns <==> id in order
    requires forall id :: id in m <==> id in conns && !(id in order && id in EvictedIds(conns, maxIdle, now, close))
    requires forall id :: id in m ==> m[id] == conns[id]
    ensures m == Survivors(conns, maxIdle, now, close)
  {
  }

  class SSHManager {
    /** The open connections. */
    var connections: map<ServerId, Entry>
    /** The keys of `connections` in dictionary order. */
    var order: seq<ServerId>
    /** Every call made on the network or on a client, oldest first. */
    var calls: seq<RemoteCall>

    ghost predicate Valid()
      reads this
    {
      Distinct(order) && (forall id :: id in connections <==> id in order)
    }

    constructor()
      ensures Valid()
      ensures connections == map[] && order == [] && calls == []
    {
      connections := map[];
      order := [];
      calls := [];
    }

    /**
     * connect: one authentication attempt; on success the new client replaces any open one
     * for the id, which is closed first. Without a usable credential nothing is dialled.
     */
    method Connect(serverId: ServerId, hostname: string, username: string, password: Option<string>,
                   keyPath: Option<string>, port: int, keyExists: string -> bool, dial: Dialer,
                   close: ClientId -> CloseOutcome, now: int) returns (ok: bool)
      requires Valid()
      modifies this
      ensures Valid()
      ensures var auth := ChooseAuth(password, keyPath, keyExists);
        ok <==> auth.Some? && dial(auth.value).Connected?
      ensures var auth := ChooseAuth(password, keyPath, keyExists);
        auth.None? ==> connections == old(connections) && order == old(order) && calls == old(calls)
      ensures var auth := ChooseAuth(password, keyPath, keyExists);
        auth.Some? && !ok ==>
          && connections == old(connections) && order == old(order)
          && calls == old(calls) + [Dial(hostname, port, username, auth.value)]
      ensures var auth := ChooseAuth(password, keyPath, keyExists);
        ok ==> connections == old(connections)[serverId := Entry(dial(auth.value).client, now)]
      ensures var auth := ChooseAuth(password, keyPath, keyExists);
        ok && serverId !in old(connections) ==>
          && order == old(order) + [serverId]
          && calls == old(calls) + [Dial(hostname, port, username, auth.value)]
      ensures var auth := ChooseAuth(password, keyPath, keyExists);
        ok && serverId in old(connections) ==>
          var prior := old(connections)[serverId].client;
          && calls == old(calls) + [Dial(hostname, port, username, auth.value), Close(prior)]
          && order == (if close(prior) == Closed then Without(old(order), serverId) + [serverId] else old(order))
    {
      var auth := ChooseAuth(password, keyPath, keyExists);
      if auth.None? {
        return false;
      }
      calls := calls + [Dial(hostname, port, username, auth.value)];
      match dial(auth.value)
      case ConnectFailed(_) =>
        ok := false;
      case Connected(client) =>
        ghost var conns0, calls0 := connections, calls;
        if serverId in connections {
          var closedOk := Disconnect(serverId, close);
          ReplaceAfterRemove(conns0, serverId, Entry(client, now));
          AppendTwo(old(calls), Dial(hostname, port, username, auth.value), Close(conns0[serverId].client));
        }
        connections := connections[serverId := Entry(client, now)];
        if serverId !in order {
          DistinctSnoc(order, serverId);
          order := order + [serverId];
        }
        ok := true;
    }

    /** disconnect: close the client and drop the entry; a failing close keeps the entry. */
    method Disconnect(serverId: ServerId, close: ClientId -> CloseOutcome) returns (ok: bool)
      requires Valid()
      modifies this
      ensures Valid()
      ensures serverId !in old(connections) ==>
        !ok && connections == old(connections) && order == old(order) && calls == old(calls)
      ensures serverId in old(connections) ==>
        var c := old(connections)[serverId].client;
        && calls == old(calls) + [Close(c)]
        && (ok <==> close(c) == Closed)
      ensures ok ==> connections == old(connections) - {serverId} && order == Without(old(order), serverId)
      ensures !ok ==> connections == old(connections) && order == old(order)
    {
      if serverId !in connections {
        return false;
      }
      var c := connections[serverId].client;
      calls := calls + [Close(c)];
      if close(c) == Closed {
        connections := connections - {serverId};
        WithoutMembers(order, serverId);
        WithoutDistinct(order, serverId);
        order := Without(order, serverId);
        ok := true;
      } else {
        ok := false;
      }
    }

    /** get_connection: the client, with its last-used time refreshed. */
    method GetConnection(serverId: ServerId, now: int) returns (client: Option<ClientId>)
      requires Valid()
      modifies this
      ensures Valid()
      ensures client.Some? <==> serverId in old(connections)
      ensures serverId in old(connections) ==>
        && client.value == old(connections)[serverId].client
        && connections == old(connections)[serverId := Entry(client.value, now)]
      ensures serverId !in old(connections) ==> connections == old(connections)
      ensures order == old(order) && calls == old(calls)
    {
      if serverId in connections {
        var c := connections[serverId].client;
        connections := connections[serverId := Entry(c, now)];
        return Some(c);
      }
      return None;
    }

    /** execute_command: run one command on the open client, or report that there is none. */
    method ExecuteCommand(serverId: ServerId, command: string, timeout: int, now: int, shell: Shell) returns (r: CommandResult)
      requires Valid()
      modifies this
      ensures Valid()
      ensures serverId !in old(connections) ==>
        r == NotConnected && connections == old(connections) && calls == old(calls)
      ensures serverId in old(connections) ==>
        var c := old(connections)[serverId].client;
        && r == ResultOf(shell(c, command))
        && calls == old(calls) + [Exec(c, command, timeout)]
        && connections == old(connections)[serverId := Entry(c, now)]
      ensures order == old(order)
    {
      var client := GetConnection(serverId, now);
      if client.None? {
        return NotConnected;
      }
      calls := calls + [Exec(client.value, command, timeout)];
      r := ResultOf(shell(client.value, command));
    }

    /**
     * One stanza of the battery, reached only while no earlier probe has raised: run probe
     * `k`'s command and, when the gate opens, parse its output into the dictionary; a parse
     * that raises records the error and leaves the try block.
     */
    method Stanza(serverId: ServerId, p: Probe, now: int, shell: Shell, isFloat: string -> bool,
                  ghost k: nat, ghost c: ClientId, ghost calls0: seq<RemoteCall>, m: Metrics)
      returns (m': Metrics, stop: bool)
      requires k < |Battery| && Battery[k] == p
      requires LinkAt(serverId, now, c, k, calls0) && RunAt(shell, c, isFloat, now, k, m)
      modifies this
      ensures LinkAt(serverId, now, c, k + 1, calls0)
      ensures connections == old(connections) && order == old(order)
      ensures var run := CollectUpTo(Steps(ProbeInputs(shell, c), isFloat), k + 1);
        && run.ran == k + 1
        && (stop <==> run.failure.Some?)
        && (!stop ==> RunAt(shell, c, isFloat, now, k + 1, m'))
        && (stop ==> m' == SshSnapshot(true, run, now))
    {
      ghost var conns0 := connections;
      var result := ExecuteCommand(serverId, Command(p), DefaultTimeout, now, shell);
      UpdateSame(conns0, serverId, Entry(c, now));
      ProbeCallsAfter(calls0, c, k, DefaultTimeout);
      var out := ProbeStep(p, InputOf(result), isFloat);
      StanzaEffect(shell, c, isFloat, k, now, m, out);
      m' := m + out.fields;
      stop := out.failure.Some?;
      if stop {
        m' := m'["error" := Failure(out.failure.value)];
      }
    }

    /**
     * get_server_metrics: the six probes in order on the open client; the first probe whose
     * parse raises ends the battery, and the dictionary keeps what was collected before it.
     */
    method GetServerMetrics(serverId: ServerId, now: int, shell: Shell, isFloat: string -> bool) returns (m: Metrics)
      requires Valid()
      modifies this
      ensures Valid()
      ensures serverId !in old(connections) ==>
        m == SshSnapshot(false, Start, now) && connections == old(connections) && calls == old(calls)
      ensures serverId in old(connections) ==>
        var c := old(connections)[serverId].client;
        var run := RunBattery(ProbeInputs(shell, c), isFloat);
        && m == SshSnapshot(true, run, now)
        && calls == old(calls) + ProbeCalls(c, Battery[..run.ran], DefaultTimeout)
        && connections == old(connections)[serverId := Entry(c, now)]
      ensures order == old(order)
    {
      m := Opening(now);
      var client := GetConnection(serverId, now);
      if client.None? {
        m := m["error" := Str("Not connected to server")];
        return;
      }
      ghost var c := client.value;
      assert calls == calls + ProbeCalls(c, Battery[..0], DefaultTimeout);
      m := Stanzas(serverId, now, shell, isFloat, 0, c, calls, m);
    }

    /**
     * The manager before stanza `k` of get_server_metrics on `serverId`, whose client is `c`:
     * the entry was touched at `now`, and one command per earlier probe was sent since `calls0`.
     */
    ghost predicate LinkAt(serverId: ServerId, now: int, c: ClientId, k: nat, calls0: seq<RemoteCall>)
      reads this
    {
      && Valid() && k <= |Battery|
      && serverId in connections && connections[serverId] == Entry(c, now)
      && calls == calls0 + ProbeCalls(c, Battery[..k], DefaultTimeout)
    }

    /** The state get_server_metrics ends in on client `c`, returning `m`. */
    ghost predicate Finished(serverId: ServerId, now: int, shell: Shell, isFloat: string -> bool,
                             c: ClientId, calls0: seq<RemoteCall>, m: Metrics)
      reads this
    {
      var run := RunBattery(ProbeInputs(shell, c), isFloat);
      m == SshSnapshot(true, run, now) && LinkAt(serverId, now, c, run.ran, calls0)
    }

    /**
     * The try block of get_server_metrics from stanza `k` on: after the last stanza set
     * `success`, otherwise go on with stanza `k`.
     */
    method Stanzas(serverId: ServerId, now: int, shell: Shell, isFloat: string -> bool,
                   k: nat, ghost c: ClientId, ghost calls0: seq<RemoteCall>, m: Metrics)
      returns (m': Metrics)
      requires LinkAt(serverId, now, c, k, calls0) && RunAt(shell, c, isFloat, now, k, m)
      modifies this
      ensures Finished(serverId, now, shell, isFloat, c, calls0, m')
      ensures connections == old(connections) && order == old(order)
      decreases |Battery| - k, 1
    {
      if k == |Battery| {
        CompletedAll(shell, c, isFloat, now, m);
        m' := m["success" := Flag(true)];
      } else {
        m' := StanzasFrom(serverId, now, shell, isFloat, k, c, calls0, m);
      }
    }

    /** Stanza `k`, then the rest of the try block unless that stanza raised. */
    method StanzasFrom(serverId: ServerId, now: int, shell: Shell, isFloat: string -> bool,
                       k: nat, ghost c: ClientId, ghost calls0: seq<RemoteCall>, m: Metrics)
      returns (m': Metrics)
      requires k < |Battery| && LinkAt(serverId, now, c, k, calls0) && RunAt(shell, c, isFloat, now, k, m)
      modifies this
      ensures Finished(serverId, now, shell, isFloat, c, calls0, m')
      ensures connections == old(connections) && order == old(order)
      decreases |Battery| - k, 0
    {
      var stop;
      m', stop := Stanza(serverId, Battery[k], now, shell, isFloat, k, c, calls0, m);
      if stop {
        Stopped(Steps(ProbeInputs(shell, c), isFloat), k + 1);
      } else {
        m' := Stanzas(serverId, now, shell, isFloat, k + 1, c, calls0, m');
      }
    }

    /** One visit of the sweep: disconnect the key at position `i` if it has been idle too long. */
    method SweepStep(snapshot: seq<ServerId>, i: nat, maxIdle: int, now: int, close: ClientId -> CloseOutcome,
                     ghost conns0: map<ServerId, Entry>, ghost calls0: seq<RemoteCall>, closed0: nat) returns (closed: nat)
      requires Valid() && i < |snapshot| && Distinct(snapshot) && forall id :: id in conns0 <==> id in snapshot
      requires order == Filter(snapshot[..i], KeptIds(conns0, maxIdle, now, close)) + snapshot[i..]
      requires forall id :: id in connections <==> id in conns0 && !(id in snapshot[..i] && id in EvictedIds(conns0, maxIdle, now, close))
      requires forall id :: id in connections ==> connections[id] == conns0[id]
      requires calls == calls0 + CloseCalls(Filter(snapshot[..i], StaleIds(conns0, maxIdle, now)), conns0)
      requires closed0 == |Filter(snapshot[..i], EvictedIds(conns0, maxIdle, now, close))|
      modifies this
      ensures Valid()
      ensures order == Filter(snapshot[..i + 1], KeptIds(conns0, maxIdle, now, close)) + snapshot[i + 1..]
      ensures forall id :: id in connections <==> id in conns0 && !(id in snapshot[..i + 1] && id in EvictedIds(conns0, maxIdle, now, close))
      ensures forall id :: id in connections ==> connections[id] == conns0[id]
      ensures calls == calls0 + CloseCalls(Filter(snapshot[..i + 1], StaleIds(conns0, maxIdle, now)), conns0)
      ensures closed == |Filter(snapshot[..i + 1], EvictedIds(conns0, maxIdle, now, close))|
    {
      ghost var stale := StaleIds(conns0, maxIdle, now);
      ghost var evicted := EvictedIds(conns0, maxIdle, now, close);
      ghost var kept := KeptIds(conns0, maxIdle, now, close);
      var id := snapshot[i];
      DistinctAt(snapshot, i);
      FilterPrefixNext(snapshot, i, evicted);
      SweepOrderNext(snapshot, i, kept);
      SweepCallsNext(calls0, snapshot, i, conns0, stale);
      closed := closed0;
      var lastUsed := connections[id].lastUsed;
      if now - lastUsed > maxIdle {
        var ok := Disconnect(id, close);
        if ok {
          closed := closed + 1;
        }
      }
    }

    /**
     * cleanup_idle_connections: walk a snapshot of the keys and disconnect every entry idle
     * longer than the limit; the count is of the closes that succeeded.
     */
    method CleanupIdleConnections(maxIdle: int, now: int, close: ClientId -> CloseOutcome) returns (closed: nat)
      requires Valid()
      modifies this
      ensures Valid()
      ensures connections == Survivors(old(connections), maxIdle, now, close)
      ensures order == Filter(old(order), KeptIds(old(connections), maxIdle, now, close))
      ensures calls == old(calls) + CloseCalls(Filter(old(order), StaleIds(old(connections), maxIdle, now)), old(connections))
      ensures closed == |Filter(old(order), EvictedIds(old(connections), maxIdle, now, close))|
      ensures closed == |old(connections)| - |connections|
      ensures forall id :: id in connections ==> !Idle(connections[id], maxIdle, now) || close(connections[id].client) != Closed
    {
      var snapshot := order;
      ghost var conns0 := connections;
      ghost var calls0 := calls;
      ghost var stale := StaleIds(conns0, maxIdle, now);
      ghost var evicted := EvictedIds(conns0, maxIdle, now, close);
      ghost var kept := KeptIds(conns0, maxIdle, now, close);
      closed := 0;
      for i := 0 to |snapshot|
        invariant Valid() && snapshot == old(order)
        invariant order == Filter(snapshot[..i], kept) + snapshot[i..]
        invariant forall id :: id in connections <==> id in conns0 && !(id in snapshot[..i] && id in evicted)
        invariant forall id :: id in connections ==> connections[id] == conns0[id]
        invariant calls == calls0 + CloseCalls(Filter(snapshot[..i], stale), conns0)
        invariant closed == |Filter(snapshot[..i], evicted)|
      {
        closed := SweepStep(snapshot, i, maxIdle, now, close, conns0, calls0, closed);
      }
      assert snapshot[..|snapshot|] == snapshot;
      SweepLeaves(connections, snapshot, conns0, maxIdle, now, close);
      SweepCount(snapshot, conns0, maxIdle, now, close);
    }
  }

  /** The battery on client `c` before stanza `k`: nothing raised, and `m` holds the opening and what was collected. */
  ghost predicate RunAt(shell: Shell, c: ClientId, isFloat: string -> bool, now: int, k: nat, m: Metrics)
  {
    && k <= |Battery|
    && CollectUpTo(Steps(ProbeInputs(shell, c), isFloat), k).failure.None?
    && m == Opening(now) + CollectUpTo(Steps(ProbeInputs(shell, c), isFloat), k).fields
  }

  /** The dictionary after a stanza: its fields added, and the error when it raised. */
  lemma StanzaEffect(shell: Shell, c: ClientId, isFloat: string -> bool, k: nat, now: int, m: Metrics, out: ProbeOut)
    requires k < |Battery|
    requires out == ProbeStep(Battery[k], ProbeInputs(shell, c)(Battery[k]), isFloat)
    requires RunAt(shell, c, isFloat, now, k, m)
    ensures var run := CollectUpTo(Steps(ProbeInputs(shell, c), isFloat), k + 1);
      && run.ran == k + 1
      && (out.failure.Some? <==> run.failure.Some?)
      && (out.failure.None? ==> RunAt(shell, c, isFloat, now, k + 1, m + out.fields))
    ensures out.failure.Some? ==>
      (m + out.fields)["error" := Failure(out.failure.value)] == SshSnapshot(true, CollectUpTo(Steps(ProbeInputs(shell, c), isFloat), k + 1), now)
  {
    var outs := Steps(ProbeInputs(shell, c), isFloat);
    assert out == outs(Battery[k]);
    FieldsJoin(Opening(now), CollectUpTo(outs, k).fields, out.fields);
    if out.failure.Some? {
      SshSnapshotRaised(CollectUpTo(outs, k + 1), now);
    }
  }

  /** After six stanzas none of which raised, setting `success` gives the battery's snapshot. */
  lemma CompletedAll(shell: Shell, c: ClientId, isFloat: string -> bool, now: int, m: Metrics)
    requires RunAt(shell, c, isFloat, now, |Battery|, m)
    ensures var run := RunBattery(ProbeInputs(shell, c), isFloat);
      && run.ran == |Battery|
      && m["success" := Flag(true)] == SshSnapshot(true, run, now)
  {
    SshSnapshotCompleted(RunBattery(ProbeInputs(shell, c), isFloat), now);
  }

  /** Overwriting a key with the value it already has changes nothing. */
  lemma UpdateSame(m: map<ServerId, Entry>, k: ServerId, v: Entry)
    requires k in m && m[k] == v
    ensures m[k := v] == m
  {
  }

  /** Re-adding a key after its removal is the same as overwriting it. */
  lemma ReplaceAfterRemove(m: map<ServerId, Entry>, k: ServerId, v: Entry)
    ensures (m - {k})[k := v] == m[k := v]
  {
  }

  lemma AppendTwo(a: seq<RemoteCall>, x: RemoteCall, y: RemoteCall)
    ensures a + [x] + [y] == a + [x, y]
  {
  }

  lemma CallsJoin(a: seq<RemoteCall>, b: seq<RemoteCall>, x: RemoteCall)
    ensures a + b + [x] == a + (b + [x])
  {
  }

  /** Adding two probes' fields one after the other adds their union. */
  lemma FieldsJoin(base: Metrics, a: Metrics, b: Metrics)
    ensures base + a + b == base + (a + b)
  {
  }

}
