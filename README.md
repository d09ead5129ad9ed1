# InfraWhiz core, modelled in Dafny

InfraWhiz is a chat front end for managing Linux servers over SSH. This project models its
core: the two connection registries, the metrics battery they run, the command helpers of
the assistant, the server and query endpoints, the database's UPDATE builder and the
add-server dialog. It also proves what each of them promises.

- `SSHManager` (ssh_manager.dfy).
  - A class whose `connections` map is the dictionary `server_id -> {client, last_used}`.
  - `order` is the dictionary's key order, which the idle sweep walks.
  - `calls` logs every dial, exec and close made on the network.
  - It covers connect, disconnect, get_connection, execute_command, get_server_metrics and
    cleanup_idle_connections.
- `ServerManager` (server_manager.dfy).
  - The second registry: the `servers` dictionary, the `table` it mirrors, and a lazily
    filled client cache.
  - It covers add_server, remove_server, list_servers, _get_connection, disconnect,
    execute_command and get_metrics.
- Probes (probes.dfy).
  - The six probe commands and their parse rules over Python's `str.split()`.
  - The battery both managers run, and the two failure policies:
    - SSHManager keeps what was collected before a parse raised.
    - ServerManager throws it away and returns only the error.
- Text (text.dfy).
  - The Python and JavaScript string built-ins the core relies on.
  - Proved facts about them: a split/join round trip, `s.strip().split() == s.split()`,
    `int(str(i)) == i`, and what `in` means.
- Agent (ai_agent.dfy): `_is_destructive`, `process_command_result`, and the action planning
  of `process_input` for an already parsed request.
- Routes (routes.dfy): the add_server, get_server and update_server handlers, and
  natural_language_query: its validation, its per-server loop and its aggregation.
- DB (db.dfy): the `add_server` record, and `update_server`'s whitelist, SET clause and
  parameter list.
- Form (server_form.dfy): the add-server dialog's `validate`, `handleSubmit` and
  `handleChange`, as a class over the form's state. Its proved end-to-end property: a form
  that validates gives a body that add_server accepts.

## Modelling choices

- **External calls are parameters.** Anything the core cannot compute itself comes in as a
  parameter or an oracle:
  - the clock (`now`);
  - a fresh id (`freshId`);
  - whether a key file exists (`keyExists`);
  - the outcome of a dial (`Dialer`), of a remote command (`Shell`) and of `close()`;
  - whether `float()` accepts a text (`isFloat`);
  - what a database lookup found, and the UPDATE's row count.
- **Exceptions.** An exception is modelled as the value the surrounding code turns it into:
  - a `False` return;
  - the `error` entry of a dictionary;
  - a 500 reply carrying the exception's text. Where that text matters, it is spelled out:
    for example "argument of type 'NoneType' is not iterable" when a request body is null.
- **JSON values.** A request body's values are null, booleans, integers, floats (as reals),
  strings, lists and objects, each with Python's truthiness.
- **Dictionaries.** A Python dictionary in a request body is a sequence of (key, value) pairs
  in insertion order, so that `d.get(k, default)` and `k in d` behave as in Python.

In these places the code does something other than what it seems meant to do; the model follows the code:

- **A failed probe parse ends the battery.** When a probe's parse raises in SSHManager's
  get_server_metrics, the remaining probes do not run. The answer keeps the fields collected
  before it, and has `success` false and `error` set. It does not merely omit that probe's
  fields. `ProbeFixtures.NetworkTooFewTokens` shows such a parse.
- **The fallback notice never reaches the user.** In process_input, the notice "Server '…'
  not found. Using default server instead." is assigned to the message. Every branch that
  follows then assigns the message again, so the user never sees the notice
  (`Agent.FallbackNoticeOverwritten`).
- **The query loop's connect never succeeds.** natural_language_query tries to connect with
  `server.get('password')` and `server.get('key_path')`. It reads them from rows of
  `get_servers`, which selects no credentials. So for a server with no open connection the
  connect always fails (`Routes.NeverConnects`), and that server's entry is the connect
  failure.
- **A restart never reports a failure.** In process_command_result, the "Failed to restart
  service" branch cannot be reached: a failed result was already answered at the top
  (`Agent.RestartNeverFails`).
- **The destructive test is textual.** `_is_destructive` is a plain substring test. For
  example, "ls /lib/firmware" counts as destructive because it contains "rm"
  (`Agent.TextualMatch`).

## Model

| member | source | states |
|---|---|---|
| SSH.ResultOf | ssh_manager.py:100-124 | success exactly when the command completed with exit code 0; a completed command passes stdout, stderr and the exit code through with no error; a transport exception gives its text as error, empty stdout, stderr "Error: " + text and exit code -1 |
| SSH.ChooseAuth | ssh_manager.py:27-46 | the key file is tried exactly when the key path is truthy and the file exists; otherwise the password when it is truthy; no attempt at all exactly when neither holds |
| SSH.KeyFileWins | ssh_manager.py:27-36 | an existing key file is used even when a password is also given |
| SSH.StaleIds | ssh_manager.py:207-209 | exactly the connected ids whose idle time now - last_used strictly exceeds the limit |
| SSH.EvictedIds | ssh_manager.py:209-211 | exactly the stale ids whose client closes |
| SSH.KeptIds | ssh_manager.py:207-211 | exactly the connected ids the sweep does not evict |
| SSH.CloseCalls | ssh_manager.py:207-210 | one close of each listed id's client, in the listed order |
| SSH.Survivors | ssh_manager.py:199-213 | the dictionary after a sweep holds exactly the kept ids, each with its entry unchanged |
| SSH.SurvivorsAreFreshOrStuck | ssh_manager.py:207-211 | every entry left after a sweep is within the idle limit or is one whose close failed |
| SSH.SweepIdempotent | ssh_manager.py:199-213 | a second sweep at the same time with the same close outcomes removes nothing more |
| SSH.SweepCount | ssh_manager.py:202-211 | the evictions along the key order are as many as the entries the dictionary lost |
| SSH.SSHManager.constructor | ssh_manager.py:13-15 | no connections, no keys, no calls |
| SSH.SSHManager.Connect | ssh_manager.py:17-63 | True exactly when a credential was chosen and its dial connected; with no credential nothing is dialled and nothing changes; a failed dial changes no entry; on success the id maps to the new client with last_used = now and no other entry changes, after the prior client (if any) was closed |
| SSH.SSHManager.Disconnect | ssh_manager.py:65-75 | an absent id gives False, no call and no change; a present id's client is closed once, and the answer is True exactly when the close succeeds, which alone removes the entry and its key |
| SSH.SSHManager.GetConnection | ssh_manager.py:77-84 | the stored client exactly when the id is present, refreshing only that entry's last_used to now; otherwise None and nothing changes |
| SSH.SSHManager.ExecuteCommand | ssh_manager.py:86-124 | without a connection the fixed not-connected result and no remote call; otherwise one exec with the timeout on the stored client, the result shaped by ResultOf, and the entry touched |
| SSH.SSHManager.Stanza | ssh_manager.py:149-189 | one probe: its command sent and its contribution added; it stops exactly when its parse raised, and the dictionary is then the battery's answer with the error |
| SSH.SSHManager.Stanzas | ssh_manager.py:148-192 | from stanza k on: the answer is the whole battery's, and the calls are the commands of the probes that ran |
| SSH.SSHManager.StanzasFrom | ssh_manager.py:148-197 | stanza k and then the rest unless it raised: the same final answer and calls |
| SSH.SSHManager.GetServerMetrics | ssh_manager.py:126-197 | no connection: only success false, timestamp and "Not connected to server", with no probe run; otherwise the six probes in order on the client, up to the first parse that raises, and exactly their commands sent |
| SSH.SSHManager.SweepStep | ssh_manager.py:207-211 | visiting one more key of the snapshot advances the sweep's dictionary, order, close calls and count by that key |
| SSH.SSHManager.CleanupIdleConnections | ssh_manager.py:199-213 | the dictionary becomes the survivors and the key order keeps theirs; one close per stale key in key order; the count is the successful closes, which is the number of entries lost; every survivor is fresh or its close failed |
| SSH.CompletedAll | ssh_manager.py:191-192 | after six stanzas none of which raised, setting success gives the completed battery's answer |
| Probes.KeysDisjoint | ssh_manager.py:149-189 | two different probes write disjoint sets of keys |
| Probes.ManagerKeysAreNotProbeKeys | ssh_manager.py:128-131 | success, timestamp and error are never written by a probe |
| Probes.PullFrom | ssh_manager.py:157 | converting items i.. succeeds exactly when there are exactly n tokens and each remaining one converts; the values are the conversions in order |
| Probes.UnpackMapped | ssh_manager.py:157 | `x1, ..., xn = map(conv, toks)` succeeds exactly when there are n tokens and all convert, giving their conversions in order |
| Probes.UnpackList | ssh_manager.py:165 | `x1, ..., xn = toks` succeeds exactly when there are n tokens |
| Probes.ParseCpu | ssh_manager.py:151-152 | cpu_usage is written exactly when float() accepts the stripped output; otherwise nothing is written and the probe raises |
| Probes.ParseMemory | ssh_manager.py:156-160 | no exception exactly when two integer tokens with a non-zero total; used and total are stored before the percentage, so a zero total keeps them and raises; a wrong count or a bad integer writes nothing |
| Probes.ParseDisk | ssh_manager.py:164-168 | three tokens store used and total as text; no exception exactly when float() accepts the third token with every % removed, and then the percentage is stored too; when that float() raises only used and total are left; the stored percentage holds no %; another count writes nothing |
| Probes.ParseLoad | ssh_manager.py:172-176 | the three loads are written exactly when there are three tokens float() accepts; otherwise nothing |
| Probes.ParseUptime | ssh_manager.py:180-181 | never raises, and stores the stripped output |
| Probes.ParseNetwork | ssh_manager.py:185-189 | no exception exactly when three tokens with integer rx and tx, stored with the interface stripped of every ':'; a bad rx leaves only the interface stored, a bad tx the interface and rx; the stored interface holds no ':'; another count writes nothing |
| Probes.Parse | ssh_manager.py:149-189 | a probe writes only its own keys, and uptime never raises |
| Probes.ProbeStep | ssh_manager.py:150-189 | a probe whose command failed, or the network probe with blank output, contributes nothing |
| Probes.ProbeCalls | ssh_manager.py:150-184 | one exec of each probe's command on the client with the timeout, in battery order |
| Probes.Then | ssh_manager.py:148-197 | after a probe raised the run is unchanged; otherwise the next probe's fields are added, the count advances and its exception, if any, is recorded |
| Probes.CollectUpTo | ssh_manager.py:148-189 | at most k probes have run, and exactly k when none raised |
| Probes.CollectShape | ssh_manager.py:148-197 | at least one probe runs; none raised exactly when all six ran and the network probe did not raise; an exception is the last probe's that ran; only probe keys are written |
| Probes.Stopped | ssh_manager.py:194-197 | once a probe has raised, the rest of the battery changes nothing |
| Probes.RunBatteryShape | server_manager.py:167-216 | the same shape for a battery over the probes' command outcomes |
| Probes.ClosedGateWritesNothing | ssh_manager.py:151-189 | a probe whose command failed (or network with blank output) leaves none of its keys in the answer |
| Probes.NeverStopsAtUptime | ssh_manager.py:179-181 | the battery never stops at the uptime probe |
| Probes.SshSnapshotRaised | ssh_manager.py:194-197 | after an exception the answer is the opening, the collected fields, then the error |
| Probes.SshSnapshotCompleted | ssh_manager.py:191-192 | after a complete run the answer is the opening, the collected fields, then success True |
| Probes.SshSnapshotContract | ssh_manager.py:126-197 | success is true exactly when connected and nothing raised; timestamp always present; error present exactly when not connected or a parse raised; the keys and values are those collected plus these |
| Probes.ServerSnapshotContract | server_manager.py:163-216 | never a success key; error present exactly when a parse raised, and then it is the only key; otherwise the collected fields plus a timestamp |
| Probes.SnapshotsDiverge | server_manager.py:213-216 | on the same run the two managers agree, except for SSHManager's success, when nothing raised; when a parse raised, ServerManager keeps only the error while SSHManager keeps everything collected |
| ProbeFixtures.TokensOfJoined | ssh_manager.py:157 | the tokens of space-joined words, after strip and split, are the words |
| ProbeFixtures.MemoryFixture | ssh_manager.py:155-160 | "512 1024" gives used 512, total 1024 and their percentage |
| ProbeFixtures.PercentRemoved | ssh_manager.py:168 | "32%" with every % removed is "32" |
| ProbeFixtures.DiskFixture | ssh_manager.py:163-168 | "3.2G 10G 32%" keeps the sizes as text and the percentage as float("32") |
| ProbeFixtures.NetworkTooFewTokens | ssh_manager.py:184-189 | "eth0: 1024" raises for too few values and writes nothing |
| Servers.Reach | server_manager.py:103-138 | a cached client is returned without dialling; an unknown id raises not found; otherwise one attempt with the key file if a key path is set, else the password, giving the client or ConnectionError with the prefixed text |
| Servers.ReachAgain | server_manager.py:103-138 | after one lookup, asking again gives the same answer; a cached client dials nothing; the cache is settled |
| Servers.OutputOf | server_manager.py:147-161 | a completed command's stdout, stderr and exit code; any exception from connecting or running gives empty stdout, the prefixed text and exit code -1 |
| Servers.FailuresAreReported | server_manager.py:156-161 | every failure inside execute_command is exit code -1, no stdout and a prefixed message |
| Servers.Rows | server_manager.py:34-51 | the loaded dictionary holds exactly the fetched ids, each row under its own id |
| Servers.Summaries | server_manager.py:97-101 | one summary per id, in order, from that server's record |
| Servers.SummariesIds | server_manager.py:97-101 | the listed ids are the key order |
| Servers.SummariesSnoc | server_manager.py:76-101 | after adding a server at the end of the order, the listing gains its summary last |
| Servers.FirstIds | server_manager.py:34-51 | the dictionary's key order after loading: the fetched ids, each once, where it first appeared |
| Servers.FirstIdsDistinct | server_manager.py:34-51 | with distinct ids (the table's primary key) that order is the fetch order itself |
| Servers.ServerManager.constructor | server_manager.py:10-51 | the fetched rows become the dictionary and the table with no clients; the key order is FirstIds, which is the fetch order when the ids are distinct |
| Servers.ServerManager.ListServers | server_manager.py:97-101 | one summary per stored server, in dictionary order, none with a password or key path |
| Servers.ServerManager.AddServer | server_manager.py:53-78 | under a fresh id the full record is stored in table and dictionary and appended to the order, and the summary is returned; a repeated id raises and changes nothing |
| Servers.ServerManager.Disconnect | server_manager.py:140-145 | True and the client dropped exactly when a client was cached and its close succeeds; a close that raises propagates and keeps it; False and no call otherwise |
| Servers.ServerManager.RemoveServer | server_manager.py:80-95 | disconnects first, and raises (changing nothing, the client cache included) exactly when that close raises; otherwise True exactly when the id was known, the record and its client dropped and no other record or client touched; the only call made is the close of the id's cached client, if any |
| Servers.ServerManager.GetConnection | server_manager.py:103-138 | the answer is Reach, the cache keeps a new client only after a successful connect, and the dial log grows by the one attempt made |
| Servers.ServerManager.ExecuteCommand | server_manager.py:147-161 | never raises: the output of the lookup and the command, with the dial and the exec logged |
| Servers.ServerManager.GetMetrics | server_manager.py:163-216 | the six probes in order, gated on exit code 0; the first parse that raises leaves only the error; otherwise the fields and the timestamp; an unreachable server dials again on each probe; an unknown id or a failed dial gives the timestamp alone |
| Servers.UnreachableGivesOnlyTimestamp | server_manager.py:147-214 | when _get_connection raises, every probe's command fails with exit code -1, no gate opens, and the answer is only the timestamp: no error and no success key |
| Servers.ServerManager.MetricStanzas | server_manager.py:167-214 | from stanza k on, the final state is the battery's |
| Servers.ServerManager.MetricFrom | server_manager.py:167-216 | stanza k, then the rest unless it raised, ending in the battery's state |
| Servers.ServerManager.MetricStanza | server_manager.py:168-211 | one stanza: its command through execute_command, its contribution added, or the error-only answer when it raised |
| Servers.ServerManager.StanzaCommand | server_manager.py:169-207 | a stanza's command gives the output execute_command gives for the lookup's answer |
| Servers.MetricStep | server_manager.py:215-216 | a parse that raises ends the run with only the error |
| Servers.AllStepsDone | server_manager.py:213-214 | after six stanzas the timestamp completes the answer |
| DB.GetOr | routes.py:61-63 | `d.get(key, default)`: the default exactly when the key is absent, else a value paired with the key |
| DB.AddServerRecord | db.py:71-77 | the record holds exactly id, name, hostname, username and port, and no credential |
| DB.AddServerRecordHidesCredentials | db.py:55-77 | the record does not depend on the password or the key path |
| DB.Kept | db.py:99-100 | exactly the arguments whose name is a settable column, each one once per occurrence and in order |
| DB.KeptAppend | db.py:100 | filtering preserves order: it distributes over concatenation |
| DB.KeptEmptyIff | db.py:100-103 | nothing is kept exactly when no argument names a settable column |
| DB.UpdateServer | db.py:97-116 | with nothing kept, False, no statement and no exception; otherwise the UPDATE of the kept columns' SET clause with their values then the id, an exception sqlite raises on it propagates, and True exactly when it did not raise and a row changed |
| DB.AssignmentPlaceholder | db.py:105 | one column's assignment holds one placeholder |
| DB.SetClausePlaceholders | db.py:105 | the SET clause holds one placeholder per column |
| DB.UpdateSqlPlaceholders | db.py:112 | the statement holds one placeholder more than its SET clause |
| DB.UpdatePlaceholdersMatch | db.py:105-113 | the statement names only whitelisted columns and has as many placeholders as parameters, the last being the server id |
| Agent.AnyInIff | ai_agent.py:225 | `any(w in c for w in words)` holds exactly when some listed word occurs in c |
| Agent.IsDestructive | ai_agent.py:223-225 | destructive exactly when some listed command occurs in the command as text |
| Agent.DestructiveAnywhere | ai_agent.py:223-225 | a listed command with any text around it is destructive |
| Agent.TextualMatch | ai_agent.py:32-37 | "ls /lib/firmware" is destructive, because it contains "rm" |
| Agent.KindOf | ai_agent.py:341-361 | the chosen format's test passes and every test earlier in the chain (ps aux, df -h, free -h, top -bn1 with Cpu, systemctl status, systemctl restart) fails; the generic format exactly when none passes |
| Agent.KindOfIsFirstPassing | ai_agent.py:341-361 | conversely, a format whose test passes while no earlier one does is the one chosen, so the order of the chain decides |
| Agent.ServiceName | ai_agent.py:351 | the last whitespace-separated token of the command |
| Agent.SystemctlHasService | ai_agent.py:350-357 | a systemctl command always has a last token to take |
| Agent.ProcessCommandResult | ai_agent.py:334-364 | a failure gives "Error executing command: " with the error, else stderr; on success each format gives its own text: the processes, disk and memory headings over stdout, CPU usage from the stripped stdout with %, a status "is running" exactly when stdout shows "Active: active" and the raw status otherwise, the restart sentence, and for the generic case stdout or the no-output sentence; never empty |
| Agent.FirstKeyWins | ai_agent.py:341-342 | a successful command containing "ps aux" gets the processes format, whatever else it contains |
| Agent.RestartNeverFails | ai_agent.py:356-361 | a restart is never reported as failed: failures get the generic error |
| Agent.ServiceIsLastWord | ai_agent.py:357 | for words joined by spaces the service is the last word |
| Agent.FirstNamed | ai_agent.py:251-254 | the first server whose name equals the target ignoring case; none exactly when no name matches |
| Agent.LookUp | ai_agent.py:250-259 | the loop settles on the first match, or falls back to the first server with the notice |
| Agent.ActionsPerServer | ai_agent.py:268-304 | one action of the given type per server, in list order |
| Agent.ProcessInput | ai_agent.py:227-332 | the reply Respond gives: the message and the actions for the parsed request |
| Agent.AllWithoutServers | ai_agent.py:243-247 | target "all" with no servers gives the no-servers message and no actions |
| Agent.OneActionPerServer | ai_agent.py:262-304 | target "all": one action per server in order, get_metrics for metrics, confirm exactly for a destructive command and execute otherwise |
| Agent.CommandWithoutText | ai_agent.py:281-332 | a command request with no command text ends in the error reply of the TypeError it raises |
| Agent.NamedTarget | ai_agent.py:249-259 | a named target gets the first case-insensitive match's id; with no match the first server's; with no servers none |
| Agent.NamedTargetAction | ai_agent.py:273-319 | a named target gets exactly one action, aimed at the looked-up id |
| Agent.FallbackNoticeOverwritten | ai_agent.py:256-323 | the fallback notice never begins the final message |
| Routes.Redacted | routes.py:31-33 | every field but the password, with its value unchanged |
| Routes.GetServer | routes.py:25-35 | 200 exactly when the lookup found a non-empty row, which is returned without its password; otherwise 404 "Server not found" |
| Routes.GetServerHidesPassword | routes.py:30-34 | no record get_server returns has a password |
| Routes.UpdateServer | routes.py:71-96 | 404 for an unknown server; 500 when the body has a server_id key; otherwise the DB update with the body, then 500 with the exception's text when the UPDATE raised, the fresh row without its password, or 500 when nothing was updated |
| Routes.FirstMissing | routes.py:47-50 | none exactly when every field is present; otherwise the first missing field, in order |
| Routes.AddServer | routes.py:40-69 | the loop checks the fields in order with early return, then the credential, then the insert |
| Routes.AddServerNamesFirstMissing | routes.py:47-50 | the first missing required field is named in a 400 |
| Routes.AddServerAccepts | routes.py:52-66 | 201 exactly when the three fields, a truthy password or key path and a successful insert; the record then has no credential and its port is the body's, or 22 when absent |
| Routes.AddServerNeedsCredential | routes.py:53-54 | neither credential truthy gives 400 with the credential message |
| Routes.EmptyValuesAreNoCredential | routes.py:53-54 | an empty list or object, or 0.0, as the password with no key path is refused the same way |
| Routes.NeverConnects | routes.py:338-346 | the query loop's connect never succeeds: the rows carry no credential |
| Routes.MetricEntry | routes.py:356-444 | success exactly when the metrics say so; a failure carries the dictionary's error or "Unknown error" and no data |
| Routes.CommandEntry | routes.py:446-480 | success as the command's; its data names the command and exit code (with the outputs on success); a failure's error is its stderr |
| Routes.ProcessServers | routes.py:331-480 | the entries Results gives, one pass per server in order |
| Routes.Aggregate | routes.py:482-497 | status 200 exactly when every entry succeeded, and 500 otherwise |
| Routes.Matching | routes.py:319 | exactly the servers whose name equals the target ignoring case, in order |
| Routes.NaturalLanguageQuery | routes.py:271-506 | the reply QueryReply gives for the body, the parser, the servers and the SSH outcomes |
| Routes.QueryRefusesVague | routes.py:298-303 | a parse without a truthy intent and action is refused with 400 and the parse |
| Routes.QueryUnknownServer | routes.py:316-326 | a named target matching no server ignoring case gives 404 |
| Routes.QueryWithoutTarget | routes.py:318-326 | with no target, no servers give the 404 for "None" (the comparison never runs) and any server gives the 500 of `None.lower()` |
| Routes.MatchingEmptyIff | routes.py:319-321 | no server is selected exactly when no name matches the target ignoring case |
| Routes.OneEntryPerServer | routes.py:333-354 | one entry per server, in order; a server with no open connection gets the connect failure and nothing else |
| Routes.OneOutcome | routes.py:333-480 | for the metrics or command intent each server gives exactly one entry under its name, the connect failure when it has no open connection |
| Routes.UnknownIntentOnlyFailures | routes.py:333-480 | for an unknown intent only connect failures are listed, and none when every server is connected |
| Routes.AggregateShape | routes.py:483-497 | 200 exactly when all succeeded; one result flattened with the parse, otherwise the aggregate with the count |
| Routes.UnconnectedServersFail | routes.py:337-354 | when no server has an open connection the reply is 500 |
| Form.ErrorRules | frontend/src/components/ServerForm.js:46-71 | each field's error exactly when its rule fires, with its own message: identity fields blank after trim, the chosen method's credential empty, a non-empty port not all digits |
| Form.ChangeKeepsOtherErrors | frontend/src/components/ServerForm.js:30-71 | editing one field other than the login method leaves every other field's error as it was |
| Form.NoErrorsIff | frontend/src/components/ServerForm.js:73-74 | no errors exactly when none of the rules fires |
| Form.InitialNotSubmittable | frontend/src/components/ServerForm.js:18-26 | the opening form's errors are exactly name, hostname, username and password |
| Form.Submission | frontend/src/components/ServerForm.js:80-92 | the identity fields copied; the port parsed, or 22 when empty; the password exactly for password login, otherwise the key path, never both |
| Form.BodyFields | frontend/src/components/ServerForm.js:80-92 | the posted body has the three required fields, the port, and the chosen credential |
| Form.SubmissionAccepted | frontend/src/components/ServerForm.js:77-94 | a form that validates gives a body add_server accepts with 201, with the port the form gave |
| Form.CollectErrors | frontend/src/components/ServerForm.js:46-72 | the six checks in order give exactly ErrorsFor |
| Form.ServerForm.constructor | frontend/src/components/ServerForm.js:18-28 | the initial form and no errors |
| Form.ServerForm.HandleChange | frontend/src/components/ServerForm.js:30-44 | only the named field is set, and its error is cleared when one was shown |
| Form.ServerForm.Validate | frontend/src/components/ServerForm.js:46-75 | the errors become the form's errors, and the answer is true exactly when there are none |
| Form.ServerForm.HandleSubmit | frontend/src/components/ServerForm.js:77-108 | a valid form is submitted as Submission and the dialog reset; an invalid one is kept with its errors |
| Text.JsTrimEmptyIff | frontend/src/components/ServerForm.js:49 | `s.trim()` is empty exactly when every character is JavaScript white space |
| Text.Split | ssh_manager.py:157 | `s.split()`: every token is a non-empty run of non-whitespace characters |
| Text.SplitJoinSpaced | ssh_manager.py:157 | split of space-joined tokens gives the tokens back |
| Text.SplitIgnoresStrip | ssh_manager.py:157 | `s.strip().split() == s.split()` |
| Text.SplitEmptyIffBlank | ssh_manager.py:185-186 | no tokens exactly when the stripped text is empty |
| Text.LastToken | ai_agent.py:351 | `s.split()[-1]` exists exactly when there is a token, and is the last one |
| Text.ContainsIff | ai_agent.py:225 | `needle in haystack` exactly when the needle occurs at some index |
| Text.RemoveAll | ssh_manager.py:168 | no such character left, every other character kept as often |
| Text.RemoveAllAppend | ssh_manager.py:168 | removal distributes over concatenation, so the characters left keep their order |
| Text.RemoveAllSingle | ssh_manager.py:168 | a single character is dropped exactly when it is the removed one |
| Text.Lower | routes.py:319 | same length, each character lower-cased |
| Text.NatToString | routes.py:494 | `str(n)`: a non-empty string of digits with no leading zero |
| Text.NatToStringRoundTrip | routes.py:494 | the digits of str(n) read back as n |
| Text.IntToStringRoundTrip | ssh_manager.py:188 | `int(str(i)) == i` |
| Text.ParseDigits | ssh_manager.py:157 | int() of a digit string is its decimal value |
| Text.ParseNegativeGroup | ssh_manager.py:188 | int() of a minus sign and digits is the negated value |

## Left out

- Threading and the lock. Only the sequential behaviour is modelled. As written, connect and
  cleanup_idle_connections call disconnect while holding the non-reentrant lock, which would
  deadlock. The model does what the code evidently intends: close, then replace or remove.
- Real SSH and SFTP I/O. paramiko's connect, exec_command, close and key loading are
  parameters. upload_file and download_file (ssh_manager.py:215-285) are file transfer over
  SFTP and are not modelled.
- The clock. `time.time()` is the parameter `now`, and every read within one call shares it.
  uuid4 is the parameter `freshId`.
- Floating point values.
  - `float()` is an oracle `isFloat`, and a float value is kept as the text it came from.
  - memory_percent is kept as the pair (used, total); `round()` is not evaluated.
  - format_metrics (ai_agent.py:366-402) is left out.
  - The message texts that print float metrics use a `show` parameter.
- The regex intent parser parse_user_input (ai_agent.py:83-221). process_input takes the
  parsed request as input, and natural_language_query takes the parser as a parameter.
- The Claude client branch of ai_agent.py (lines 21-30, 407-538): an external model call.
- sqlite.
  - What a SELECT returns and how many rows an UPDATE changed are parameters.
  - An exception in an insert or an UPDATE (a null for a NOT NULL column, a value sqlite
    cannot bind) is the parameter `failure`; its text is what sqlite would say.
  - The command history insert in the query loop (routes.py:451-456) is not modelled. The
    reply does not use it.
  - The DELETE and INSERT of ServerManager are modelled as the `table` map.
- Flask and SocketIO. `request.json` is an optional object, where None is a null body.
  jsonify, app.py and websocket.py are not part of this model.
- Routes.UpdateServer: the body is modelled as a JSON object. A non-object body, which
  makes `**data` raise TypeError, is not modelled.
- Servers.ServerManager.GetMetrics: every re-dial within one call is assumed to answer like
  the first, because a `Dialer` is a function of the credentials. In the source each of the
  six execute_command calls dials again when no client is cached. A host that becomes
  reachable part-way through would then serve the remaining probes and be cached, and the
  model does not capture that.
- Servers.ReachAgain: "the same answer" for a failed re-dial rests on the same assumption,
  that a `Dialer` answers the same credentials the same way every time.
- Routes.NaturalLanguageQuery: the calls into the SSH manager are modelled as per-server
  outcomes (the `Backend` parameter). The changes they make to the shared SSHManager's
  dictionary are not carried through the loop.
- Routes.MetricEntry: a metrics dictionary without "success" is read as a failure. In
  Python it would raise KeyError. get_server_metrics always sets this key.
- A request body is a sequence of (key, value) pairs. A JSON object as parsed has no
  repeated key, and the model does not rule one out.
- Form.Submission: parseInt is exact on digit strings. Precision above 2^53 and React's
  batching of state updates are not modelled, and rendering is left out.
- Text.Lower: lower-cases the ASCII letters only.
- Text.ParseInt: accepts ASCII digits only. The text of the exceptions raised by the probe
  parses is not reproduced; a ParseError value stands for it.
