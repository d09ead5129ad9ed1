/**
 * The rule-based assistant (AIAgent): the test that marks a command as destructive, the
 * reply and actions built for an already parsed request, and the text made from a command's
 * result. The parser that turns free text into a request is not part of this model; its
 * output is the input here.
 */
module Agent {
  import opened Wrappers
  import opened Text
  import opened Remote
  import SSH
  import Probes
  import DB

  // ---------------------------------------------------------------- destructive commands

  /** The commands that need confirmation, as listed (mkfs appears twice). */
  const DestructiveCommands: seq<string> := [
    "rm", "rmdir", "mkfs", "dd", "shutdown", "reboot", "halt", "poweroff",
    "kill", "killall", "systemctl stop", "systemctl restart", "service",
    "fdisk", "mkswap", "mkfs", "format", "parted", "gparted", "lvremove",
    "vgremove", "pvremove"
  ]

  /** Python's `any(w in command for w in words)`. */
  predicate AnyIn(command: string, words: seq<string>)
  {
    words != [] && (Contains(command, words[0]) || AnyIn(command, words[1..]))
  }

  lemma {:induction false} AnyInIff(command: string, words: seq<string>)
    ensures AnyIn(command, words) <==> exists w :: w in words && Contains(command, w)
  {
    if words != [] {
      AnyInIff(command, words[1..]);
      assert forall w :: w in words <==> w == words[0] || w in words[1..];
      if Contains(command, words[0]) {
        assert words[0] in words;
      }
    }
  }

  /** _is_destructive: some listed command occurs anywhere in the command, as plain text. */
  function IsDestructive(command: string): (r: bool)
    ensures r <==> exists w :: w in DestructiveCommands && Contains(command, w)
  {
    AnyInIff(command, DestructiveCommands);
    AnyIn(command, DestructiveCommands)
  }

  /** Whatever surrounds a listed command, the whole is destructive. */
  lemma DestructiveAnywhere(prefix: string, w: string, suffix: string)
    requires w in DestructiveCommands
    ensures IsDestructive(prefix + w + suffix)
  {
    ContainsInside(prefix, w, suffix);
  }

  /** The test is textual: a read-only command whose path contains "rm" counts as destructive. */
  lemma TextualMatch()
    ensures IsDestructive("ls /lib/firmware")
  {
    assert "ls /lib/firmware" == "ls /lib/fi" + "rm" + "ware";
    DestructiveAnywhere("ls /lib/fi", "rm", "ware");
  }

  // ---------------------------------------------------------------- command results

  /** The formats process_command_result knows, tried in this order. */
  datatype Kind = Processes | DiskUsage | MemoryUsage | CpuUsage | ServiceStatus | ServiceRestart | Generic

  /** The test process_command_result makes for each format; the generic one always applies. */
  predicate Passes(k: Kind, command: string)
  {
    match k
    case Processes => Contains(command, "ps aux")
    case DiskUsage => Contains(command, "df -h")
    case MemoryUsage => Contains(command, "free -h")
    case CpuUsage => Contains(command, "top -bn1") && Contains(command, "Cpu")
    case ServiceStatus => Contains(command, "systemctl status")
    case ServiceRestart => Contains(command, "systemctl restart")
    case Generic => true
  }

  /** The position of each test in the chain of tests. */
  function Rank(k: Kind): nat
  {
    match k
    case Processes => 0
    case DiskUsage => 1
    case MemoryUsage => 2
    case CpuUsage => 3
    case ServiceStatus => 4
    case ServiceRestart => 5
    case Generic => 6
  }

  /** Which format applies: the first test, in this order, that the command passes. */
  function KindOf(command: string): (k: Kind)
    ensures Passes(k, command)
    ensures forall j: Kind :: Rank(j) < Rank(k) ==> !Passes(j, command)
    ensures k == Processes <==> Contains(command, "ps aux")
    ensures k == Generic <==>
      && !Contains(command, "ps aux") && !Contains(command, "df -h") && !Contains(command, "free -h")
      && !(Contains(command, "top -bn1") && Contains(command, "Cpu"))
      && !Contains(command, "systemctl status") && !Contains(command, "systemctl restart")
    ensures k == ServiceStatus ==> Contains(command, "systemctl status")
    ensures k == ServiceRestart ==> Contains(command, "systemctl restart")
  {
    if Contains(command, "ps aux") then Processes
    else if Contains(command, "df -h") then DiskUsage
    else if Contains(command, "free -h") then MemoryUsage
    else if Contains(command, "top -bn1") && Contains(command, "Cpu") then CpuUsage
    else if Contains(command, "systemctl status") then ServiceStatus
    else if Contains(command, "systemctl restart") then ServiceRestart
    else Generic
  }

  /** The converse: a kind whose test passes while no earlier test does is the kind chosen. */
  lemma KindOfIsFirstPassing(command: string, k: Kind)
    requires Passes(k, command)
    requires forall j: Kind :: Rank(j) < Rank(k) ==> !Passes(j, command)
    ensures KindOf(command) == k
  {
    var chosen := KindOf(command);
    assert Rank(chosen) == Rank(k) by {
      assert Passes(chosen, command);
    }
  }

  /** A command that contains a word splits into at least one token. */
  lemma ContainsWord(command: string, word: string)
    requires Contains(command, word) && word != [] && !IsSpace(word[0])
    ensures Split(command) != []
  {
    ContainsIff(command, word);
    var i :| OccursAt(command, word, i);
    assert command[i] == command[i..i + |word|][0];
    SplitNonBlank(command, i);
  }

  /**
   * The service a systemctl command names, `command.split()[-1]`: its last whitespace-separated
   * token (a command with no token would raise IndexError; SystemctlHasService shows the
   * formatter never asks for one).
   */
  function ServiceName(command: string): (service: string)
    ensures Split(command) != [] ==> IsToken(service) && service == Split(command)[|Split(command)| - 1]
  {
    match LastToken(command)
    case Some(t) => t
    case None => ""
  }

  /** The two systemctl formats only ever take the last token of a command that has one. */
  lemma SystemctlHasService(command: string)
    requires KindOf(command) == ServiceStatus || KindOf(command) == ServiceRestart
    ensures Split(command) != []
  {
    if KindOf(command) == ServiceStatus {
      ContainsWord(command, "systemctl status");
    } else {
      ContainsWord(command, "systemctl restart");
    }
  }

  /**
   * `result.get('error', result.get('stderr', 'Unknown error'))`: the error when the result
   * has one, else stderr. The 'Unknown error' default cannot arise: every dictionary
   * execute_command returns carries a stderr, which CommandResult always holds.
   */
  function ErrorText(result: SSH.CommandResult): string
  {
    if result.error.Some? then result.error.value else result.stderr
  }

  const NoOutput := "Command executed successfully with no output."

  /** process_command_result: a readable message for a command and its result. */
  function ProcessCommandResult(command: string, result: SSH.CommandResult): (r: string)
    ensures !result.success ==> r == "Error executing command: " + ErrorText(result)
    ensures result.success && KindOf(command) == Processes ==> r == "Top processes:\n\n" + result.stdout
    ensures result.success && KindOf(command) == DiskUsage ==> r == "Disk usage:\n\n" + result.stdout
    ensures result.success && KindOf(command) == MemoryUsage ==> r == "Memory usage:\n\n" + result.stdout
    ensures result.success && KindOf(command) == CpuUsage ==> r == "CPU usage: " + Strip(result.stdout) + "%"
    ensures result.success && KindOf(command) == ServiceStatus && Contains(result.stdout, "Active: active") ==>
      r == "Service " + ServiceName(command) + " is running."
    ensures result.success && KindOf(command) == ServiceStatus && !Contains(result.stdout, "Active: active") ==>
      r == "Service " + ServiceName(command) + " status:\n\n" + result.stdout
    ensures result.success && KindOf(command) == ServiceRestart ==>
      r == "Service " + ServiceName(command) + " has been successfully restarted."
    ensures result.success && KindOf(command) == Generic ==>
      r == (if result.stdout != "" then result.stdout else NoOutput)
    ensures r != ""
  {
    if !result.success then "Error executing command: " + ErrorText(result)
    else match KindOf(command)
      case Processes => "Top processes:\n\n" + result.stdout
      case DiskUsage => "Disk usage:\n\n" + result.stdout
      case MemoryUsage => "Memory usage:\n\n" + result.stdout
      case CpuUsage => "CPU usage: " + Strip(result.stdout) + "%"
      case ServiceStatus =>
        var service := ServiceName(command);
        if Contains(result.stdout, "Active: active") then "Service " + service + " is running."
        else "Service " + service + " status:\n\n" + result.stdout
      case ServiceRestart =>
        var service := ServiceName(command);
        if result.success then "Service " + service + " has been successfully restarted."
        else "Failed to restart service " + service + ":\n\n" + result.stderr
      case Generic => if result.stdout != "" then result.stdout else NoOutput
  }

  /** The keys are tried in order: "ps aux" wins over every later key in the same command. */
  lemma FirstKeyWins(before: string, after: string, result: SSH.CommandResult)
    requires result.success
    ensures ProcessCommandResult(before + "ps aux" + after, result) == "Top processes:\n\n" + result.stdout
  {
    ContainsInside(before, "ps aux", after);
  }

  /** A restart never reports a failure: the result's failure was already handled above it. */
  lemma RestartNeverFails(command: string, result: SSH.CommandResult)
    requires KindOf(command) == ServiceRestart
    ensures var r := ProcessCommandResult(command, result);
      && (result.success ==> !("Failed to restart service " <= r))
      && (!result.success ==> r == "Error executing command: " + ErrorText(result))
  {
    if result.success {
      var r := ProcessCommandResult(command, result);
      assert r[0] == 'S' && "Failed to restart service "[0] == 'F';
    }
  }

  /** The service is the last word: for words joined by spaces, the last of them. */
  lemma ServiceIsLastWord(words: seq<string>)
    requires |words| >= 1 && forall i :: 0 <= i < |words| ==> IsToken(words[i])
    ensures ServiceName(JoinSpaced(words)) == words[|words| - 1]
  {
    SplitJoinSpaced(words);
    LastOfSplit(JoinSpaced(words), words);
  }

  lemma LastOfSplit(command: string, words: seq<string>)
    requires |words| >= 1 && Split(command) == words
    ensures ServiceName(command) == words[|words| - 1]
  {
  }

  // ---------------------------------------------------------------- process_input

  /** What the parser extracted from the user's text; each key may be None. */
  datatype Parsed = Parsed(intent: Option<string>, action: Option<string>, target: Option<string>)

  datatype ActionType = GetMetrics | Confirm | Execute

  /** One entry of `response['actions']`; get_metrics entries carry no command. */
  datatype Action = Action(kind: ActionType, serverId: Option<ServerId>, command: Option<string>)

  datatype Response = Response(message: string, actions: seq<Action>)

  const NoServersMessage := "No servers are configured. " + "Please add a server first."
  const NotUnderstood := "I'm not sure what you want to do. " + "Try asking about system metrics or specify a command to run."
  const ErrorPrefix := "I encountered an error " + "processing your request: "

  /** str() of the TypeError `x in None` raises, here and in the handlers for a null body. */
  const NoneNotIterable := "argument of type 'NoneType' is not iterable"

  /** An optional string in an f-string: None prints as "None". */
  function Show(o: Option<string>): string
  {
    if o.Some? then o.value else "None"
  }

  /** The notice the lookup writes when it falls back to the first server. */
  function FallbackNotice(target: string): string
  {
    "Server '" + target + "' not found. Using default server instead. "
  }

  function Warning(command: string, scope: string): string
  {
    "\U{26A0}\U{FE0F} Warning: The command '" + command + "' is potentially destructive. Are you sure you want to run it" + scope + "?"
  }

  /** Position of the first server whose name equals `name` ignoring case. */
  function FirstNamed(servers: seq<DB.ServerRow>, name: string): (r: Option<nat>)
    ensures r.Some? ==> r.value < |servers| && SameIgnoringCase(servers[r.value].name, name)
    ensures r.Some? ==> forall j :: 0 <= j < r.value ==> !SameIgnoringCase(servers[j].name, name)
    ensures r.None? <==> forall j :: 0 <= j < |servers| ==> !SameIgnoringCase(servers[j].name, name)
  {
    if servers == [] then None
    else if SameIgnoringCase(servers[0].name, name) then Some(0)
    else
      var rest := FirstNamed(servers[1..], name);
      assert forall j :: 0 < j < |servers| ==> servers[1..][j - 1] == servers[j];
      if rest.Some? then Some(rest.value + 1) else None
  }

  /**
   * The id the lookup of a named target settles on: the first case-insensitive match, or,
   * when that gives no (truthy) id and there are servers, the first server's.
   */
  function TargetId(servers: seq<DB.ServerRow>, name: string): Option<ServerId>
  {
    var hit := FirstNamed(servers, name);
    var found := if hit.Some? then Some(servers[hit.value].id) else None;
    if !Truthy(found) && servers != [] then Some(servers[0].id) else found
  }

  /** One action of the given type for every server, in list order. */
  function PerServer(kind: ActionType, servers: seq<DB.ServerRow>, command: Option<string>): seq<Action>
  {
    seq(|servers|, i requires 0 <= i < |servers| => Action(kind, Some(servers[i].id), command))
  }

  /** The reply to a metrics request, once the target's id is settled. */
  function MetricsReply(p: Parsed, servers: seq<DB.ServerRow>, id: Option<ServerId>): Response
  {
    if p.target == Some("all") then
      Response("Retrieving " + Show(p.action) + " metrics for all servers.", PerServer(GetMetrics, servers, None))
    else Response("Retrieving " + Show(p.action) + " metrics for " + Show(p.target) + ".", [Action(GetMetrics, id, None)])
  }

  /** The reply to a request to run a command, once the target's id is settled. */
  function CommandReply(p: Parsed, servers: seq<DB.ServerRow>, id: Option<ServerId>): Response
  {
    if p.action.None? then Response(ErrorPrefix + NoneNotIterable, [])
    else
      var command := p.action.value;
      var kind := if IsDestructive(command) then Confirm else Execute;
      if p.target == Some("all") then
        var message := if IsDestructive(command) then Warning(command, " on all servers")
                       else "Executing '" + command + "' on all servers.";
        Response(message, PerServer(kind, servers, p.action))
      else
        var message := if IsDestructive(command) then Warning(command, "")
                       else "Executing '" + command + "' on " + Show(p.target) + ".";
        Response(message, [Action(kind, id, p.action)])
  }

  /** The reply process_input gives for a parsed request and the configured servers. */
  function Respond(p: Parsed, servers: seq<DB.ServerRow>): Response
  {
    var all := p.target == Some("all");
    if all && servers == [] then Response(NoServersMessage, [])
    else
      var id := if Truthy(p.target) && !all then TargetId(servers, p.target.value) else None;
      if p.intent == Some("metrics") then MetricsReply(p, servers, id)
      else if p.intent == Some("command") then CommandReply(p, servers, id)
      else Response(NotUnderstood, [])
  }

  /** Whether the lookup of a named target falls back to the first server. */
  predicate FallsBack(servers: seq<DB.ServerRow>, name: string)
  {
    var hit := FirstNamed(servers, name);
    !Truthy(if hit.Some? then Some(servers[hit.value].id) else None) && servers != []
  }

  /**
   * The lookup of a named target: the first server whose lower-cased name equals the target's,
   * then the fallback to the first server with its notice.
   */
  method LookUp(servers: seq<DB.ServerRow>, target: string) returns (serverId: Option<ServerId>, notice: Option<string>)
    ensures serverId == TargetId(servers, target)
    ensures notice == if FallsBack(servers, target) then Some(FallbackNotice(target)) else None
  {
    serverId := None;
    notice := None;
    var i := 0;
    while i < |servers|
      invariant 0 <= i <= |servers|
      invariant serverId.None?
      invariant forall j :: 0 <= j < i ==> !SameIgnoringCase(servers[j].name, target)
    {
      if Lower(servers[i].name) == Lower(target) {
        serverId := Some(servers[i].id);
        break;
      }
      i := i + 1;
    }
    assert serverId == (if FirstNamed(servers, target).Some? then Some(servers[FirstNamed(servers, target).value].id) else None);
    if !Truthy(serverId) && |servers| > 0 {
      serverId := Some(servers[0].id);
      notice := Some(FallbackNotice(target));
    }
  }

  /** The loop that adds one action of the given type per server. */
  method ActionsPerServer(kind: ActionType, servers: seq<DB.ServerRow>, command: Option<string>) returns (actions: seq<Action>)
    ensures actions == PerServer(kind, servers, command)
  {
    actions := [];
    for i := 0 to |servers|
      invariant |actions| == i
      invariant forall j :: 0 <= j < i ==> actions[j] == Action(kind, Some(servers[j].id), command)
    {
      actions := actions + [Action(kind, Some(servers[i].id), command)];
    }
  }

  /**
   * process_input after the parse: look the target up, then assign the message and append the
   * actions for the intent.
   */
  method ProcessInput(p: Parsed, servers: seq<DB.ServerRow>) returns (r: Response)
    ensures r == Respond(p, servers)
  {
    var message := "";
    var actions: seq<Action> := [];
    var serverId: Option<ServerId> := None;
    if Truthy(p.target) {
      var target := p.target.value;
      if target == "all" {
        if servers == [] {
          message := NoServersMessage;
          return Response(message, actions);
        }
      } else {
        var notice;
        serverId, notice := LookUp(servers, target);
        if notice.Some? {
          message := notice.value;
        }
      }
    }
    if p.intent == Some("metrics") {
      var metricType := Show(p.action);
      if p.target == Some("all") {
        message := "Retrieving " + metricType + " metrics for all servers.";
        actions := ActionsPerServer(GetMetrics, servers, None);
      } else {
        message := "Retrieving " + metricType + " metrics for " + Show(p.target) + ".";
        actions := actions + [Action(GetMetrics, serverId, None)];
      }
    } else if p.intent == Some("command") {
      if p.action.None? {
        return Response(ErrorPrefix + NoneNotIterable, []);
      }
      var command := p.action.value;
      var isDestructive := IsDestructive(command);
      if p.target == Some("all") {
        if isDestructive {
          message := Warning(command, " on all servers");
          actions := ActionsPerServer(Confirm, servers, Some(command));
        } else {
          message := "Executing '" + command + "' on all servers.";
          actions := ActionsPerServer(Execute, servers, Some(command));
        }
      } else {
        if isDestructive {
          message := Warning(command, "");
          actions := actions + [Action(Confirm, serverId, Some(command))];
        } else {
          message := "Executing '" + command + "' on " + Show(p.target) + ".";
          actions := actions + [Action(Execute, serverId, Some(command))];
        }
      }
    } else {
      message := NotUnderstood;
    }
    r := Response(message, actions);
  }

  // ---------------------------------------------------------------- what the replies promise

  /** With target "all" and no servers: the no-servers message and nothing to do. */
  lemma AllWithoutServers(p: Parsed)
    requires p.target == Some("all")
    ensures Respond(p, []) == Response(NoServersMessage, [])
  {
  }

  /**
   * With target "all" and servers configured, a metrics or command request gives one action
   * per server in list order: get_metrics for metrics, and for a command confirm exactly when
   * it is destructive and execute otherwise.
   */
  lemma OneActionPerServer(p: Parsed, servers: seq<DB.ServerRow>)
    requires p.target == Some("all") && servers != []
    requires p.intent == Some("metrics") || (p.intent == Some("command") && p.action.Some?)
    ensures var acts := Respond(p, servers).actions;
      && |acts| == |servers|
      && forall i :: 0 <= i < |servers| ==>
           && acts[i].serverId == Some(servers[i].id)
           && (p.intent == Some("metrics") ==> acts[i].kind == GetMetrics && acts[i].command.None?)
           && (p.intent == Some("command") ==>
                 acts[i].command == p.action && (acts[i].kind == Confirm <==> IsDestructive(p.action.value))
                 && (acts[i].kind == Execute <==> !IsDestructive(p.action.value)))
  {
  }

  /** A command request with no command text fails inside the destructive test. */
  lemma CommandWithoutText(p: Parsed, servers: seq<DB.ServerRow>)
    requires p.intent == Some("command") && p.action.None?
    requires !(p.target == Some("all") && servers == [])
    ensures Respond(p, servers) == Response(ErrorPrefix + NoneNotIterable, [])
  {
  }

  /**
   * A named target settles on the first server whose name matches ignoring case (when its id
   * is not empty); with no such match it falls back to the first server, and with no servers
   * at all to no id.
   */
  lemma NamedTarget(servers: seq<DB.ServerRow>, name: string)
    ensures forall i :: 0 <= i < |servers| && SameIgnoringCase(servers[i].name, name) && servers[i].id != ""
                      && (forall j :: 0 <= j < i ==> !SameIgnoringCase(servers[j].name, name))
                      ==> TargetId(servers, name) == Some(servers[i].id)
    ensures servers != [] && (forall j :: 0 <= j < |servers| ==> !SameIgnoringCase(servers[j].name, name))
            ==> TargetId(servers, name) == Some(servers[0].id)
    ensures servers == [] ==> TargetId(servers, name) == None
  {
    var hit := FirstNamed(servers, name);
    forall i | 0 <= i < |servers| && SameIgnoringCase(servers[i].name, name) && servers[i].id != ""
                && (forall j :: 0 <= j < i ==> !SameIgnoringCase(servers[j].name, name))
      ensures TargetId(servers, name) == Some(servers[i].id)
    {
      assert hit.Some?;
      assert hit.value == i;
    }
  }

  /** A single action for a named target, aimed at the id the lookup settled on. */
  lemma NamedTargetAction(p: Parsed, servers: seq<DB.ServerRow>)
    requires Truthy(p.target) && p.target != Some("all")
    requires p.intent == Some("metrics") || (p.intent == Some("command") && p.action.Some?)
    ensures var acts := Respond(p, servers).actions;
      |acts| == 1 && acts[0].serverId == TargetId(servers, p.target.value)
  {
  }

  /** A text whose first character differs from a notice's does not start with the notice. */
  lemma Unprefixed(notice: string, m: string)
    requires notice != [] && m != [] && notice[0] != m[0]
    ensures !(notice <= m)
  {
  }

  lemma MetricsReplyOpening(p: Parsed, servers: seq<DB.ServerRow>, id: Option<ServerId>)
    ensures var m := MetricsReply(p, servers, id).message; m != [] && m[0] == 'R'
  {
  }

  lemma CommandReplyOpening(p: Parsed, servers: seq<DB.ServerRow>, id: Option<ServerId>)
    ensures var m := CommandReply(p, servers, id).message; m != [] && m[0] in {'I', 'E', '\U{26A0}'}
  {
  }

  /**
   * The fallback notice never reaches the user: every branch after the lookup assigns the
   * message instead of adding to it.
   */
  lemma FallbackNoticeOverwritten(p: Parsed, servers: seq<DB.ServerRow>, target: string)
    ensures !(FallbackNotice(target) <= Respond(p, servers).message)
  {
    var m := Respond(p, servers).message;
    var all := p.target == Some("all");
    var id := if Truthy(p.target) && !all then TargetId(servers, p.target.value) else None;
    if all && servers == [] {
      assert m[0] == 'N';
    } else if p.intent == Some("metrics") {
      MetricsReplyOpening(p, servers, id);
    } else if p.intent == Some("command") {
      CommandReplyOpening(p, servers, id);
    } else {
      assert m[0] == 'I';
    }
    Unprefixed(FallbackNotice(target), m);
  }
}
