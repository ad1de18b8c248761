/** The Byteman agent lifecycle controller: activation with its fallback, termination with its
    cleanup, and the rule operations behind the attached/detached gate, with temp-file staging. */
module Lifecycle {
  import opened Outcomes
  import opened Strings
  import opened AgentOptions
  import opened ProcessIdentity
  import opened Replies

  /** The rules the attached agent holds, by rule name. */
  type RuleSet = map<string, string>

  /** What a call on the agent's control channel answers, and the rule set it leaves behind. */
  datatype Reply = Reply(result: Result<string>, after: RuleSet)

  /** The agent's side of `Submit`: listing, deleting all, and adding or deleting the rules
      held in the given rule files (whose contents the agent reads). */
  datatype ControlChannel = ControlChannel(
    listAll: RuleSet -> Result<string>,
    deleteAll: RuleSet -> Reply,
    addFromFiles: (RuleSet, seq<string>) -> Reply,
    deleteFromFiles: (RuleSet, seq<string>) -> Reply)

  /** How writing a rule file to the temp directory goes. */
  datatype StagingBehaviour = Writes | CreateFails | WriteFails

  /** The facts of the running JVM the controller cannot choose: whether the agent is reachable
      through the class path, where the agent jar lies (None: its location cannot be resolved),
      whether attaching and loading succeed, and how temp files behave. */
  datatype Environment = Environment(
    primaryInstallFails: bool,
    agentJar: Option<string>,
    attachFails: bool,
    loadFails: bool,
    staging: StagingBehaviour)

  /** The calls the controller makes into the installer, the attach API and the control channel. */
  datatype Call =
    | PrimaryInstall(pid: string, addToBoot: bool, host: Option<string>, port: int,
                     properties: Option<seq<string>>)
    | FallbackInstall(pid: string, addToBoot: bool, host: Option<string>, port: int,
                      properties: Option<seq<string>>, setPolicy: bool)
    | AttachVM(pid: string)
    | LoadAgent(jar: string, options: string)
    | DetachVM
    | SubmitListAll
    | SubmitDeleteAll
    | SubmitAdd(file: nat)
    | SubmitDelete(file: nat)
    | TerminateListener

  /** The four rule operations that run behind `execute`. */
  datatype RuleAction = ListAll | DeleteAll | Add(rule: string) | Delete(rule: string)

  /** What a rule operation does once the agent is attached. */
  datatype Effect = Effect(result: Result<string>, rules: RuleSet, calls: seq<Call>)

  /** Nesting depth of `execute`: `addRules` lists the rules through `execute` again. */
  function Depth(action: RuleAction): nat {
    if action.Add? then 1 else 0
  }

  /** The number of temp files an action names. */
  function StagedFiles(action: RuleAction): nat {
    if action.Add? || action.Delete? then 1 else 0
  }

  class BytemanController {
    const runtimeName: string
    const env: Environment
    const channel: ControlChannel
    /** System property `BYTEMAN_AGENT_LOADED`. */
    var agentLoaded: string
    /** System property `AGENT_VERSION`. */
    var agentVersion: string
    /** The agent's static `Main.firstTime` flag. */
    var firstTime: bool
    /** The rules the agent holds. */
    var rules: RuleSet
    /** The files in the temp directory, by name, with their contents. */
    var tempFiles: map<nat, string>
    /** The next name the temp directory hands out. */
    var nextTempId: nat
    /** Every call made so far, in order. */
    var calls: seq<Call>

    /** Every existing temp file has a name handed out before, so new names are fresh. */
    ghost predicate Valid()
      reads this
    {
      forall file :: file in tempFiles ==> file < nextTempId
    }

    constructor (runtimeName: string, env: Environment, channel: ControlChannel,
                 agentLoaded: string, agentVersion: string, firstTime: bool, rules: RuleSet)
      ensures Valid()
      ensures this.runtimeName == runtimeName && this.env == env && this.channel == channel
      ensures this.agentLoaded == agentLoaded && this.agentVersion == agentVersion
      ensures this.firstTime == firstTime && this.rules == rules
      ensures tempFiles == map[] && nextTempId == 0 && calls == []
    {
      this.runtimeName := runtimeName;
      this.env := env;
      this.channel := channel;
      this.agentLoaded := agentLoaded;
      this.agentVersion := agentVersion;
      this.firstTime := firstTime;
      this.rules := rules;
      tempFiles := map[];
      nextTempId := 0;
      calls := [];
    }

    /** The probe `Install.isAgentAttached`: the agent marks itself loaded in a system property. */
    predicate Attached()
      reads this
    {
      agentLoaded == "true"
    }

    /** Whether the installer loads the agent: it finds the agent on the class path and the
        agent's load guard still admits a first load. */
    predicate PrimarySucceeds()
      reads this
    {
      !env.primaryInstallFails && firstTime
    }

    /** Whether the manual attach-and-load of `installFromVM` goes through: the jar is found,
        attach and load succeed, and the agent's load guard admits the load. */
    predicate FallbackSucceeds()
      reads this
    {
      env.agentJar.Some? && !env.attachFails && !env.loadFails && firstTime
    }

    /** The calls `installFromVM` makes: itself, then attach and load with the composed option
        string, and the detach of its `finally` block (absent when there is no VM handle). */
    function FallbackTrace(pid: string, addToBoot: bool, host: Option<string>, port: int,
                           properties: Option<seq<string>>, setPolicy: bool): seq<Call>
    {
      [FallbackInstall(pid, addToBoot, host, port, properties, setPolicy)]
      + match env.agentJar
        case None => []
        case Some(jar) =>
          LoadTrace(pid, jar, AgentOptionString(host, port, setPolicy, properties,
                                                if addToBoot then Some(jar) else None))
    }

    /** The calls once the jar is known: the attach, and when it succeeds the load with the given
        options and the detach of the `finally` block. */
    function LoadTrace(pid: string, jar: string, options: string): seq<Call>
    {
      [AttachVM(pid)] + if env.attachFails then [] else [LoadAgent(jar, options), DetachVM]
    }

    /** What each rule operation does with an attached agent: the staged file (named `file`)
        carries the rule text to the agent; after an addition the rules are listed again and a
        rule exception in the listing turns the reply into the combined report. */
    function ActionEffect(action: RuleAction, rules: RuleSet, file: nat): Effect {
      match action
      case ListAll => Effect(channel.listAll(rules), rules, [SubmitListAll])
      case DeleteAll =>
        var reply := channel.deleteAll(rules);
        Effect(reply.result, reply.after, [SubmitDeleteAll])
      case Add(text) =>
        if env.staging != Writes then Effect(Err(StagingFailed), rules, [])
        else
          var reply := channel.addFromFiles(rules, [text]);
          if reply.result.Err? then Effect(reply.result, reply.after, [SubmitAdd(file)])
          else
            var listing := channel.listAll(reply.after);
            Effect(if listing.Err? then Err(listing.fault)
                   else Ok(CombineSubmission(reply.result.value, listing.value)),
                   reply.after, [SubmitAdd(file), SubmitListAll])
      case Delete(text) =>
        if env.staging != Writes then Effect(Err(StagingFailed), rules, [])
        else
          var reply := channel.deleteFromFiles(rules, [text]);
          Effect(reply.result, reply.after, [SubmitDelete(file)])
    }

    /** The contract of `execute(action)`: with no agent attached, the guidance message and no
        change at all; with an agent attached, the action's effect. No temp file survives. */
    twostate predicate ExecutedAs(action: RuleAction, new r: Result<string>)
      reads this
    {
      && agentLoaded == old(agentLoaded) && agentVersion == old(agentVersion)
      && firstTime == old(firstTime)
      && tempFiles == old(tempFiles)
      && if old(Attached()) then
           var e := ActionEffect(action, old(rules), old(nextTempId));
           && r == e.result && rules == e.rules && calls == old(calls) + e.calls
           && nextTempId == old(nextTempId) + StagedFiles(action)
         else
           && r == Ok(ActivateFirstMessage(Pid(runtimeName)))
           && rules == old(rules) && calls == old(calls) && nextTempId == old(nextTempId)
    }

    /** `isAgentActive`: the pid from the runtime name, and whether an agent is attached. */
    method IsAgentActive() returns (info: ProcessInfo)
      ensures info.pid == Pid(runtimeName)
      ensures info.attached <==> agentLoaded == "true"
    {
      info := ProcessInfo(Pid(runtimeName), Attached());
    }

    /** The agent's entry point, run when the agent is loaded into the JVM. It admits one load
        per `firstTime`: a load while the flag is clear is refused as a second load, which the
        installer and the attach API report as a failure. An admitted load clears the flag and
        marks the agent loaded. */
    method AgentMain() returns (loaded: bool)
      modifies this`agentLoaded, this`firstTime
      ensures loaded == old(firstTime)
      ensures loaded ==> Attached() && !firstTime
      ensures !loaded ==> agentLoaded == old(agentLoaded) && firstTime == old(firstTime)
    {
      loaded := firstTime;
      if firstTime {
        firstTime := false;
        agentLoaded := "true";
      }
    }

    /** `activateAgent`: nothing to do when an agent is attached; otherwise the installer
        first, and when it fails, `installFromVM` once, onto the boot class path, with no host,
        port 0, the same properties and no policy. */
    method ActivateAgent(properties: Option<seq<string>>) returns (r: Result<string>)
      requires Valid()
      modifies this
      ensures Valid()
      ensures rules == old(rules) && tempFiles == old(tempFiles) && nextTempId == old(nextTempId)
      ensures agentVersion == old(agentVersion)
      ensures r.Ok? ==> Attached()
      ensures old(Attached()) ==>
        && r == Ok(AlreadyActivatedMessage(Pid(runtimeName)))
        && calls == old(calls) && agentLoaded == old(agentLoaded) && firstTime == old(firstTime)
      ensures !old(Attached()) && old(PrimarySucceeds()) ==>
        && r == Ok(ActivatedMessage(Pid(runtimeName))) && !firstTime
        && calls == old(calls) + [PrimaryInstall(Pid(runtimeName), true, None, 0, properties)]
      ensures !old(Attached()) && !old(PrimarySucceeds()) ==>
        && calls == old(calls) + [PrimaryInstall(Pid(runtimeName), true, None, 0, properties)]
                               + FallbackTrace(Pid(runtimeName), true, None, 0, properties, false)
        && (old(FallbackSucceeds()) ==> r == Ok(ActivatedMessage(Pid(runtimeName))) && !firstTime)
        && (!old(FallbackSucceeds()) ==>
              r == Err(FallbackInstallFailed) && agentLoaded == old(agentLoaded)
              && firstTime == old(firstTime))
    {
      var info := IsAgentActive();
      if info.attached {
        return Ok(AlreadyActivatedMessage(info.pid));
      }
      calls := calls + [PrimaryInstall(info.pid, true, None, 0, properties)];
      var installed := false;
      if !env.primaryInstallFails {
        installed := AgentMain();
      }
      if !installed {
        var fallback := InstallFromVM(info.pid, true, None, 0, properties, false);
        if fallback.Err? {
          return Err(fallback.fault);
        }
      }
      r := Ok(ActivatedMessage(info.pid));
    }

    /** `installFromVM`: composes the agent options step by step, resolves the agent jar,
        attaches to the JVM, loads the agent and detaches; any failure surfaces as an error. */
    method InstallFromVM(pid: string, addToBoot: bool, host: Option<string>, port: int,
                         properties: Option<seq<string>>, setPolicy: bool) returns (r: Result<()>)
      modifies this
      ensures rules == old(rules) && tempFiles == old(tempFiles) && nextTempId == old(nextTempId)
      ensures agentVersion == old(agentVersion)
      ensures calls == old(calls) + FallbackTrace(pid, addToBoot, host, port, properties, setPolicy)
      ensures old(FallbackSucceeds()) ==> r == Ok(()) && Attached() && !firstTime
      ensures !old(FallbackSucceeds()) ==>
        r == Err(FallbackInstallFailed) && agentLoaded == old(agentLoaded) && firstTime == old(firstTime)
    {
      var installCall := FallbackInstall(pid, addToBoot, host, port, properties, setPolicy);
      calls := calls + [installCall];
      var agentOptions := BaseAgentOptions(host, port, setPolicy, properties);
      if env.agentJar.None? {
        // the jar location cannot be resolved; detaching the missing VM handle fails too
        return Err(FallbackInstallFailed);
      }
      var agentJar := env.agentJar.value;
      if addToBoot {
        agentOptions := agentOptions + ",boot:" + agentJar;
        BootOptionLast(host, port, setPolicy, properties, agentJar);
      }
      r := AttachAndLoad(pid, agentJar, agentOptions);
      AppendAssociative(old(calls), [installCall], LoadTrace(pid, agentJar, agentOptions));
    }

    /** The `try` block of `installFromVM` once the jar is known: attach to the JVM, load the
        agent with the given options, and detach in `finally` whenever a VM handle exists. */
    method AttachAndLoad(pid: string, agentJar: string, agentOptions: string) returns (r: Result<()>)
      modifies this
      ensures rules == old(rules) && tempFiles == old(tempFiles) && nextTempId == old(nextTempId)
      ensures agentVersion == old(agentVersion)
      ensures calls == old(calls) + LoadTrace(pid, agentJar, agentOptions)
      ensures !env.attachFails && !env.loadFails && old(firstTime) ==>
        r == Ok(()) && Attached() && !firstTime
      ensures env.attachFails || env.loadFails || !old(firstTime) ==>
        r == Err(FallbackInstallFailed) && agentLoaded == old(agentLoaded) && firstTime == old(firstTime)
    {
      calls := calls + [AttachVM(pid)];
      if env.attachFails {
        return Err(FallbackInstallFailed);
      }
      calls := calls + [LoadAgent(agentJar, agentOptions)];
      var loaded := false;
      if !env.loadFails {
        loaded := AgentMain();
      }
      calls := calls + [DetachVM];
      r := if loaded then Ok(()) else Err(FallbackInstallFailed);
    }

    /** `terminateAgent`: with an agent attached, deletes all rules (ignoring any failure),
        terminates the listener and resets the agent environment; otherwise changes nothing. */
    method TerminateAgent() returns (msg: string)
      requires Valid()
      modifies this
      ensures Valid()
      ensures tempFiles == old(tempFiles) && nextTempId == old(nextTempId)
      ensures old(Attached()) ==>
        && msg == TerminatedMessage(Pid(runtimeName))
        && rules == channel.deleteAll(old(rules)).after
        && calls == old(calls) + [SubmitDeleteAll, TerminateListener]
        && agentLoaded == "false" && agentVersion == "" && firstTime
      ensures !old(Attached()) ==>
        && msg == NoActiveListenerMessage(Pid(runtimeName))
        && rules == old(rules) && calls == old(calls)
        && agentLoaded == old(agentLoaded) && agentVersion == old(agentVersion)
        && firstTime == old(firstTime)
    {
      var info := IsAgentActive();
      if info.attached {
        var ignored := DeleteAllRules();
        calls := calls + [TerminateListener];
        CleanupAgentEnvironment();
        return TerminatedMessage(info.pid);
      }
      msg := NoActiveListenerMessage(info.pid);
    }

    /** `cleanupAgentEnvironment`: marks the agent as not loaded, clears its version and sets
        `firstTime` again, so that the agent can be activated anew. */
    method CleanupAgentEnvironment()
      modifies this`agentLoaded, this`agentVersion, this`firstTime
      ensures agentLoaded == "false" && agentVersion == "" && firstTime
      ensures !Attached()
    {
      agentLoaded := "false";
      agentVersion := "";
      firstTime := true;
    }

    method ListAllRules() returns (r: Result<string>)
      requires Valid()
      modifies this
      ensures Valid() && ExecutedAs(ListAll, r)
      decreases 0, 3
    {
      r := Execute(ListAll);
    }

    method DeleteAllRules() returns (r: Result<string>)
      requires Valid()
      modifies this
      ensures Valid() && ExecutedAs(DeleteAll, r)
      decreases 0, 3
    {
      r := Execute(DeleteAll);
    }

    method AddRules(rule: string) returns (r: Result<string>)
      requires Valid()
      modifies this
      ensures Valid() && ExecutedAs(Add(rule), r)
      decreases 1, 3
    {
      r := Execute(Add(rule));
    }

    method DeleteRules(rule: string) returns (r: Result<string>)
      requires Valid()
      modifies this
      ensures Valid() && ExecutedAs(Delete(rule), r)
      decreases 0, 3
    {
      r := Execute(Delete(rule));
    }

    /** `execute`: runs the action only when the agent is attached, and answers with the
        guidance message otherwise. */
    method Execute(action: RuleAction) returns (r: Result<string>)
      requires Valid()
      modifies this
      ensures Valid() && ExecutedAs(action, r)
      decreases Depth(action), 2
    {
      var info := IsAgentActive();
      if info.attached {
        r := Perform(action);
      } else {
        r := Ok(ActivateFirstMessage(info.pid));
      }
    }

    /** The body of each rule operation's supplier. */
    method Perform(action: RuleAction) returns (r: Result<string>)
      requires Valid() && Attached()
      modifies this
      ensures Valid() && ExecutedAs(action, r)
      decreases Depth(action), 1
    {
      match action
      case ListAll =>
        calls := calls + [SubmitListAll];
        r := channel.listAll(rules);
      case DeleteAll =>
        calls := calls + [SubmitDeleteAll];
        var reply := channel.deleteAll(rules);
        rules := reply.after;
        r := reply.result;
      case Add(rule) =>
        r := SubmitAddRules(rule);
      case Delete(rule) =>
        r := SubmitDeleteRules(rule);
    }

    /** The supplier of `addRules`: stage, submit, list again, sniff for a rule exception, and
        remove the staged file in any case. */
    method SubmitAddRules(rule: string) returns (r: Result<string>)
      requires Valid() && Attached()
      modifies this
      ensures Valid()
      ensures agentLoaded == old(agentLoaded) && agentVersion == old(agentVersion)
      ensures firstTime == old(firstTime) && tempFiles == old(tempFiles)
      ensures nextTempId == old(nextTempId) + 1
      ensures var e := ActionEffect(Add(rule), old(rules), old(nextTempId));
        r == e.result && rules == e.rules && calls == old(calls) + e.calls
      decreases 1, 0
    {
      ghost var e := ActionEffect(Add(rule), rules, nextTempId);
      var staged := WriteRuleToTempFile(rule);
      if staged.Err? {
        assert e == Effect(Err(StagingFailed), old(rules), []);
        return Err(staged.fault);
      }
      var file := staged.value;
      ghost var before := tempFiles;
      calls := calls + [SubmitAdd(file)];
      var reply := channel.addFromFiles(rules, [tempFiles[file]]);
      rules := reply.after;
      if reply.result.Err? {
        assert e == Effect(reply.result, reply.after, [SubmitAdd(file)]);
        r := reply.result;
      } else {
        ghost var submitted := calls;
        var allRules := ListAllRules();
        r := if allRules.Err? then Err(allRules.fault)
             else Ok(CombineSubmission(reply.result.value, allRules.value));
        assert calls == submitted + [SubmitListAll];
        assert e == Effect(r, reply.after, [SubmitAdd(file), SubmitListAll]);
      }
      // finally: remove the staged file
      assert tempFiles == before;
      tempFiles := tempFiles - {file};
      assert tempFiles == old(tempFiles);
    }

    /** The supplier of `deleteRules`: stage, submit, and remove the staged file in any case. */
    method SubmitDeleteRules(rule: string) returns (r: Result<string>)
      requires Valid()
      modifies this
      ensures Valid()
      ensures agentLoaded == old(agentLoaded) && agentVersion == old(agentVersion)
      ensures firstTime == old(firstTime) && tempFiles == old(tempFiles)
      ensures nextTempId == old(nextTempId) + 1
      ensures var e := ActionEffect(Delete(rule), old(rules), old(nextTempId));
        r == e.result && rules == e.rules && calls == old(calls) + e.calls
    {
      var staged := WriteRuleToTempFile(rule);
      if staged.Err? {
        return Err(staged.fault);
      }
      var file := staged.value;
      calls := calls + [SubmitDelete(file)];
      var reply := channel.deleteFromFiles(rules, [tempFiles[file]]);
      rules := reply.after;
      r := reply.result;
      // finally: remove the staged file
      tempFiles := tempFiles - {file};
      assert tempFiles == old(tempFiles);
    }

    /** `writeRuleToTempFile`, with the created file removed again when writing to it fails,
        so that a failed staging leaves no file behind. */
    method WriteRuleToTempFile(rule: string) returns (r: Result<nat>)
      requires Valid()
      modifies this`tempFiles, this`nextTempId
      ensures Valid()
      ensures nextTempId == old(nextTempId) + 1
      ensures env.staging == Writes ==>
        && r == Ok(old(nextTempId)) && old(nextTempId) !in old(tempFiles)
        && tempFiles == old(tempFiles)[old(nextTempId) := rule]
      ensures env.staging != Writes ==> r == Err(StagingFailed) && tempFiles == old(tempFiles)
    {
      var file := nextTempId;
      nextTempId := nextTempId + 1;
      match env.staging
      case CreateFails =>
        r := Err(StagingFailed);
      case WriteFails =>
        tempFiles := tempFiles[file := ""];
        tempFiles := tempFiles - {file};
        assert tempFiles == old(tempFiles);
        r := Err(StagingFailed);
      case Writes =>
        tempFiles := tempFiles[file := rule];
        r := Ok(file);
    }

    /** `writeRuleToTempFile` as written: when writing fails after the file was created, the
        exception leaves the empty file in the temp directory, and nobody holds its name. */
    method WriteRuleToTempFileAsWritten(rule: string) returns (r: Result<nat>)
      requires Valid()
      modifies this`tempFiles, this`nextTempId
      ensures Valid()
      ensures nextTempId == old(nextTempId) + 1
      ensures env.staging == Writes ==>
        r == Ok(old(nextTempId)) && tempFiles == old(tempFiles)[old(nextTempId) := rule]
      ensures env.staging == CreateFails ==> r == Err(StagingFailed) && tempFiles == old(tempFiles)
      ensures env.staging == WriteFails ==>
        r == Err(StagingFailed) && tempFiles == old(tempFiles)[old(nextTempId) := ""]
    {
      var file := nextTempId;
      nextTempId := nextTempId + 1;
      match env.staging
      case CreateFails =>
        r := Err(StagingFailed);
      case WriteFails =>
        tempFiles := tempFiles[file := ""];
        r := Err(StagingFailed);
      case Writes =>
        tempFiles := tempFiles[file := rule];
        r := Ok(file);
    }
  }

  /** A channel that answers every call with an empty text and leaves the rules alone. */
  function QuietChannel(): ControlChannel {
    ControlChannel(
      rs => Ok(""),
      rs => Reply(Ok(""), rs),
      (rs, files) => Reply(Ok(""), rs),
      (rs, files) => Reply(Ok(""), rs))
  }

  /** In a JVM whose temp directory accepts the file but not its contents, the staging of
      `writeRuleToTempFile` as written fails and still leaves a file behind. */
  method StagingLeakWitness() returns (r: Result<nat>, leftBehind: map<nat, string>)
    ensures r == Err(StagingFailed) && leftBehind != map[]
  {
    var env := Environment(false, Some("byteman.jar"), false, false, WriteFails);
    var c := new BytemanController("4242@host", env, QuietChannel(), "true", "4.0.9", false, map[]);
    r := c.WriteRuleToTempFileAsWritten("RULE trace\nCLASS A\nMETHOD m\nDO traceln(\"m\")\nENDRULE");
    leftBehind := c.tempFiles;
    assert 0 in leftBehind;
  }

  /** Activating an agent that was activated already only reports it: the second call makes no
      install or attach attempt and leaves the agent's flags as the first call left them. */
  method ActivateTwice(c: BytemanController, properties: Option<seq<string>>)
    returns (first: Result<string>, second: Result<string>,
             ghost callsAfterFirst: seq<Call>, ghost loadedAfterFirst: string,
             ghost firstTimeAfterFirst: bool)
    requires c.Valid()
    modifies c
    ensures old(c.Attached()) ==>
      && callsAfterFirst == old(c.calls)
      && loadedAfterFirst == old(c.agentLoaded) && firstTimeAfterFirst == old(c.firstTime)
    ensures !old(c.Attached()) ==>
      callsAfterFirst == old(c.calls) + [PrimaryInstall(Pid(c.runtimeName), true, None, 0, properties)]
                         + (if old(c.PrimarySucceeds()) then []
                            else c.FallbackTrace(Pid(c.runtimeName), true, None, 0, properties, false))
    ensures first.Ok? ==> loadedAfterFirst == "true"
    ensures first.Ok? && !old(c.Attached()) ==> !firstTimeAfterFirst
    ensures first.Ok? ==>
      && second == Ok(AlreadyActivatedMessage(Pid(c.runtimeName)))
      && c.Attached()
      && c.calls == callsAfterFirst
      && c.agentLoaded == loadedAfterFirst && c.firstTime == firstTimeAfterFirst
  {
    first := c.ActivateAgent(properties);
    callsAfterFirst, loadedAfterFirst, firstTimeAfterFirst := c.calls, c.agentLoaded, c.firstTime;
    second := c.ActivateAgent(properties);
  }

  /** Without the reset of `firstTime`, an agent that was loaded once and then marked as not
      loaded cannot be activated again: the installer and the fallback both meet the agent's
      load guard, so activation fails whatever the environment. */
  method StaleReentryRejected(c: BytemanController, properties: Option<seq<string>>)
    returns (r: Result<string>)
    requires c.Valid() && !c.Attached() && !c.firstTime
    modifies c
    ensures r == Err(FallbackInstallFailed) && !c.Attached() && !c.firstTime
  {
    r := c.ActivateAgent(properties);
  }

  /** After termination the rule operations answer with the guidance message, and a new
      activation installs the agent again instead of reporting it as active. */
  method TerminateThenReactivate(c: BytemanController, properties: Option<seq<string>>)
    returns (terminated: string, listing: Result<string>, activated: Result<string>)
    requires c.Valid() && c.Attached() && !c.env.primaryInstallFails
    modifies c
    ensures terminated == TerminatedMessage(Pid(c.runtimeName))
    ensures listing == Ok(ActivateFirstMessage(Pid(c.runtimeName)))
    ensures activated == Ok(ActivatedMessage(Pid(c.runtimeName))) && c.Attached()
    ensures c.calls == old(c.calls) + [SubmitDeleteAll, TerminateListener,
                                       PrimaryInstall(Pid(c.runtimeName), true, None, 0, properties)]
  {
    terminated := c.TerminateAgent();
    listing := c.ListAllRules();
    activated := c.ActivateAgent(properties);
  }
}
