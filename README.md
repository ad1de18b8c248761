# Byteman agent lifecycle controller — a Dafny model

This project models the Byteman controller of the `bootman` Spring Boot application
(`BytemanController.java`). The controller attaches the Byteman agent to the JVM it runs in and
detaches it again. While the agent is attached, it lists, adds and deletes Byteman rules. It has
four parts, and the model keeps them:

- **The agent option string.** `buildPropertyOption` appends `,prop:<p>` for every property in
  a loop. `installFromVM` starts from `listener:true` and adds, each under its own condition,
  `,address:<host>`, `,port:<port>`, `,policy:true`, the property option and finally
  `,boot:<jar>` (`agent_options.dfy`). Java's decimal rendering of the port and
  `String.contains` are modelled in `strings.dfy`.
- **The attached/detached gate.** `activateAgent` tries the Byteman installer first. When that
  fails, it loads the agent through the attach API (`installFromVM`). `terminateAgent` deletes all
  rules, ignoring any failure, stops the listener and resets the agent's flags. `execute` runs a
  rule operation only when the agent is attached and otherwise answers with a fixed guidance
  message. All of this is `controller.dfy`, module `Lifecycle`, class `BytemanController`.
- **Temp-file staging.** `addRules` and `deleteRules` write the rule text to a fresh temp file,
  submit that file to the agent and delete it in `finally`.
- **Error sniffing in `addRules`.** After a submission the rules are listed again. If the
  listing shows `org.jboss.byteman.rule.exception`, the reply becomes a report that holds the raw
  result and the whole listing (`replies.dfy`).

The pid comes from the runtime name `pid@host` (`process_identity.dfy`).

The controller's environment is modelled as follows:

- **JVM facts** it cannot choose are an `Environment` value: whether the installer fails, where the
  agent jar lies, whether attach and load fail, and how temp files behave.
- **Agent attachment** is the `BYTEMAN_AGENT_LOADED` system property (`agentLoaded`), next to
  `AGENT_VERSION` (`agentVersion`) and the agent's static `firstTime` flag. The agent's entry
  point admits a load only while `firstTime` holds and clears it; a second load is refused, so
  reactivation after termination depends on the reset of `firstTime`.
- **The agent's rule engine** is a `ControlChannel` of total functions over an abstract rule set.
- **Calls into the installer, the attach API and `Submit`** that act on the agent are recorded
  in order in a `calls` trace. The attachment probe `Install.isAgentAttached` only reads state
  and is not traced.
- **The temp directory** is a map from file names to contents, with a counter that hands out
  fresh names.

## Model

| member | source | states |
|---|---|---|
| AgentOptions.BuildPropertyOption | src/main/java/org/javaprofile/bootman/controller/BytemanController.java:233-247 | The loop's result is the property option: `""` for a null array, otherwise `,prop:<p>` for each property in order. |
| AgentOptions.PropertyOptionRoundTrip | src/main/java/org/javaprofile/bootman/controller/BytemanController.java:233-247 | Split at commas, the property option gives an empty lead piece and then exactly one `prop:<p>` entry per property, in order. Nothing is dropped, merged or reordered (for comma-free properties). |
| AgentOptions.PropertyOptionConcat | src/main/java/org/javaprofile/bootman/controller/BytemanController.java:238-241 | The property option of `a + b` is that of `a` followed by that of `b`. Repeated properties are not deduplicated. |
| AgentOptions.AgentOptionStringPieces | src/main/java/org/javaprofile/bootman/controller/BytemanController.java:196-218 | The option string is `listener:true`, then these pieces in order: `,address:<host>` only for a non-null, non-empty host; `,port:<port>` only for a non-zero port; `,policy:true` only when asked; the property option; `,boot:<jar>` only when a jar is added. |
| AgentOptions.BaseAgentOptions | src/main/java/org/javaprofile/bootman/controller/BytemanController.java:196-209 | The step-by-step assembly of `installFromVM` (before the jar is known) yields exactly the specified option string without a boot entry. |
| AgentOptions.BootOptionLast | src/main/java/org/javaprofile/bootman/controller/BytemanController.java:216-218 | Adding the agent to the boot class path appends `,boot:<jar>` after every other option. |
| AgentOptions.AgentOptionsRoundTrip | src/main/java/org/javaprofile/bootman/controller/BytemanController.java:196-218 | The agent splits the option string at commas and reads back `listener:true` followed by exactly the present entries, in order. This needs a comma-free host, properties and jar. |
| AgentOptions.FallbackActivationOptions | src/main/java/org/javaprofile/bootman/controller/BytemanController.java:44 | The activation fallback's options read back as `listener:true`, then one `prop:` entry per property, then `boot:<jar>`, and nothing else: no host, no port, no policy. |
| Strings.IntToDecimalRoundTrip | src/main/java/org/javaprofile/bootman/controller/BytemanController.java:203 | The decimal text `"" + port` puts in the option string reads back as the same integer, negative ports included. |
| Strings.ContainsIffOccurs | src/main/java/org/javaprofile/bootman/controller/BytemanController.java:142 | The left-to-right search of `contains` succeeds exactly when the marker occurs at some position. |
| Replies.CombineSubmission | src/main/java/org/javaprofile/bootman/controller/BytemanController.java:137-147 | Without the rule-exception marker in the listing, the reply is the submission result unchanged. With it, the reply is a different text: the result sits right after the report's heading, the whole listing ends the reply, and the reply shows the marker. |
| ProcessIdentity.Pid | src/main/java/org/javaprofile/bootman/controller/BytemanController.java:191 | The pid is a prefix of the runtime name and holds no `@`. The runtime name continues with `@` right after it unless the pid is the whole name. |
| ProcessIdentity.PidOfRuntimeName | src/main/java/org/javaprofile/bootman/controller/BytemanController.java:191 | For any runtime name `pid@host` with an `@`-free pid, the extracted pid is `pid`, whatever the host part holds. |
| Lifecycle.BytemanController.IsAgentActive | src/main/java/org/javaprofile/bootman/controller/BytemanController.java:188-193 | Answers the pid of the runtime name, and whether the agent is attached. |
| Lifecycle.BytemanController.ActivateAgent | src/main/java/org/javaprofile/bootman/controller/BytemanController.java:33-47 | Attached: it answers "already activated … pid" and makes no install, attach or submit call. Detached: it calls the installer once (boot class path, no host, port 0, the given properties). The installer succeeds only when the agent is on the class path and its load guard admits the load. Only if the installer fails does it run `installFromVM` exactly once with the same arguments and no policy. It answers "activated … pid" unless the fallback fails too, and a success leaves the agent attached. |
| Lifecycle.BytemanController.InstallFromVM | src/main/java/org/javaprofile/bootman/controller/BytemanController.java:195-231 | It makes exactly the fallback's calls: attach, then load with the specified option string, then detach in `finally` whenever a VM handle exists. It succeeds, and leaves the agent loaded, exactly when the jar is found, attach and load succeed and the agent's load guard admits the load; otherwise it reports a failure and leaves the agent flags unchanged. |
| Lifecycle.BytemanController.AttachAndLoad | src/main/java/org/javaprofile/bootman/controller/BytemanController.java:211-230 | Attach, then load and detach only when attach succeeded. The agent is loaded exactly when attach and load both succeed and `firstTime` still holds. |
| Lifecycle.BytemanController.TerminateAgent | src/main/java/org/javaprofile/bootman/controller/BytemanController.java:51-71 | Attached: it deletes all rules with any failure ignored, terminates the listener, resets the flags and answers "Terminated … pid". Detached: it answers "No active … listener … pid" and changes nothing. |
| Lifecycle.BytemanController.CleanupAgentEnvironment | src/main/java/org/javaprofile/bootman/controller/BytemanController.java:73-95 | `BYTEMAN_AGENT_LOADED` becomes `"false"`, `AGENT_VERSION` becomes `""` and `firstTime` becomes true, so the agent counts as detached. |
| Lifecycle.BytemanController.Execute | src/main/java/org/javaprofile/bootman/controller/BytemanController.java:155-163 | Runs the action only when the agent is attached. Otherwise it answers exactly the guidance message of `activateFirstMessage` (lines 179-181, `Replies.ActivateFirstMessage`) with the pid and changes nothing: no rule change, no call, no temp file. |
| Lifecycle.BytemanController.Perform | src/main/java/org/javaprofile/bootman/controller/BytemanController.java:97-153 | With the agent attached, each rule operation has its specified effect on the rules, the reply and the call trace. |
| Lifecycle.BytemanController.ListAllRules | src/main/java/org/javaprofile/bootman/controller/BytemanController.java:97-102 | The listing through the gate. |
| Lifecycle.BytemanController.DeleteAllRules | src/main/java/org/javaprofile/bootman/controller/BytemanController.java:104-109 | Deleting all rules through the gate. |
| Lifecycle.BytemanController.DeleteRules | src/main/java/org/javaprofile/bootman/controller/BytemanController.java:111-126 | Deleting the staged rules through the gate. With the corrected staging (see Findings), no temp file remains afterwards. |
| Lifecycle.BytemanController.AddRules | src/main/java/org/javaprofile/bootman/controller/BytemanController.java:128-153 | Adding the staged rules through the gate, with the re-listing and the combined report. With the corrected staging (see Findings), no temp file remains afterwards. |
| Lifecycle.BytemanController.SubmitAddRules | src/main/java/org/javaprofile/bootman/controller/BytemanController.java:131-152 | Stage, submit the staged file, and list again through the gate only after a successful submission. The reply is the combined one. With the corrected staging (see Findings), the temp directory is exactly as before on every exit path. |
| Lifecycle.BytemanController.SubmitDeleteRules | src/main/java/org/javaprofile/bootman/controller/BytemanController.java:114-125 | Stage and submit the staged file. With the corrected staging (see Findings), the temp directory is exactly as before on every exit path, whether the submission succeeds or fails. |
| Lifecycle.BytemanController.WriteRuleToTempFile | src/main/java/org/javaprofile/bootman/controller/BytemanController.java:165-177 | On success it stages the rule under a fresh name that existed nowhere before. On any failure the temp directory is unchanged. |
| Lifecycle.BytemanController.WriteRuleToTempFileAsWritten | src/main/java/org/javaprofile/bootman/controller/BytemanController.java:165-177 | As written: when the write fails after the file was created, an empty file stays behind. |
| Lifecycle.StagingLeakWitness | src/main/java/org/javaprofile/bootman/controller/BytemanController.java:165-177 | With a temp directory that accepts the file but not its contents, the staging as written fails and still leaves a file behind. |
| Lifecycle.ActivateTwice | src/main/java/org/javaprofile/bootman/controller/BytemanController.java:33-37 | After a successful activation the agent is attached, and activating again answers "already activated … pid" and leaves the call trace and the agent's flags exactly as the first call left them. The snapshots taken between the calls are pinned to the state before: unchanged when the agent was already attached, otherwise the installer call followed, when the installer failed, by the fallback's trace. |
| Lifecycle.TerminateThenReactivate | src/main/java/org/javaprofile/bootman/controller/BytemanController.java:51-95 | After termination, rule operations answer the guidance message. A new activation then installs the agent again, which the reset `firstTime` admits, and answers "activated … pid". |
| Lifecycle.StaleReentryRejected | src/main/java/org/javaprofile/bootman/controller/BytemanController.java:80-89 | An agent that was loaded once and is marked as not loaded, but whose `firstTime` flag was not reset, cannot be activated again: the installer and the fallback both fail on the load guard. This is why cleanup resets the flag. |

## Left out

- Spring and Swagger annotations, HTTP routing and the `properties` default value are framework
  plumbing. The model takes the properties as an argument, and `None` stands for a null array.
- The installer, `Install.isAgentAttached`, `Submit`, `VirtualMachine` and
  `TransformListener.terminate` are foreign library calls. They are replaced by the
  `Environment` oracle, the `ControlChannel` functions and the `calls` trace. The attachment probe
  is read from the `BYTEMAN_AGENT_LOADED` property that the agent sets.
- The reflective reset of `Main.firstTime` is modelled as a plain assignment. A reflection
  failure, which the source ignores, is not modelled.
- The jar-path lookup through the protection domain is an optional string in the environment.
- File contents are the rule text itself. Temp-file names are counter values rather than
  `rule*.btm` paths.
- Logging is not modelled.
- A failing `File.delete()` is not modelled. The source ignores its result, and here the removal of
  a staged file always succeeds.
- `AGENT_VERSION` is only recorded: the model resets it on termination, but the agent's own write
  of it on load is not modelled, and nothing in the model reads it.
- Concurrency between simultaneous requests is not modelled: the source has no locking.
- ProcessIdentity.Pid: a runtime name made only of `@` characters makes Java's `split` return an
  empty array, so the indexing throws; here it yields `""`. Real runtime names never have this
  form.
- Lifecycle.BytemanController.InstallFromVM: every failure, including the
  null dereference when `finally` detaches a missing VM handle, is the one fault
  `FallbackInstallFailed`. Exception types are not modelled. A detach that itself fails is not
  modelled.
- AgentOptions.BuildPropertyOption: a `null` element of the property array, which Java renders
  as `null`, has no counterpart: properties are strings.
- AgentOptions.AgentOptionsRoundTrip: the read-back holds only for a host, properties and jar path
  without commas. A comma inside any of them splits it into several entries, and the agent would
  misread it.
- `DevConsoleController.java`, `HelloController.java` and `BootmanApplication.java` are not part
  of this model.

## Findings

| source | as written | input that shows it | evidently intended | confidence | as-written member | corrected member |
|---|---|---|---|---|---|---|
| src/main/java/org/javaprofile/bootman/controller/BytemanController.java:165-177 | `createTempFile` creates the file. If opening or writing it then throws, the exception leaves the method with no cleanup. The file stays in the temp directory and no caller holds its name. The `finally` blocks of `addRules`/`deleteRules` are never reached. | A temp directory where file creation succeeds but the write fails (for instance a full disk) | A failed staging leaves no file behind, as every other exit path of `addRules`/`deleteRules` guarantees | medium, not executed | Lifecycle.BytemanController.WriteRuleToTempFileAsWritten, Lifecycle.StagingLeakWitness | Lifecycle.BytemanController.WriteRuleToTempFile |
