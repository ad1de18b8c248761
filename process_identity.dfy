/** The identity of the running JVM, as `isAgentActive` derives it on every call. */
module ProcessIdentity {

  /** `ProcessInfo`: the pid of the current process and whether an agent is attached to it. */
  datatype ProcessInfo = ProcessInfo(pid: string, attached: bool)

  /** The pid taken from the runtime name (`pid@hostname`): everything before the first `@`,
      or the whole name when it holds no `@`. */
  function Pid(runtimeName: string): (pid: string)
    ensures '@' !in pid
    ensures pid <= runtimeName
    ensures |pid| < |runtimeName| ==> runtimeName[|pid|] == '@'
    decreases |runtimeName|
  {
    if runtimeName == [] || runtimeName[0] == '@' then []
    else [runtimeName[0]] + Pid(runtimeName[1..])
  }

  /** The pid of a runtime name `pid@host` is `pid`, whatever the host part holds. */
  lemma {:induction false} PidOfRuntimeName(pid: string, host: string)
    requires '@' !in pid
    ensures Pid(pid + "@" + host) == pid
    decreases |pid|
  {
    var name := pid + "@" + host;
    if pid != [] {
      assert name[1..] == pid[1..] + "@" + host;
      PidOfRuntimeName(pid[1..], host);
      assert [pid[0]] + pid[1..] == pid;
    }
  }
}
