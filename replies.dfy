/** The reply texts of the controller: the fixed confirmation and guidance messages, and the
    report `addRules` builds when the rule listing shows a rule exception. */
module Replies {
  import opened Strings

  const AlreadyActivatedText := "byteman agent is already activated in current process with pid: "
  const ActivatedText := "activated byteman agent in current process with pid: "
  const TerminatedText := "Terminated byteman agent from current process with pid: "
  const NoActiveListenerText := "No active byteman agent listener found for current process with pid: "
  const ActivateFirstText := "Please run activateAgent API first. byteman agent is not activated in current process with pid: "

  function AlreadyActivatedMessage(pid: string): string {
    AlreadyActivatedText + pid
  }

  function ActivatedMessage(pid: string): string {
    ActivatedText + pid
  }

  function TerminatedMessage(pid: string): string {
    TerminatedText + pid
  }

  function NoActiveListenerMessage(pid: string): string {
    NoActiveListenerText + pid
  }

  /** `activateFirstMessage`: the guidance every rule operation returns while no agent is attached. */
  function ActivateFirstMessage(pid: string): string {
    ActivateFirstText + pid
  }

  /** The marker an agent-side rule parse error leaves in the rule listing. */
  const RuleExceptionMarker := "org.jboss.byteman.rule.exception"

  const ReportHead := "While trying to inject following rules:\n\n[\n"
  const ReportMiddle := "]\n\nI encountered following Exception: \n\n"

  /** The `String.format` report of `addRules`: the submission result, then the full listing. */
  function InjectionReport(result: string, allRules: string): string {
    ReportHead + result + ReportMiddle + allRules
  }

  /** The check `addRules` makes after submitting: a listing that shows a rule exception turns
      the reply into a report holding both the raw submission result and the whole listing;
      otherwise the submission result is the reply, unchanged. */
  function CombineSubmission(result: string, allRules: string): (reply: string)
    ensures !Contains(allRules, RuleExceptionMarker) ==> reply == result
    ensures Contains(allRules, RuleExceptionMarker) ==>
      && reply != result
      && OccursAt(reply, result, |ReportHead|)
      && OccursAt(reply, allRules, |reply| - |allRules|)
      && Contains(reply, RuleExceptionMarker)
  {
    if Contains(allRules, RuleExceptionMarker) then
      var reply := InjectionReport(result, allRules);
      assert reply[|ReportHead|..|ReportHead| + |result|] == result;
      assert reply[|reply| - |allRules|..] == allRules;
      ContainsInInfix(ReportHead + result + ReportMiddle, allRules, "", RuleExceptionMarker);
      assert ReportHead + result + ReportMiddle + allRules + "" == reply;
      reply
    else
      result
  }
}
