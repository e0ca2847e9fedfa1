/** The permission boundary (policy.py). */
module Policy {
  import opened Models

  datatype PolicyDecision = PolicyDecision(risk: Risk, allowed: bool, approvalRequired: bool, reason: Reason)

  function LowerChar(c: char): char {
    if 'A' <= c <= 'Z' then 'a' + (c - 'A') else c
  }

  function Lower(s: string): string {
    if s == "" then "" else [LowerChar(s[0])] + Lower(s[1..])
  }

  lemma {:induction false} LowerCaseStays(s: string)
    requires forall i | 0 <= i < |s| :: !('A' <= s[i] <= 'Z')
    ensures Lower(s) == s
  {
    if s != "" {
      LowerCaseStays(s[1..]);
    }
  }

  /** The same text, up to the case of its letters. */
  predicate AnyCase(s: string, lower: string) {
    && |s| == |lower|
    && forall i | 0 <= i < |s| :: s[i] == lower[i] || ('A' <= s[i] <= 'Z' && s[i] as int + 32 == lower[i] as int)
  }

  lemma {:induction false} LowerIsAnyCase(s: string, lower: string)
    requires forall i | 0 <= i < |lower| :: 'a' <= lower[i] <= 'z'
    ensures Lower(s) == lower <==> AnyCase(s, lower)
  {
    if s != "" && lower != "" {
      LowerIsAnyCase(s[1..], lower[1..]);
      assert Lower(s) == lower <==> LowerChar(s[0]) == lower[0] && Lower(s[1..]) == lower[1..];
      assert AnyCase(s, lower) <==> AnyCase([s[0]], [lower[0]]) && AnyCase(s[1..], lower[1..]) by {
        assert forall i | 0 < i < |s| :: s[i] == s[1..][i - 1];
        assert forall i | 0 < i < |lower| :: lower[i] == lower[1..][i - 1];
        if AnyCase([s[0]], [lower[0]]) && AnyCase(s[1..], lower[1..]) {
          assert [s[0]][0] == s[0] && [lower[0]][0] == lower[0];
        }
      }
    }
  }

  /** `str(arguments.get("environment", "production")).lower()`, for text values. */
  function EnvironmentName(arguments: Arguments): string {
    if Environment !in arguments then "production"
    else match arguments[Environment]
      case Str(text) => Lower(text)
      case _ => ""
  }

  function Evaluate(tool: Tool, arguments: Arguments): PolicyDecision {
    match tool
    case DeleteDatabase =>
      PolicyDecision(Blocked, false, false, DeletionProhibited)
    case RestartService =>
      if EnvironmentName(arguments) == "production" then
        PolicyDecision(High, true, true, ProductionRestartNeedsApproval)
      else
        PolicyDecision(Medium, true, false, RestartPermitted)
    case _ =>
      PolicyDecision(Low, true, false, ReadOnlyAction)
  }

  /**
   The rules, for any arguments: a deletion is blocked, a restart of production, which is also the default and may
   be written in any case, is risky and needs a human, any other restart does not, and the rest is harmless.
   */
  lemma PolicyIsExact(tool: Tool, arguments: Arguments)
    ensures var production := Environment in arguments ==>
              arguments[Environment].Str? && AnyCase(arguments[Environment].text, "production");
            Evaluate(tool, arguments) ==
              if tool.DeleteDatabase? then PolicyDecision(Blocked, false, false, DeletionProhibited)
              else if tool.RestartService? && production then PolicyDecision(High, true, true, ProductionRestartNeedsApproval)
              else if tool.RestartService? then PolicyDecision(Medium, true, false, RestartPermitted)
              else PolicyDecision(Low, true, false, ReadOnlyAction)
  {
    hide Lower, AnyCase;
    if Environment in arguments && arguments[Environment].Str? {
      LowerIsAnyCase(arguments[Environment].text, "production");
    }
  }
}
