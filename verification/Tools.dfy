/** Argument validation and action identity (tools.py). */
module Tools {
  import opened Prelude
  import opened Models
  import opened Policy

  predicate ServiceChar(c: char) {
    'a' <= c <= 'z' || 'A' <= c <= 'Z' || '0' <= c <= '9' || c == '_' || c == '-'
  }

  predicate ValidService(v: Json) {
    v.Str? && 1 <= |v.text| <= 100 && forall i | 0 <= i < |v.text| :: ServiceChar(v.text[i])
  }

  predicate ValidEnvironment(v: Json) {
    v.Str? && (v.text == "production" || v.text == "staging" || v.text == "test")
  }

  predicate ValidDependency(v: Json) {
    v.Null? || (v.Str? && |v.text| <= 100)
  }

  /** The schema of the tool applied to a raw dictionary; None is a validation error. */
  function Validate(tool: Tool, raw: Arguments): Option<Arguments> {
    if Service !in raw || !ValidService(raw[Service]) then None
    else
      var environment := if Environment in raw then raw[Environment] else Str("production");
      if !ValidEnvironment(environment) then None
      else
        var common := map[Service := raw[Service], Environment := environment];
        if !tool.DependencyHealth? then Some(common)
        else
          var dependency := if Dependency in raw then raw[Dependency] else Null;
          if !ValidDependency(dependency) then None
          else Some(common[Dependency := dependency])
  }

  /** `arguments.model_dump(exclude_none=True)`. */
  function RequestedArguments(a: AgentToolArguments): Arguments {
    (if a.service.Some? then map[Service := Str(a.service.value)] else map[])
    + (if a.environment.Some? then map[Environment := Str(a.environment.value)] else map[])
    + (if a.dependency.Some? then map[Dependency := Str(a.dependency.value)] else map[])
  }

  /**
   What the schemas accept, and what they make of it: a service of 1 to 100 letters, digits, underscores and
   hyphens, one of three environments, production if there is none, and for the dependency check a dependency of at
   most 100 characters, or null; nothing else is kept.
   */
  lemma ValidationIsExact(tool: Tool, raw: Arguments)
    ensures Validate(tool, raw).Some? <==>
              && Service in raw && raw[Service].Str? && 1 <= |raw[Service].text| <= 100
              && (forall c | c in raw[Service].text ::
                    'a' <= c <= 'z' || 'A' <= c <= 'Z' || '0' <= c <= '9' || c == '_' || c == '-')
              && (Environment in raw ==> raw[Environment] in {Str("production"), Str("staging"), Str("test")})
              && (tool.DependencyHealth? && Dependency in raw ==>
                    raw[Dependency].Null? || (raw[Dependency].Str? && |raw[Dependency].text| <= 100))
    ensures Validate(tool, raw).Some? ==>
              && Service in raw
              && var common := map[Service := raw[Service],
                                   Environment := if Environment in raw then raw[Environment] else Str("production")];
              Validate(tool, raw).value ==
                if tool.DependencyHealth? then common[Dependency := if Dependency in raw then raw[Dependency] else Null]
                else common
  {
    if Service in raw && raw[Service].Str? {
      var text := raw[Service].text;
      assert (forall c | c in text :: ServiceChar(c)) <==> (forall i | 0 <= i < |text| :: ServiceChar(text[i]));
    }
  }

  /** Validating what a validation returned changes nothing. */
  lemma ValidateIdempotent(tool: Tool, raw: Arguments)
    requires Validate(tool, raw).Some?
    ensures Validate(tool, Validate(tool, raw).value) == Validate(tool, raw)
  {
    var args := Validate(tool, raw).value;
    var common := map[Service := args[Service], Environment := args[Environment]];
    if tool.DependencyHealth? {
      assert args == common[Dependency := args[Dependency]];
    } else {
      assert args == common;
    }
  }

  function ActionIdOf(cfg: Config, task: TaskId, tool: Tool, arguments: Arguments): ActionId {
    var digest := cfg.argumentsHash(arguments);
    ActionId(task, tool, if |digest| > 16 then digest[..16] else digest)
  }

  /** The id names task and tool, and keeps the first sixteen characters of the hash. */
  lemma ActionIdIsExact(cfg: Config, task: TaskId, tool: Tool, arguments: Arguments)
    ensures var id := ActionIdOf(cfg, task, tool, arguments);
            && id.task == task && id.tool == tool
            && id.digest <= cfg.argumentsHash(arguments)
            && (|id.digest| == 16 || (|id.digest| < 16 && id.digest == cfg.argumentsHash(arguments)))
  {
  }

  /** What `ToolGateway.execute` demands before it looks at the ledger: validated, policy-approved arguments. */
  predicate Executable(tool: Tool, arguments: Arguments) {
    Validate(tool, arguments) == Some(arguments) && Evaluate(tool, arguments).allowed
  }

  predicate NeedsApproval(tool: Tool, arguments: Arguments) {
    Evaluate(tool, arguments).approvalRequired
  }

  /**
   The gate is closed by default: among validated calls exactly the restarts of production need a human,
   a missing environment means production, and exactly the deletion is refused.
   */
  lemma GateIsExact(tool: Tool, raw: Arguments)
    requires Validate(tool, raw).Some?
    ensures var arguments := Validate(tool, raw).value;
            && Environment in arguments
            && (NeedsApproval(tool, arguments) <==> tool.RestartService? && arguments[Environment] == Str("production"))
            && (Environment !in raw ==> arguments[Environment] == Str("production"))
            && (Evaluate(tool, arguments).allowed <==> !tool.DeleteDatabase?)
  {
    hide Lower;
    LowerCaseStays("production");
    LowerCaseStays("staging");
    LowerCaseStays("test");
  }

  /** A result the gateway accepts: a non-empty dictionary. */
  predicate StructuredResult(result: Json) {
    result.Obj? && result.fields != map[]
  }
}
