/** The tool gateway: validation, policy, and the write-once ledger around the backend (tools.py). */
module Gateway {
  import opened Prelude
  import opened Models
  import opened Policy
  import opened Tools
  import opened Tables
  import opened Store
  import opened Deliveries
  import opened Checkpoints
  import opened Machine
  import opened Solo

  /** The save that the outcome leads to. */
  function AfterTool(tool: Tool, outcome: ToolOutcome): Pc {
    match outcome
    case ToolResult(result, _) => Saving(FinishTool(tool, result))
    case ToolRetryable(error) => Saving(RetryTool(error))
    case ToolPermanent(error) => Saving(FailRun(error))
    case ToolUncaught => Halted
  }

  class ToolGateway {
    const store: SQLiteStore
    const cfg: Config

    constructor (store: SQLiteStore, cfg: Config)
      ensures this.store == store && this.cfg == cfg
    {
      this.store, this.cfg := store, cfg;
    }

    /** None is the permanent error of arguments that the tool's schema rejects. */
    method ValidateAndDecide(tool: Tool, arguments: Arguments) returns (r: Option<(Arguments, PolicyDecision)>)
      ensures r.Some? <==> Validate(tool, arguments).Some?
      ensures r.Some? ==> r.value.0 == Validate(tool, arguments).value && r.value.1 == Evaluate(tool, r.value.0)
    {
      var validated := Validate(tool, arguments);
      if validated.None? {
        return None;
      }
      return Some((validated.value, Evaluate(tool, validated.value)));
    }

    method ActionId(state: WorkflowState, tool: Tool, arguments: Arguments) returns (id: ActionId)
      ensures id == ActionIdOf(cfg, state.taskId, tool, arguments)
    {
      var digest := cfg.argumentsHash(arguments);
      if |digest| > 16 {
        digest := digest[..16];
      }
      return Models.ActionId(state.taskId, tool, digest);
    }

    /** The backend is called only on a miss, and its result is recorded before it is returned. */
    method Execute(state: WorkflowState, tool: Tool, arguments: Arguments, a: Answer, ghost p: Proc)
      returns (outcome: ToolOutcome, ghost q: Proc)
      requires cfg.Valid() && p.pc == Machine.Execute(tool, arguments) && p.task == state.taskId
      modifies store
      ensures (store.World(), outcome) == CallRun(cfg, old(store.World()), state, tool, arguments, a.backend)
      ensures Reaches(cfg, old(store.World()), p, a, store.World(), q)
      ensures q == p.(pc := AfterTool(tool, outcome))
      ensures forall key | key in old(store.World()).ledger ::
                key in store.World().ledger && store.World().ledger[key] == old(store.World()).ledger[key]
      ensures outcome.ToolResult? && outcome.cached ==> store.World() == old(store.World())
    {
      hide StepProc, Validate, Evaluate, Reaches;
      ghost var w := store.World();
      q := p;
      ReachesSelf(cfg, w, p, a);
      var decided := ValidateAndDecide(tool, arguments);
      if decided.None? {
        return ToolPermanent(InvalidArguments(tool)), q;
      }
      var (validated, policy) := decided.value;
      PolicyIsExact(tool, validated);
      if !policy.allowed {
        return ToolPermanent(policy.reason), q;
      }
      var key := ActionId(state, tool, validated);
      OnLookup(cfg, w, q, a);
      ReachesStep(cfg, w, p, a, w, q);
      q := StepProc(cfg, w, q, a).1;
      var lookup := store.GetToolResult(key, cfg.argumentsHash(validated));
      if lookup.HashConflict? {
        return ToolUncaught, q;
      }
      if lookup.Found? {
        return ToolResult(lookup.result, true), q;
      }
      OnCall(cfg, w, q, a);
      ReachesStep(cfg, w, p, a, w, q);
      q := StepProc(cfg, w, q, a).1;
      match a.backend {
        case BackendCrash => return ToolUncaught, q;
        case BackendRetryable(message) => return ToolRetryable(Text(message)), q;
        case BackendPermanent(message) => return ToolPermanent(Text(message)), q;
        case Returned(result) =>
          if !StructuredResult(result) {
            return ToolRetryable(InvalidToolOutput(tool)), q;
          }
          OnRecord(cfg, w, q, a);
          ReachesStep(cfg, w, p, a, w, q);
          q := StepProc(cfg, w, q, a).1;
          store.SaveToolResult(key, LedgerRow(state.taskId, tool, cfg.argumentsHash(validated), result));
          return ToolResult(result, false), q;
      }
    }
  }
}
