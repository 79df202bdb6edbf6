/** One script instance (src/script.rs): created from a compile outcome,
    notified of events while it is enabled, and switched on and off. The
    interpreter is foreign code, so compiling a source and evaluating a call
    are oracles handed in as function values: the model fixes what the
    handlers do with each possible outcome, not what the outcome is. */
module Scripting {
  import opened Utils
  import opened Discord
  import opened CallSynthesis

  /** The interpreter state a compiled script keeps; opaque to the model. */
  datatype Engine = Engine(handle: nat)

  /** What compiling and running a source's top level can end in. Any error
      raised on the way, including a missing function, is a `CompileError`. */
  datatype CompileOutcome = Compiled(engine: Engine) | CompileError(message: string)

  /** What evaluating a hook call can end in. A missing hook is its own
      outcome, distinct from every other evaluation error. */
  datatype EvalOutcome = Ok | FunctionNotFound | Err(message: string)

  /** Compiles and runs a script source, with the script-facing functions
      bound for the given origin message. */
  type Compiler = (string, Message) -> CompileOutcome

  /** Evaluates call text against a compiled engine in a scope. */
  type Evaluator = (Engine, Scope, string) -> EvalOutcome

  /** The value a script object holds. */
  datatype ScriptState = ScriptState(sourceMsg: Message, engine: Engine, enabled: bool)

  /** The script `Script::new` yields for a compile outcome. */
  function Created(outcome: CompileOutcome, sourceMsg: Message): Option<ScriptState> {
    match outcome
    case Compiled(engine) => Some(ScriptState(sourceMsg, engine, true))
    case CompileError(_) => None
  }

  /** The feedback `Script::new` sends for a compile outcome. */
  function CreateFeedback(outcome: CompileOutcome, sourceMsg: Message): seq<Feedback> {
    match outcome
    case Compiled(_) => [React(sourceMsg.Origin(), ReactSuccess())]
    case CompileError(e) => [Reply(sourceMsg.Origin(), "Fehler: " + e), React(sourceMsg.Origin(), ReactFailure())]
  }

  /** The feedback for the outcome of one hook call. */
  function OutcomeFeedback(outcome: EvalOutcome, target: OriginId): seq<Feedback> {
    match outcome
    case Ok => [React(target, ReactHalo())]
    case FunctionNotFound => []
    case Err(_) => [React(target, ReactSkull())]
  }

  /** The feedback `Script::notify` sends: none for a disabled script,
      otherwise the one for the outcome of the synthesized call. */
  function NotifyFeedback(s: ScriptState, hook: string, args: seq<Arg>, eval: Evaluator): seq<Feedback> {
    if !s.enabled then []
    else OutcomeFeedback(eval(s.engine, ScopeOf(args), CallText(hook, |args|)), s.sourceMsg.Origin())
  }

  /** The state after `Script::set_status(desired)`. */
  function WithStatus(s: ScriptState, desired: bool): ScriptState {
    s.(enabled := desired)
  }

  /** The feedback `Script::set_status(desired)` sends. */
  function StatusFeedback(s: ScriptState, desired: bool): seq<Feedback> {
    if s.enabled == desired then []
    else [DeleteReactions(s.sourceMsg.Origin()),
          React(s.sourceMsg.Origin(), if desired then ReactSuccess() else ReactFailure())]
  }

  class Script {
    /** The message that defined the script; never reassigned. */
    const sourceMsg: Message
    /** The compiled interpreter; never reassigned. */
    const engine: Engine
    var enabled: bool

    function State(): ScriptState
      reads this
    {
      ScriptState(sourceMsg, engine, enabled)
    }

    constructor (sourceMsg: Message, engine: Engine)
      ensures State() == ScriptState(sourceMsg, engine, true)
    {
      this.sourceMsg := sourceMsg;
      this.engine := engine;
      this.enabled := true;
    }

    /** `Script::new`: compile and run `source` for `sourceMsg`; on success an
        enabled script and a success reaction, on failure no script, the
        diagnostic as a reply and a failure reaction. */
    static method New(source: string, ctx: Context, sourceMsg: Message, compile: Compiler)
      returns (s: Script?)
      modifies ctx
      ensures s == null <==> Created(compile(source, sourceMsg), sourceMsg).None?
      ensures s != null ==> fresh(s) && s.State() == Created(compile(source, sourceMsg), sourceMsg).value
      ensures ctx.log == old(ctx.log) + CreateFeedback(compile(source, sourceMsg), sourceMsg)
    {
      match compile(source, sourceMsg)
      case Compiled(engine) =>
        ctx.React(sourceMsg.Origin(), ReactSuccess());
        s := new Script(sourceMsg, engine);
      case CompileError(e) =>
        ctx.Reply(sourceMsg.Origin(), "Fehler: " + e);
        ctx.React(sourceMsg.Origin(), ReactFailure());
        s := null;
    }

    /** `Script::notify`: a disabled script evaluates nothing; an enabled one
        evaluates the synthesized call and reacts to its outcome. The script
        itself is not changed. */
    method Notify(ctx: Context, hook: string, args: seq<Arg>, eval: Evaluator)
      modifies ctx
      ensures ctx.log == old(ctx.log) + NotifyFeedback(State(), hook, args, eval)
    {
      if !enabled {
        return;
      }
      var scope, call := SynthesizeCall(hook, args);
      assert scope == ScopeOf(args);
      match eval(engine, scope, call)
      case Ok =>
        ctx.React(sourceMsg.Origin(), ReactHalo());
      case FunctionNotFound =>
      case Err(_) =>
        ctx.React(sourceMsg.Origin(), ReactSkull());
    }

    /** `Script::set_status`. */
    method SetStatus(desired: bool, ctx: Context)
      modifies this, ctx
      ensures State() == WithStatus(old(State()), desired)
      ensures ctx.log == old(ctx.log) + StatusFeedback(old(State()), desired)
    {
      if enabled == desired {
        return;
      }
      ctx.DeleteReactions(sourceMsg.Origin());
      enabled := desired;
      if desired {
        ctx.React(sourceMsg.Origin(), ReactSuccess());
      } else {
        ctx.React(sourceMsg.Origin(), ReactFailure());
      }
    }
  }

  /** A compiled script starts enabled, anchored to the given message, with
      one success reaction; a failed one yields nothing, the diagnostic as
      a reply, then one failure reaction. */
  lemma CreateContract(outcome: CompileOutcome, sourceMsg: Message)
    ensures Created(outcome, sourceMsg).Some? <==> outcome.Compiled?
    ensures Created(outcome, sourceMsg).Some? ==>
      var s := Created(outcome, sourceMsg).value;
      s.enabled && s.sourceMsg == sourceMsg
    ensures outcome.Compiled? ==> CreateFeedback(outcome, sourceMsg) == [React(sourceMsg.Origin(), ReactSuccess())]
    ensures outcome.CompileError? ==>
      CreateFeedback(outcome, sourceMsg) ==
      [Reply(sourceMsg.Origin(), "Fehler: " + outcome.message), React(sourceMsg.Origin(), ReactFailure())]
  {
  }

  /** The feedback of a compile attempt tells success from failure, and a
      failure's reply tells the diagnostics apart. */
  lemma CreateFeedbackIdentifiesOutcome(o1: CompileOutcome, o2: CompileOutcome, sourceMsg: Message)
    requires CreateFeedback(o1, sourceMsg) == CreateFeedback(o2, sourceMsg)
    ensures o1.Compiled? <==> o2.Compiled?
    ensures o1.CompileError? ==> o1 == o2
  {
    if o1.CompileError? && o2.CompileError? {
      var p: string := "Fehler: ";
      assert (p + o1.message)[|p|..] == o1.message;
      assert (p + o2.message)[|p|..] == o2.message;
    }
  }

  /** A hook call sends at most one reaction, on the script's origin
      message, and which reaction it is tells apart success, a missing hook
      and a runtime fault. */
  lemma OutcomeFeedbackIdentifiesOutcome(o1: EvalOutcome, o2: EvalOutcome, target: OriginId)
    requires OutcomeFeedback(o1, target) == OutcomeFeedback(o2, target)
    ensures o1.Ok? <==> o2.Ok?
    ensures o1.FunctionNotFound? <==> o2.FunctionNotFound?
    ensures o1.Err? <==> o2.Err?
  {
    ReactionsDistinct();
  }

  /** Execution feedback never looks like compile feedback: the halo and
      skull reactions are neither the success nor the failure reaction. */
  lemma ExecutionFeedbackUnlikeCompileFeedback(e: EvalOutcome, c: CompileOutcome, m: Message)
    ensures forall f :: f in OutcomeFeedback(e, m.Origin()) ==> f !in CreateFeedback(c, m)
  {
    ReactionsDistinct();
  }

  /** A disabled script is not evaluated: its notification sends nothing,
      whatever the evaluator would have answered. */
  lemma DisabledNotifySilent(s: ScriptState, hook: string, args: seq<Arg>, eval: Evaluator)
    requires !s.enabled
    ensures NotifyFeedback(s, hook, args, eval) == []
  {
  }

  /** `set_status` is a no-op exactly when the flag already has the desired
      value; otherwise it clears the reactions first and then shows the new
      state. Either way the flag ends at the desired value, so a second
      identical call does nothing. */
  lemma StatusContract(s: ScriptState, desired: bool)
    ensures WithStatus(s, desired).enabled == desired
    ensures WithStatus(s, desired).sourceMsg == s.sourceMsg && WithStatus(s, desired).engine == s.engine
    ensures StatusFeedback(s, desired) == [] <==> s.enabled == desired
    ensures s.enabled == desired ==> WithStatus(s, desired) == s
    ensures StatusFeedback(s, desired) != [] ==>
      StatusFeedback(s, desired)[0] == DeleteReactions(s.sourceMsg.Origin()) &&
      StatusFeedback(s, desired)[|StatusFeedback(s, desired)| - 1] ==
        React(s.sourceMsg.Origin(), if desired then ReactSuccess() else ReactFailure())
    ensures StatusFeedback(WithStatus(s, desired), desired) == []
  {
  }
}
