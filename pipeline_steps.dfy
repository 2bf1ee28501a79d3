/** The wrapper every pipeline step runs through
    (app/services/video_pipeline/steps/base_step.py): the enabled gate, the
    skip on earlier errors and the conversion of an exception into an error
    message. */
module PipelineSteps {
  import opened Wrappers
  import opened PipelineContext

  /** What a step's `process` did: the context as it left it, and the text
      (`str(e)`) of the exception it raised, if it raised one. */
  datatype StepOutcome = StepOutcome(after: ContextState, raised: Option<string>)

  function ErrorMessage(name: string, msg: string): string {
    "Error in step " + name + ": " + msg
  }

  /** `__call__` of `BaseStep` (`nonCritical` false) and of `NonCriticalStep`
      (`nonCritical` true), given what `process` would do. */
  function CallOutcome(name: string, enabled: bool, nonCritical: bool, before: ContextState, outcome: StepOutcome): ContextState {
    if !enabled then before
    else if !nonCritical && Failing(before) then before
    else if outcome.raised.Some? then WithError(outcome.after, ErrorMessage(name, outcome.raised.value))
    else outcome.after
  }

  /** `a` is a prefix of `b`. */
  predicate Extends(a: seq<string>, b: seq<string>) {
    |a| <= |b| && b[..|a|] == a
  }

  /** A disabled step leaves the context as it is, whatever its processing
      would have done. */
  lemma {:induction false} DisabledStepSkips(name: string, nonCritical: bool, before: ContextState, outcome: StepOutcome)
    ensures CallOutcome(name, false, nonCritical, before, outcome) == before
  {
  }

  /** A plain step leaves a context that already has errors as it is; a
      non-critical one runs its processing regardless. */
  lemma {:induction false} ErrorsGateOnlyPlainSteps(name: string, before: ContextState, outcome: StepOutcome)
    requires Failing(before)
    ensures CallOutcome(name, true, false, before, outcome) == before
    ensures CallOutcome(name, true, true, before, outcome)
            == if outcome.raised.Some? then WithError(outcome.after, ErrorMessage(name, outcome.raised.value))
               else outcome.after
  {
  }

  /** A step that runs and raises adds exactly one message, naming the step,
      after whatever its processing left; one that runs and returns leaves
      the context as its processing did. */
  lemma {:induction false} RaisedAddsOneError(name: string, nonCritical: bool, before: ContextState, outcome: StepOutcome)
    requires nonCritical || !Failing(before)
    ensures outcome.raised.Some? ==>
              CallOutcome(name, true, nonCritical, before, outcome)
              == outcome.after.(errors := outcome.after.errors + [ErrorMessage(name, outcome.raised.value)])
    ensures outcome.raised.None? ==> CallOutcome(name, true, nonCritical, before, outcome) == outcome.after
  {
  }

  /** The wrapper never removes an error: when processing only adds to the
      list, the list after the call extends the list before it. */
  lemma {:induction false} ErrorsOnlyGrow(name: string, enabled: bool, nonCritical: bool, before: ContextState, outcome: StepOutcome)
    requires Extends(before.errors, outcome.after.errors)
    ensures Extends(before.errors, CallOutcome(name, enabled, nonCritical, before, outcome).errors)
  {
    if enabled && (nonCritical || !Failing(before)) && outcome.raised.Some? {
      var e := outcome.after.errors;
      var m := ErrorMessage(name, outcome.raised.value);
      assert (e + [m])[..|before.errors|] == e[..|before.errors|];
    }
  }

  /** A pipeline step: its name, the mutable enabled flag, whether it is a
      `NonCriticalStep`, and its `process`, as what it does to a context. */
  class PipelineStep {
    const name: string
    var enabled: bool
    const nonCritical: bool
    const process: ContextState -> StepOutcome

    constructor(name: string, enabled: bool, nonCritical: bool, process: ContextState -> StepOutcome)
      ensures this.name == name && this.enabled == enabled && this.nonCritical == nonCritical
      ensures this.process == process
    {
      this.name := name;
      this.enabled := enabled;
      this.nonCritical := nonCritical;
      this.process := process;
    }

    /** `__call__`: running the step on a context. */
    method Call(context: VideoContext)
      modifies context
      ensures context.State() == CallOutcome(name, enabled, nonCritical, old(context.State()), process(old(context.State())))
    {
      if !enabled {
        return;
      }
      if !nonCritical && context.HasErrors() {
        return;
      }
      var outcome := process(context.State());
      context.Assign(outcome.after);
      if outcome.raised.Some? {
        context.AddError(ErrorMessage(name, outcome.raised.value));
      }
    }
  }
}
