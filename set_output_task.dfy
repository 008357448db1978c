/**
 * The reference activity SetOutputTask (Activities/SetOutputTask.cs): it
 * declares the single outcome "Done"; executing it evaluates its `Value`
 * expression against the workflow context and stores the result under
 * `OutputName` in the context's `Output` dictionary.
 */
module Activities {
  import opened Wrappers

  /** The outcome every successful execution of the task takes. */
  const Done := "Done"

  /** A named exit an activity declares it may finish with. */
  datatype Outcome = Outcome(name: string)

  /** What `Outcomes("...")` returns from an execution: the outcome names taken. */
  datatype ActivityExecutionResult = ActivityExecutionResult(outcomes: seq<string>)

  /** The unevaluated expression text held by the `Value` property. */
  datatype WorkflowExpression = WorkflowExpression(expression: string)

  /** The exceptions that can leave `ExecuteAsync`. */
  datatype ActivityError =
    | EvaluationFailed(message: string)   // raised by the expression evaluator, propagated unchanged
    | ArgumentNull(paramName: string)     // the dictionary indexer refuses a null key

  /** The shared state of one workflow run; only its output dictionary is modelled. */
  class WorkflowExecutionContext<V> {
    var output: map<string, V>

    constructor (output: map<string, V>)
      ensures this.output == output
    {
      this.output := output;
    }
  }

  /** What one execution returns and the output dictionary it leaves behind. */
  datatype ExecutionStep<V> = ExecutionStep(result: Result<ActivityExecutionResult, ActivityError>, output: map<string, V>)

  /**
   * The effect of one execution, given what the evaluator returned for `Value`
   * (evaluation comes first), the configured output name and the output
   * dictionary before the call.
   */
  function ExecuteStep<V>(evaluated: Result<V, string>, outputName: Option<string>, output: map<string, V>)
    : (s: ExecutionStep<V>)
    ensures s.result.Success? <==> evaluated.Success? && outputName.Some?
    ensures evaluated.Failure? ==> s.result == Failure(EvaluationFailed(evaluated.error))
    ensures evaluated.Success? && outputName.None? ==> s.result == Failure(ArgumentNull("key"))
    ensures s.result.Failure? ==> s.output == output
    ensures s.result.Success? ==> s.result.value.outcomes == [Done]
    ensures s.result.Success? ==>
      && s.output.Keys == output.Keys + {outputName.value}
      && s.output[outputName.value] == evaluated.value
      && forall k :: k in output && k != outputName.value ==> s.output[k] == output[k]
  {
    match evaluated
    case Failure(message) => ExecutionStep(Failure(EvaluationFailed(message)), output)
    case Success(v) =>
      match outputName
      case None => ExecutionStep(Failure(ArgumentNull("key")), output)
      case Some(key) => ExecutionStep(Success(ActivityExecutionResult([Done])), output[key := v])
  }

  class SetOutputTask<V> {
    /** The configured `OutputName` property; `None` when it was never set. */
    var outputName: Option<string>
    /** The configured `Value` expression. */
    var value: WorkflowExpression
    /** The expression evaluator the task was constructed with. */
    const evaluate: (WorkflowExpression, map<string, V>) -> Result<V, string>

    constructor (evaluate: (WorkflowExpression, map<string, V>) -> Result<V, string>,
                 outputName: Option<string>, value: WorkflowExpression)
      ensures this.evaluate == evaluate && this.outputName == outputName && this.value == value
    {
      this.evaluate := evaluate;
      this.outputName := outputName;
      this.value := value;
    }

    /**
     * The outcomes the task may finish with. It reads no state at all, so it
     * cannot change the context and every call gives the same list.
     */
    function GetPossibleOutcomes(workflowContext: WorkflowExecutionContext<V>): (outcomes: seq<Outcome>)
      ensures |outcomes| == 1 && outcomes[0].name == Done
    {
      [Outcome(Done)]
    }

    /**
     * `ExecuteAsync`: evaluate `Value` against the context as it is before the
     * call, then write the result under `OutputName`, then return "Done".
     */
    method Execute(workflowContext: WorkflowExecutionContext<V>)
      returns (r: Result<ActivityExecutionResult, ActivityError>)
      modifies workflowContext
      ensures var step := ExecuteStep(evaluate(value, old(workflowContext.output)), outputName, old(workflowContext.output));
              r == step.result && workflowContext.output == step.output
    {
      var evaluated := evaluate(value, workflowContext.output);
      if evaluated.Failure? {
        return Failure(EvaluationFailed(evaluated.error));
      }
      if outputName.None? {
        return Failure(ArgumentNull("key"));
      }
      workflowContext.output := workflowContext.output[outputName.value := evaluated.value];
      return Success(ActivityExecutionResult([Done]));
    }
  }

  /** Every outcome an execution takes is one the task declares. */
  lemma ExecutionTakesDeclaredOutcome<V>(
    task: SetOutputTask<V>, workflowContext: WorkflowExecutionContext<V>,
    evaluated: Result<V, string>, outputName: Option<string>, output: map<string, V>)
    ensures var step := ExecuteStep(evaluated, outputName, output);
            step.result.Success? ==>
              forall o :: o in step.result.value.outcomes ==>
                exists d :: d in task.GetPossibleOutcomes(workflowContext) && d.name == o
  {
    var step := ExecuteStep(evaluated, outputName, output);
    if step.result.Success? {
      var declared := task.GetPossibleOutcomes(workflowContext);
      assert declared[0] in declared;
    }
  }

  /**
   * A client: with "result" configured and an evaluator returning `v`, the
   * output gains "result" -> `v`, the other entries stay, and the outcome is "Done".
   */
  method ExecuteWritesOneKey<V>(v: V, other: V)
  {
    var ctx := new WorkflowExecutionContext(map["previous" := other]);
    var evaluator := (e: WorkflowExpression, output: map<string, V>) => Success(v);
    var task := new SetOutputTask(evaluator, Some("result"), WorkflowExpression("input.value"));
    var declared := task.GetPossibleOutcomes(ctx);
    assert declared == [Outcome("Done")];
    var r := task.Execute(ctx);
    assert r == Success(ActivityExecutionResult(["Done"]));
    assert ctx.output == map["previous" := other, "result" := v];
  }
}
