# Awesome.Net.Workflows: workflow builder and SetOutputTask, in Dafny

This project models two parts of the Awesome.Net.Workflows engine.

1. The fluent **WorkflowBuilder**. It keeps two lists: `Activities` (activity records) and `Transitions`.
   - It registers activity records. A null or whitespace id gets a generated id. An explicit id already in use is refused.
   - It flags a start activity.
   - It assembles a `WorkflowType`. The assembly sets the default flags and passes the activity list through. It keeps only the transitions whose destination is non-empty and names a registered activity.
2. The reference activity **SetOutputTask**. It declares the single outcome `"Done"`. Executing it does three things in order:
   - evaluates its `Value` expression;
   - stores the result under `OutputName` in the workflow context's `Output` dictionary;
   - completes with `"Done"`.

Files, one Dafny module each:

- `wrappers.dfy` (`Wrappers`): `Option` stands for a nullable value and `Result` for a call that may throw.
- `models.dfy` (`Models`): the records `ActivityRecord`, `Transition`, `WorkflowType` and `WorkflowDescription` (the metadata of an `IWorkflow`).
- `string_extensions.dfy` (`StringExtensions`): `IsNullOrEmpty`, and `IsNullOrWhiteSpace` with the whitespace set of .NET's `char.IsWhiteSpace`.
- `workflow_builder.dfy` (`FluentBuilders`): the `WorkflowBuilder` class, which holds `seq` fields that its methods reassign. Beside it are the transition filter `ValidTransitions` and the lemmas about it. `CleanupTransitions` is the loop of the source, proved against `ValidTransitions`.
- `set_output_task.dfy` (`Activities`): the `SetOutputTask` and `WorkflowExecutionContext` classes. `ExecuteStep` is the function that specifies `Execute`.

Conventions:

- A C# `null` is `None`.
- An exception is a `Failure` that carries `BuildError` or `ActivityError`.
- Random values become parameters: the generated activity id, `Guid.NewGuid()` and the generated workflow-type id. The model accepts any value for them.
- A `setup` callback is an optional function `WorkflowType -> WorkflowType`, applied last.
- The expression evaluator is a function of the expression and the output dictionary. It is fixed when the task is constructed.

Behaviour of the code worth noting:

- `Build` rejects only a null name (WorkflowBuilder.cs:85). An empty name is accepted.
- `Build(IWorkflow)` copies `WorkflowTypeId` and `Name` as well as the identity and the three flags (WorkflowBuilder.cs:70-75).
- Generated activity ids are never checked against the registered ones (WorkflowBuilder.cs:34-36).

## Model

| member | source | states |
|---|---|---|
| `FluentBuilders.FirstWithId` | src/Awesome.Net.Workflows/Awesome/Net/Workflows/FluentBuilders/WorkflowBuilder.cs:40-41 | A record is found exactly when some registered record carries the id. The found record is the first one in the list with that id. |
| `FluentBuilders.ValidTransitions` | src/Awesome.Net.Workflows/Awesome/Net/Workflows/FluentBuilders/WorkflowBuilder.cs:105-119 | Every kept transition has a non-null, non-empty destination that names a registered activity. The result is never longer than the input. |
| `FluentBuilders.ValidTransitionsMembership` | src/Awesome.Net.Workflows/Awesome/Net/Workflows/FluentBuilders/WorkflowBuilder.cs:107-116 | A transition is kept if and only if it is in the input and its destination is non-empty and registered. |
| `FluentBuilders.ValidTransitionsCount` | src/Awesome.Net.Workflows/Awesome/Net/Workflows/FluentBuilders/WorkflowBuilder.cs:109-115 | Every copy of a valid transition is kept: a valid transition occurs in the result exactly as often as in the input, and an invalid one not at all. |
| `FluentBuilders.ValidTransitionsIsSubsequence` | src/Awesome.Net.Workflows/Awesome/Net/Workflows/FluentBuilders/WorkflowBuilder.cs:108-116 | The kept transitions are an order-preserving subsequence of the input. |
| `FluentBuilders.ValidTransitionsKeepsValidList` | src/Awesome.Net.Workflows/Awesome/Net/Workflows/FluentBuilders/WorkflowBuilder.cs:109-116 | A list in which every transition is valid passes the filter unchanged. |
| `FluentBuilders.ValidTransitionsIdempotent` | src/Awesome.Net.Workflows/Awesome/Net/Workflows/FluentBuilders/WorkflowBuilder.cs:105-119 | Filtering an already filtered list returns the same list. |
| `FluentBuilders.DanglingTransitionsDropped` | src/Awesome.Net.Workflows/Awesome/Net/Workflows/FluentBuilders/WorkflowBuilder.cs:107-116 | Of A->B, A->D (D unregistered) and B->"", only A->B survives. |
| `FluentBuilders.InitialWorkflowType` | src/Awesome.Net.Workflows/Awesome/Net/Workflows/FluentBuilders/WorkflowBuilder.cs:87-97 | Before setup the result has the given id, type id and name, is enabled, not singleton and keeps finished workflows. Its activities are the builder's list. Its transitions are an order-preserving subsequence of the builder's, and they are exactly the valid ones, so each one resolves to an activity. |
| `FluentBuilders.CopyMetadata` | src/Awesome.Net.Workflows/Awesome/Net/Workflows/FluentBuilders/WorkflowBuilder.cs:68-76 | Id, WorkflowTypeId, Name, IsEnabled, IsSingleton and DeleteFinishedWorkflows come from the description. Activities and transitions are left as they were. |
| `FluentBuilders.WorkflowBuilder.constructor` | src/Awesome.Net.Workflows/Awesome/Net/Workflows/FluentBuilders/WorkflowBuilder.cs:12-18 | A new builder has no activities and no transitions. |
| `FluentBuilders.WorkflowBuilder.BuildActivity` | src/Awesome.Net.Workflows/Awesome/Net/Workflows/FluentBuilders/WorkflowBuilder.cs:28-57 | Fails with DuplicateActivityId if and only if the id is explicit (not null or whitespace) and already registered; on failure the list is unchanged. Otherwise the record's id is the explicit id or the generated one, and nothing else in the record changes. With addToWorkflow the record is appended at the end; without it the list is unchanged. Transitions are never touched. Distinct ids stay distinct after a registration with an explicit id. |
| `FluentBuilders.WorkflowBuilder.StartWith` | src/Awesome.Net.Workflows/Awesome/Net/Workflows/FluentBuilders/WorkflowBuilder.cs:20-26 | Fails under the same condition as BuildActivity. Otherwise the record is appended with IsStart set, and every earlier record, including its IsStart flag, is unchanged. |
| `FluentBuilders.WorkflowBuilder.CleanupTransitions` | src/Awesome.Net.Workflows/Awesome/Net/Workflows/FluentBuilders/WorkflowBuilder.cs:105-119 | The loop returns exactly ValidTransitions of the builder's lists. It modifies nothing. |
| `FluentBuilders.WorkflowBuilder.Build` | src/Awesome.Net.Workflows/Awesome/Net/Workflows/FluentBuilders/WorkflowBuilder.cs:83-102 | Fails with ArgumentNull("name") if and only if the name is null; an empty name is accepted. Otherwise the result is the setup callback applied to InitialWorkflowType. The builder is not modified. |
| `FluentBuilders.WorkflowBuilder.BuildFrom` | src/Awesome.Net.Workflows/Awesome/Net/Workflows/FluentBuilders/WorkflowBuilder.cs:66-81 | Fails if and only if the description's name is null. Otherwise the result is setup applied after the metadata copy. Without setup, the six metadata fields come from the description and override the defaults and generated ids. The activities are the builder's, and every transition resolves. |
| `Activities.ExecuteStep` | src/Awesome.Net.Workflows/Awesome/Net/Workflows/Activities/SetOutputTask.cs:33-40 | Succeeds if and only if evaluation succeeds and OutputName is non-null. An evaluation error propagates, and a null key is ArgumentNull("key"). On failure Output is unchanged. On success the outcome list is exactly ["Done"], Output[OutputName] is the evaluated value, the key set gains only OutputName, and every other entry is unchanged. |
| `Activities.SetOutputTask.GetPossibleOutcomes` | src/Awesome.Net.Workflows/Awesome/Net/Workflows/Activities/SetOutputTask.cs:27-31 | Exactly one outcome, named "Done". It reads no state, so it cannot change the context and repeated calls agree. |
| `Activities.SetOutputTask.Execute` | src/Awesome.Net.Workflows/Awesome/Net/Workflows/Activities/SetOutputTask.cs:33-40 | The result and the new Output are those of ExecuteStep, applied to the evaluator's value for `Value` in the pre-call Output. |
| `Activities.SetOutputTask.constructor` | src/Awesome.Net.Workflows/Awesome/Net/Workflows/Activities/SetOutputTask.cs:15-25 | The task holds the given evaluator, OutputName and Value. |
| `Activities.ExecutionTakesDeclaredOutcome` | src/Awesome.Net.Workflows/Awesome/Net/Workflows/Activities/SetOutputTask.cs:27-39 | Every outcome a successful execution takes is among the declared possible outcomes. |

## Left out

- `Build<T>()` (WorkflowBuilder.cs:59-64) is not modelled. It constructs an `IWorkflow` and calls its `Build(this)` populate step, which is code outside this model. `BuildFrom` models the overload it delegates to.
- Activity lookup is not modelled: `ActivityLibrary.GetActivityByName`, the `Action<T>` setup and `ActivityRecord.FromActivity` use reflection and dependency injection. `BuildActivity` and `StartWith` take the resulting record as the input `resolved`.
- `RandomHelper.Generate26UniqueId` and `Guid.NewGuid()` are parameters. Generated ids are neither assumed nor proved to be collision-free, so uniqueness is proved only for explicit ids.
- `StartWith` returns the record, not an `ActivityBuilder`. `ActivityBuilder` is not part of this model, and neither is the way it adds transitions. Clients assign `transitions` directly, as the public setter allows.
- StartWith: records are values, not shared objects. C# sets `IsStart` on the object already appended to `Activities`. The model gets the same effect by replacing the last element of the list.
- Build: the model's `WorkflowType` holds a snapshot of the builder's activity list. In C# it shares the same `List` object, so later registrations on the builder would show through.
- The `setup` callbacks are pure functions of the `WorkflowType` they receive. Side effects on any other state are not modelled.
- CopyMetadata: if the description's name is null, the name is kept, because the callback never runs in that case. C# would assign null.
- Null elements inside the lists and null `ActivityId`/`WorkflowTypeId` strings on records are not modelled. The model uses plain strings there.
- The `async`/`Task` machinery is not modelled, and neither are the `GetProperty`/`GetExpressionProperty` accessors of the `TaskActivity` base class. `OutputName` and `Value` are plain fields.
- The evaluator sees only the context's `Output` dictionary. No other part of `WorkflowExecutionContext` is modelled, and the evaluator itself never changes the context.
- The `ActivityExecutionContext` parameter is not modelled; SetOutputTask never reads it.
- Localization (`T["..."]`) and `Category` are not modelled; `T["Done"]` is the literal `"Done"`. The `IServiceProvider` constructor argument is not modelled either.
- Keys of `Output` are compared as plain strings, as with .NET's default ordinal comparer.
