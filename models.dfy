/**
 * The records a workflow graph is made of (namespace Awesome.Net.Workflows.Models).
 * Only the fields the builder reads or writes are modelled; the rest of an
 * activity's configuration is carried along untouched.
 */
module Models {
  import opened Wrappers

  /** `System.Guid`: 128 opaque bits. */
  type Guid = bv128

  /**
   * A frozen activity: its identity in the graph, the activity type it was made
   * from, whether execution starts here, and its serialized property bag
   * (property name to JSON text).
   */
  datatype ActivityRecord = ActivityRecord(
    activityId: string,
    activityType: string,
    isStart: bool,
    properties: map<string, string>)

  /** An edge from (source activity, outcome) to a destination activity; the destination may be null. */
  datatype Transition = Transition(
    sourceActivityId: string,
    sourceOutcomeName: string,
    destinationActivityId: Option<string>)

  /** The finished workflow definition handed to the execution engine. */
  datatype WorkflowType = WorkflowType(
    id: Guid,
    workflowTypeId: string,
    name: string,
    isEnabled: bool,
    isSingleton: bool,
    deleteFinishedWorkflows: bool,
    activities: seq<ActivityRecord>,
    transitions: seq<Transition>)

  /** The workflow-level metadata an `IWorkflow` description exposes. */
  datatype WorkflowDescription = WorkflowDescription(
    id: Guid,
    workflowTypeId: string,
    name: Option<string>,
    isEnabled: bool,
    isSingleton: bool,
    deleteFinishedWorkflows: bool)
}
