/**
 * The fluent workflow builder (FluentBuilders/WorkflowBuilder.cs): it registers
 * activity records, marks a start activity and assembles a WorkflowType whose
 * transitions all lead to a registered activity.
 */
module FluentBuilders {
  import opened Wrappers
  import opened Models
  import opened StringExtensions

  /** The exceptions the builder throws. */
  datatype BuildError =
    | DuplicateActivityId(id: string)   // ArgumentException on parameter "id"
    | ArgumentNull(paramName: string)   // ArgumentNullException

  // ---------------------------------------------------------------------------
  // Activity identities

  /** Some registered record carries `id` (`Activities.Any(x => x.ActivityId == id)`). */
  predicate HasActivityId(activities: seq<ActivityRecord>, id: string) {
    exists i :: 0 <= i < |activities| && activities[i].activityId == id
  }

  /** No two records of the list share an activity id. */
  ghost predicate UniqueActivityIds(activities: seq<ActivityRecord>) {
    forall i, j :: 0 <= i < j < |activities| ==> activities[i].activityId != activities[j].activityId
  }

  /** `Activities.FirstOrDefault(x => x.ActivityId == id)`, with `None` for the default `null`. */
  function FirstWithId(activities: seq<ActivityRecord>, id: string): (r: Option<ActivityRecord>)
    ensures r.Some? <==> HasActivityId(activities, id)
    ensures r.Some? ==> exists i :: 0 <= i < |activities| && activities[i] == r.value &&
                          r.value.activityId == id &&
                          forall j :: 0 <= j < i ==> activities[j].activityId != id
  {
    if activities == [] then None
    else if activities[0].activityId == id then Some(activities[0])
    else
      var r := FirstWithId(activities[1..], id);
      assert forall i :: 1 <= i < |activities| ==> activities[i] == activities[1..][i - 1];
      r
  }

  // ---------------------------------------------------------------------------
  // Transition clean-up

  /** A transition survives the clean-up: its destination is neither null nor empty and names a registered activity. */
  predicate IsValidTransition(activities: seq<ActivityRecord>, t: Transition) {
    !IsNullOrEmpty(t.destinationActivityId) && HasActivityId(activities, t.destinationActivityId.value)
  }

  /** The transitions of `ts` that survive the clean-up, in their original order. */
  function ValidTransitions(activities: seq<ActivityRecord>, ts: seq<Transition>): (r: seq<Transition>)
    ensures |r| <= |ts|
    ensures forall t :: t in r ==> IsValidTransition(activities, t)
  {
    if ts == [] then []
    else
      var last := ts[|ts| - 1];
      ValidTransitions(activities, ts[..|ts| - 1]) + (if IsValidTransition(activities, last) then [last] else [])
  }

  /** `xs` is `ys` with some elements left out and the others in the same order. */
  ghost predicate IsSubsequence<T>(xs: seq<T>, ys: seq<T>)
    decreases |ys|
  {
    xs == [] ||
    (ys != [] &&
     ((xs[|xs| - 1] == ys[|ys| - 1] && IsSubsequence(xs[..|xs| - 1], ys[..|ys| - 1])) ||
      IsSubsequence(xs, ys[..|ys| - 1])))
  }

  /** A transition is kept exactly when it is in the input and valid. */
  lemma {:induction false} ValidTransitionsMembership(activities: seq<ActivityRecord>, ts: seq<Transition>)
    ensures forall t :: t in ValidTransitions(activities, ts) <==> t in ts && IsValidTransition(activities, t)
  {
    if ts != [] {
      var init, last := ts[..|ts| - 1], ts[|ts| - 1];
      ValidTransitionsMembership(activities, init);
      assert ts == init + [last];
    }
  }

  /** Each copy of a valid transition is kept, and no copy of an invalid one. */
  lemma {:induction false} ValidTransitionsCount(activities: seq<ActivityRecord>, ts: seq<Transition>, t: Transition)
    ensures multiset(ValidTransitions(activities, ts))[t] ==
            if IsValidTransition(activities, t) then multiset(ts)[t] else 0
  {
    if ts != [] {
      var init, last := ts[..|ts| - 1], ts[|ts| - 1];
      assert ts == init + [last];
      ValidTransitionsCount(activities, init, t);
    }
  }

  /** The clean-up only drops transitions: the result is an order-preserving subsequence of the input. */
  lemma {:induction false} ValidTransitionsIsSubsequence(activities: seq<ActivityRecord>, ts: seq<Transition>)
    ensures IsSubsequence(ValidTransitions(activities, ts), ts)
  {
    if ts != [] {
      var init, last := ts[..|ts| - 1], ts[|ts| - 1];
      var rest := ValidTransitions(activities, init);
      ValidTransitionsIsSubsequence(activities, init);
      if IsValidTransition(activities, last) {
        var r := rest + [last];
        assert ValidTransitions(activities, ts) == r;
        assert r[..|r| - 1] == rest && r[|r| - 1] == last;
      } else {
        assert ValidTransitions(activities, ts) == rest;
      }
    }
  }

  /** A list whose every transition is valid passes the clean-up unchanged. */
  lemma {:induction false} ValidTransitionsKeepsValidList(activities: seq<ActivityRecord>, ts: seq<Transition>)
    requires forall t :: t in ts ==> IsValidTransition(activities, t)
    ensures ValidTransitions(activities, ts) == ts
  {
    if ts != [] {
      var init, last := ts[..|ts| - 1], ts[|ts| - 1];
      assert ts == init + [last];
      forall t | t in init ensures IsValidTransition(activities, t) {
        assert t in ts;
      }
      ValidTransitionsKeepsValidList(activities, init);
      assert IsValidTransition(activities, last) by { assert last in ts; }
    }
  }

  /** Cleaning up an already cleaned-up list changes nothing. */
  lemma ValidTransitionsIdempotent(activities: seq<ActivityRecord>, ts: seq<Transition>)
    ensures ValidTransitions(activities, ValidTransitions(activities, ts)) == ValidTransitions(activities, ts)
  {
    ValidTransitionsKeepsValidList(activities, ValidTransitions(activities, ts));
  }

  // ---------------------------------------------------------------------------
  // Workflow type assembly

  /** Every transition of the workflow type leads to one of its activities. */
  predicate TransitionsResolve(w: WorkflowType) {
    forall t :: t in w.transitions ==>
      !IsNullOrEmpty(t.destinationActivityId) && HasActivityId(w.activities, t.destinationActivityId.value)
  }

  /** The workflow type `Build(name)` makes before its setup callback runs. */
  function InitialWorkflowType(
    newId: Guid, generatedTypeId: string, name: string,
    activities: seq<ActivityRecord>, transitions: seq<Transition>): (w: WorkflowType)
    ensures w.id == newId && w.workflowTypeId == generatedTypeId && w.name == name
    ensures w.isEnabled && !w.isSingleton && !w.deleteFinishedWorkflows
    ensures w.activities == activities
    ensures TransitionsResolve(w)
    ensures IsSubsequence(w.transitions, transitions)
    ensures forall t :: t in w.transitions <==> t in transitions && IsValidTransition(activities, t)
  {
    ValidTransitionsIsSubsequence(activities, transitions);
    ValidTransitionsMembership(activities, transitions);
    WorkflowType(newId, generatedTypeId, name, true, false, false,
                 activities, ValidTransitions(activities, transitions))
  }

  /** Runs the optional `Action<WorkflowType>` callback, modelled as a function applied last. */
  function ApplySetup(setup: Option<WorkflowType -> WorkflowType>, w: WorkflowType): WorkflowType {
    if setup.Some? then setup.value(w) else w
  }

  /** The callback `Build(IWorkflow)` installs: copy the description's metadata over the defaults. */
  function CopyMetadata(workflow: WorkflowDescription, w: WorkflowType): (r: WorkflowType)
    ensures r.id == workflow.id && r.workflowTypeId == workflow.workflowTypeId
    ensures workflow.name.Some? ==> r.name == workflow.name.value
    ensures r.isEnabled == workflow.isEnabled && r.isSingleton == workflow.isSingleton
    ensures r.deleteFinishedWorkflows == workflow.deleteFinishedWorkflows
    ensures r.activities == w.activities && r.transitions == w.transitions
  {
    // The callback only runs after Build has accepted workflow.name, so the
    // name is never null here; the fallback keeps the function total.
    w.(id := workflow.id, workflowTypeId := workflow.workflowTypeId,
       name := workflow.name.GetOr(w.name),
       isEnabled := workflow.isEnabled, isSingleton := workflow.isSingleton,
       deleteFinishedWorkflows := workflow.deleteFinishedWorkflows)
  }

  // ---------------------------------------------------------------------------
  // The builder

  class WorkflowBuilder {
    var activities: seq<ActivityRecord>
    var transitions: seq<Transition>

    constructor ()
      ensures activities == [] && transitions == []
    {
      activities := [];
      transitions := [];
    }

    /**
     * Registers `resolved`, the record frozen from the (looked-up and set-up)
     * activity. A null or whitespace `id` gets `generatedId`, the token of the
     * random id generator, without any check; an explicit `id` that a record
     * already carries is rejected.
     */
    method BuildActivity(resolved: ActivityRecord, id: Option<string>, generatedId: string, addToWorkflow: bool)
      returns (r: Result<ActivityRecord, BuildError>)
      modifies this
      ensures transitions == old(transitions)
      ensures r.Failure? <==> !IsNullOrWhiteSpace(id) && HasActivityId(old(activities), id.value)
      ensures r.Failure? ==> r.error == DuplicateActivityId(id.value) && activities == old(activities)
      ensures r.Success? && IsNullOrWhiteSpace(id) ==> r.value.activityId == generatedId
      ensures r.Success? && !IsNullOrWhiteSpace(id) ==> r.value.activityId == id.value
      ensures r.Success? ==> r.value == resolved.(activityId := r.value.activityId)
      ensures r.Success? ==> activities == if addToWorkflow then old(activities) + [r.value] else old(activities)
      ensures old(UniqueActivityIds(activities)) && !IsNullOrWhiteSpace(id) ==> UniqueActivityIds(activities)
    {
      var record := resolved;
      if IsNullOrWhiteSpace(id) {
        record := record.(activityId := generatedId);
      } else {
        var e := FirstWithId(activities, id.value);
        if e.Some? {
          return Failure(DuplicateActivityId(id.value));
        }
        record := record.(activityId := id.value);
      }
      if addToWorkflow {
        activities := activities + [record];
      }
      return Success(record);
    }

    /**
     * Registers and appends an activity, then flags it as the start. The C#
     * record is the object already in `Activities`, so the flag shows there too;
     * no other record's flag is read or written.
     */
    method StartWith(resolved: ActivityRecord, id: Option<string>, generatedId: string)
      returns (r: Result<ActivityRecord, BuildError>)
      modifies this
      ensures transitions == old(transitions)
      ensures r.Failure? <==> !IsNullOrWhiteSpace(id) && HasActivityId(old(activities), id.value)
      ensures r.Failure? ==> r.error == DuplicateActivityId(id.value) && activities == old(activities)
      ensures r.Success? ==> r.value.isStart && activities == old(activities) + [r.value]
      ensures r.Success? ==> r.value == resolved.(activityId := r.value.activityId, isStart := true)
      ensures r.Success? && !IsNullOrWhiteSpace(id) ==> r.value.activityId == id.value
      ensures r.Success? && IsNullOrWhiteSpace(id) ==> r.value.activityId == generatedId
    {
      r := BuildActivity(resolved, id, generatedId, true);
      if r.Success? {
        var started := r.value.(isStart := true);
        activities := activities[..|activities| - 1] + [started];
        r := Success(started);
      }
    }

    /** The transitions whose destination is non-empty and registered, in order; the builder is not changed. */
    method CleanupTransitions() returns (valid: seq<Transition>)
      ensures valid == ValidTransitions(activities, transitions)
    {
      valid := [];
      var i := 0;
      while i < |transitions|
        invariant 0 <= i <= |transitions|
        invariant valid == ValidTransitions(activities, transitions[..i])
      {
        var transition := transitions[i];
        if !IsNullOrEmpty(transition.destinationActivityId) {
          var isValidTransition := HasActivityId(activities, transition.destinationActivityId.value);
          if isValidTransition {
            valid := valid + [transition];
          }
        }
        assert transitions[..i + 1][..i] == transitions[..i];
        i := i + 1;
      }
      assert transitions[..i] == transitions;
    }

    /**
     * `Build(name, setup)`: a null name is rejected (an empty one is not);
     * otherwise the defaults, the registered activities and the cleaned-up
     * transitions, with `setup` applied last. `newId` and `generatedTypeId` are
     * what `Guid.NewGuid()` and the id generator return.
     */
    method Build(name: Option<string>, newId: Guid, generatedTypeId: string,
                 setup: Option<WorkflowType -> WorkflowType>)
      returns (r: Result<WorkflowType, BuildError>)
      ensures r.Failure? <==> name.None?
      ensures r.Failure? ==> r.error == ArgumentNull("name")
      ensures r.Success? ==>
        r.value == ApplySetup(setup, InitialWorkflowType(newId, generatedTypeId, name.value, activities, transitions))
    {
      if name.None? {
        return Failure(ArgumentNull("name"));
      }
      var cleaned := CleanupTransitions();
      var workflowType := WorkflowType(newId, generatedTypeId, name.value, true, false, false, activities, cleaned);
      if setup.Some? {
        workflowType := setup.value(workflowType);
      }
      return Success(workflowType);
    }

    /**
     * `Build(IWorkflow, setup)`: the standard assembly with a callback that
     * first copies the description's metadata over the defaults and then runs
     * `setup`.
     */
    method BuildFrom(workflow: WorkflowDescription, newId: Guid, generatedTypeId: string,
                     setup: Option<WorkflowType -> WorkflowType>)
      returns (r: Result<WorkflowType, BuildError>)
      ensures r.Failure? <==> workflow.name.None?
      ensures r.Failure? ==> r.error == ArgumentNull("name")
      ensures r.Success? ==>
        r.value == ApplySetup(setup, CopyMetadata(workflow,
          InitialWorkflowType(newId, generatedTypeId, workflow.name.value, activities, transitions)))
      ensures r.Success? && setup.None? ==>
        && r.value.id == workflow.id && r.value.workflowTypeId == workflow.workflowTypeId
        && r.value.name == workflow.name.value
        && r.value.isEnabled == workflow.isEnabled && r.value.isSingleton == workflow.isSingleton
        && r.value.deleteFinishedWorkflows == workflow.deleteFinishedWorkflows
        && r.value.activities == activities && TransitionsResolve(r.value)
    {
      var copyThenSetup := (x: WorkflowType) => ApplySetup(setup, CopyMetadata(workflow, x));
      r := Build(workflow.name, newId, generatedTypeId, Some(copyThenSetup));
    }
  }

  /** A client: a second registration under an explicit id already in use is refused and changes nothing. */
  method RegisterDuplicateId(a: ActivityRecord, b: ActivityRecord)
  {
    assert !IsNullOrWhiteSpace(Some("A")) by { assert !IsWhiteSpace("A"[0]); }
    var builder := new WorkflowBuilder();
    var ra := builder.StartWith(a, Some("A"), "generated-1");
    var rb := builder.BuildActivity(b, None, "generated-2", true);
    assert ra.Success? && rb.Success?;
    assert builder.activities == [ra.value, rb.value];
    var again := builder.BuildActivity(b, Some("A"), "generated-3", true);
    assert again == Failure(DuplicateActivityId("A"));
    assert builder.activities == [ra.value, rb.value];
    assert builder.activities[0].isStart && builder.activities[0].activityId == "A";
    assert builder.activities[1].activityId == "generated-2";
  }

  /**
   * A client: of the transitions A->B, A->D (D never registered) and B->""
   * only A->B survives assembly.
   */
  method AssembleWithDanglingTransitions(a: ActivityRecord, b: ActivityRecord, c: ActivityRecord)
  {
    var builder := new WorkflowBuilder();
    var acts := [a.(activityId := "A"), b.(activityId := "B"), c.(activityId := "C")];
    var ab := Transition("A", "Done", Some("B"));
    var ad := Transition("A", "Done", Some("D"));
    var be := Transition("B", "Done", Some(""));
    builder.activities := acts;
    builder.transitions := [ab, ad, be];
    var w := builder.Build(Some("demo"), 0, "generated-4", None);
    assert acts[1].activityId == "B";
    DanglingTransitionsDropped(acts, ab, ad, be);
    assert w.value.transitions == [ab];
  }

  lemma DanglingTransitionsDropped(acts: seq<ActivityRecord>, ab: Transition, ad: Transition, be: Transition)
    requires HasActivityId(acts, "B") && !HasActivityId(acts, "D")
    requires ab.destinationActivityId == Some("B") && ad.destinationActivityId == Some("D")
    requires be.destinationActivityId == Some("")
    ensures ValidTransitions(acts, [ab, ad, be]) == [ab]
  {
    assert IsValidTransition(acts, ab) && !IsValidTransition(acts, ad) && !IsValidTransition(acts, be);
    var ts := [ab, ad, be];
    assert ts[..2] == [ab, ad] && ts[..2][..1] == [ab] && ts[..2][..1][..0] == [];
    calc {
      ValidTransitions(acts, ts);
      ValidTransitions(acts, ts[..2]);
      ValidTransitions(acts, ts[..2][..1]);
      ValidTransitions(acts, ts[..2][..1][..0]) + [ab];
    }
  }
}
