/**
 * The in-memory agent database: the list of workflows and the counter that
 * numbers new workflows, with the eight operations that read and change them.
 * Every operation runs to completion before the next one starts, so each is a
 * synchronous method here.
 */
module AgentDatabase {
  import opened Wrappers
  import opened Decimal
  import opened Keyed
  import opened Workflows

  class Store {
    /** The workflows, in insertion order. */
    var workflows: seq<Workflow>
    /** The number the next `addWorkflow` turns into an id. */
    var nextId: nat

    /** Workflow ids are counter-issued numerals, increasing along the list and below the counter. */
    ghost predicate Valid()
      reads this
      ensures Valid() ==> forall i, j :: 0 <= i < j < |workflows| ==> workflows[i].id != workflows[j].id
    {
      WellNumbered(workflows, nextId)
    }

    /** The database as the module loads it: the three sample workflows and the counter at 4. */
    constructor ()
      ensures Valid()
      ensures workflows == SampleWorkflows() && nextId == 4
    {
      workflows := SampleWorkflows();
      nextId := 4;
      SampleWorkflowsWellNumbered();
    }

    /** `getWorkflows`: every workflow, in insertion order. */
    method GetWorkflows() returns (r: seq<Workflow>)
      ensures r == workflows
    {
      r := workflows;
    }

    /** `getWorkflowById`: the first workflow with the id, or None (the source's `null`). */
    method GetWorkflowById(id: string) returns (r: Option<Workflow>)
      requires Valid()
      ensures r.None? <==> !HasKey(workflows, WorkflowKey, id)
      ensures r.Some? ==> r.value in workflows && r.value.id == id
      ensures r.Some? ==> forall i :: 0 <= i < |workflows| && workflows[i].id == id ==> workflows[i] == r.value
    {
      WellNumberedDistinct(workflows, nextId);
      var k := FirstIndex(workflows, WorkflowKey, id);
      if k.None? {
        r := None;
      } else {
        r := Some(workflows[k.value]);
      }
    }

    /**
     * `addWorkflow`: the id is the counter in decimal, the counter goes up by
     * one, and the new workflow is appended; nothing else moves.
     */
    method AddWorkflow(draft: WorkflowDraft) returns (id: string)
      requires Valid()
      modifies this
      ensures Valid()
      ensures id == NatToString(old(nextId)) && nextId == old(nextId) + 1
      ensures !HasKey(old(workflows), WorkflowKey, id)
      ensures workflows == old(workflows) + [NewWorkflow(id, draft)]
    {
      id := NatToString(nextId);
      CounterIdIsFresh(workflows, nextId);
      WellNumberedAppend(workflows, nextId, NewWorkflow(id, draft));
      nextId := nextId + 1;
      workflows := workflows + [NewWorkflow(id, draft)];
    }

    /**
     * `updateWorkflow`: false and no change when no workflow has the id;
     * otherwise the first match is shallow-merged with the update.
     */
    method UpdateWorkflow(id: string, updates: WorkflowPatch) returns (ok: bool)
      requires Valid()
      modifies this
      ensures Valid() && nextId == old(nextId)
      ensures ok <==> HasKey(old(workflows), WorkflowKey, id)
      ensures match FirstIndex(old(workflows), WorkflowKey, id)
              case None => workflows == old(workflows)
              case Some(k) => workflows == old(workflows)[k := MergeWorkflow(old(workflows)[k], updates)]
    {
      var index := FirstIndex(workflows, WorkflowKey, id);
      if index.None? {
        return false;
      }
      var k := index.value;
      WellNumberedReplace(workflows, nextId, k, MergeWorkflow(workflows[k], updates));
      workflows := workflows[k := MergeWorkflow(workflows[k], updates)];
      ok := true;
    }

    /**
     * `deleteWorkflow`: true iff a workflow had the id. Afterwards none has it,
     * and the others stay in order; its steps go with it.
     */
    method DeleteWorkflow(id: string) returns (ok: bool)
      requires Valid()
      modifies this
      ensures Valid() && nextId == old(nextId)
      ensures ok <==> HasKey(old(workflows), WorkflowKey, id)
      ensures workflows == RemoveKey(old(workflows), WorkflowKey, id)
      ensures !HasKey(workflows, WorkflowKey, id)
      ensures match FirstIndex(old(workflows), WorkflowKey, id)
              case None => workflows == old(workflows)
              case Some(k) => workflows == old(workflows)[..k] + old(workflows)[k + 1..]
    {
      RemoveWorkflow(workflows, nextId, id);
      var initialLength := |workflows|;
      workflows := RemoveKey(workflows, WorkflowKey, id);
      ok := |workflows| < initialLength;
    }

    /**
     * `addStepToWorkflow`: None and no change when the workflow is missing;
     * otherwise a step with the positional id `${workflowId}-${length + 1}`
     * is appended to that workflow, and its id returned.
     */
    method AddStepToWorkflow(workflowId: string, step: StepDraft) returns (r: Option<string>)
      requires Valid()
      modifies this
      ensures Valid() && nextId == old(nextId)
      ensures r.None? <==> !HasKey(old(workflows), WorkflowKey, workflowId)
      ensures match FirstIndex(old(workflows), WorkflowKey, workflowId)
              case None => workflows == old(workflows)
              case Some(k) =>
                var w := old(workflows)[k];
                && r == Some(StepId(workflowId, |w.steps| + 1))
                && workflows == old(workflows)[k := w.(steps := w.steps + [NewStep(r.value, step)])]
    {
      var index := FirstIndex(workflows, WorkflowKey, workflowId);
      if index.None? {
        return None;
      }
      var k := index.value;
      var w := workflows[k];
      var stepId := StepId(workflowId, |w.steps| + 1);
      var updated := w.(steps := w.steps + [NewStep(stepId, step)]);
      WellNumberedReplace(workflows, nextId, k, updated);
      workflows := workflows[k := updated];
      r := Some(stepId);
    }

    /**
     * `updateWorkflowStep`: false and no change when the workflow or the step
     * is missing; otherwise the first step with the id is shallow-merged in
     * place, and every other step and workflow is left as it was.
     */
    method UpdateWorkflowStep(workflowId: string, stepId: string, updates: StepPatch) returns (ok: bool)
      requires Valid()
      modifies this
      ensures Valid() && nextId == old(nextId)
      ensures !ok ==> workflows == old(workflows)
      ensures match FirstIndex(old(workflows), WorkflowKey, workflowId)
              case None => !ok
              case Some(k) =>
                var w := old(workflows)[k];
                match FirstIndex(w.steps, StepKey, stepId)
                case None => !ok
                case Some(j) =>
                  ok && workflows == old(workflows)[k := w.(steps := w.steps[j := MergeStep(w.steps[j], updates)])]
    {
      var index := FirstIndex(workflows, WorkflowKey, workflowId);
      if index.None? {
        return false;
      }
      var k := index.value;
      var w := workflows[k];
      var stepIndex := FirstIndex(w.steps, StepKey, stepId);
      if stepIndex.None? {
        return false;
      }
      var j := stepIndex.value;
      var updated := w.(steps := w.steps[j := MergeStep(w.steps[j], updates)]);
      WellNumberedReplace(workflows, nextId, k, updated);
      workflows := workflows[k := updated];
      ok := true;
    }

    /**
     * `deleteWorkflowStep`: false and no change when the workflow is missing;
     * otherwise every step with the id is filtered out of that workflow, the
     * rest keep their order, and the result is true iff the step count fell.
     */
    method DeleteWorkflowStep(workflowId: string, stepId: string) returns (ok: bool)
      requires Valid()
      modifies this
      ensures Valid() && nextId == old(nextId)
      ensures !ok ==> workflows == old(workflows)
      ensures match FirstIndex(old(workflows), WorkflowKey, workflowId)
              case None => !ok
              case Some(k) =>
                var w := old(workflows)[k];
                && (ok <==> HasKey(w.steps, StepKey, stepId))
                && workflows == old(workflows)[k := w.(steps := RemoveKey(w.steps, StepKey, stepId))]
    {
      var index := FirstIndex(workflows, WorkflowKey, workflowId);
      if index.None? {
        return false;
      }
      var k := index.value;
      var w := workflows[k];
      var initialLength := |w.steps|;
      var updated := w.(steps := RemoveKey(w.steps, StepKey, stepId));
      ok := |updated.steps| < initialLength;
      if !ok {
        RemoveKeyAbsent(w.steps, StepKey, stepId);
      }
      WellNumberedReplace(workflows, nextId, k, updated);
      workflows := workflows[k := updated];
    }
  }
}
