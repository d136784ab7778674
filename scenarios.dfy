/**
 * Clients of the agent database that run usage scenarios
 * against a freshly loaded store and state what every call returns.
 */
module Scenarios {
  import opened Wrappers
  import opened Decimal
  import opened Keyed
  import opened Workflows
  import opened AgentDatabase

  /** On a store whose counter stands at 4, a new workflow gets id "4" and its first step "4-1". */
  method AddWorkflowWithStep(db: Store) returns (workflowId: string, stepId: Option<string>)
    requires db.Valid() && db.nextId == 4
    modifies db
    ensures db.Valid() && db.nextId == 5
    ensures workflowId == "4" && stepId == Some("4-1")
    ensures HasKey(db.workflows, WorkflowKey, "4")
  {
    ghost var before := db.workflows;
    var draft := WorkflowDraft("Research", "desc", None);
    workflowId := db.AddWorkflow(draft);
    assert workflowId == NatToString(4) == "4";
    FirstIndexAppendFresh(before, NewWorkflow("4", draft), WorkflowKey, "4");
    stepId := db.AddStepToWorkflow("4", StepDraft("ai-step", "Step1", "d", Some(map[])));
    assert StepId("4", 1) == "4-1";
    assert WorkflowKey(db.workflows[|before|]) == "4";
  }

  /**
   * Deleting a workflow takes its steps with it: afterwards the workflow is
   * not found, and no step operation on it gets through.
   */
  method DeleteAndProbe(db: Store, workflowId: string, stepId: string)
    returns (deleted: bool, found: Option<Workflow>, stepAfter: Option<string>, updatedAfter: bool, removedAfter: bool)
    requires db.Valid() && HasKey(db.workflows, WorkflowKey, workflowId)
    modifies db
    ensures db.Valid() && !HasKey(db.workflows, WorkflowKey, workflowId)
    ensures deleted && found == None && stepAfter == None && !updatedAfter && !removedAfter
  {
    deleted := db.DeleteWorkflow(workflowId);
    found := db.GetWorkflowById(workflowId);
    assert FirstIndex(db.workflows, WorkflowKey, workflowId) == None;
    stepAfter := db.AddStepToWorkflow(workflowId, StepDraft("ai-step", "Step2", "d", None));
    updatedAfter := db.UpdateWorkflowStep(workflowId, stepId, StepPatch(None, Some("Renamed"), None, None));
    removedAfter := db.DeleteWorkflowStep(workflowId, stepId);
  }

  /**
   * On the store as it is loaded: `addWorkflow` gives "4", `addStepToWorkflow`
   * gives "4-1", `deleteWorkflow("4")` succeeds, and "4" is then not found.
   */
  method CreateAndCascadeDelete()
    returns (workflowId: string, stepId: Option<string>, deleted: bool, found: Option<Workflow>)
    ensures workflowId == "4" && stepId == Some("4-1") && deleted && found == None
  {
    var db := new Store();
    workflowId, stepId := AddWorkflowWithStep(db);
    var stepAfter, updatedAfter, removedAfter;
    deleted, found, stepAfter, updatedAfter, removedAfter := DeleteAndProbe(db, workflowId, "4-1");
  }

  /** Renaming sample step "1-1" keeps its type, config and place, and touches no other step or workflow. */
  method RenameSampleStep() returns (ok: bool, renamed: Step, otherSteps: seq<Step>, otherWorkflows: seq<Workflow>)
    ensures ok
    ensures renamed == ResearchAssistant().steps[0].(name := "Renamed")
    ensures renamed.kind == "ai-step" && renamed.config == map["model" := Text("default")]
    ensures otherSteps == ResearchAssistant().steps[1..]
    ensures otherWorkflows == SampleWorkflows()[1..]
  {
    var db := new Store();
    ok := db.UpdateWorkflowStep("1", "1-1", StepPatch(None, Some("Renamed"), None, None));
    renamed := db.workflows[0].steps[0];
    otherSteps := db.workflows[0].steps[1..];
    otherWorkflows := db.workflows[1..];
  }

  /** An update naming only `name` keeps the description. */
  method UpdateKeepsOmittedFields() returns (ok: bool, w: Workflow)
    ensures ok && w.name == "C" && w.description == "B" && w.steps == []
  {
    var db := new Store();
    var id := db.AddWorkflow(WorkflowDraft("A", "B", None));
    assert id == "4" && db.workflows[3].id == "4";
    ok := db.UpdateWorkflow(id, WorkflowPatch(Some("C"), None, None));
    w := db.workflows[3];
  }

  /**
   * Step ids are positional: on a store whose first workflow "1" has the
   * steps 1-1, 1-2, 1-3, deleting "1-2" and then adding a step issues "1-3",
   * which the old third step still has.
   */
  method DeleteThenAddStep(db: Store, step: StepDraft) returns (deleted: bool, issued: Option<string>, ids: seq<string>)
    requires db.Valid() && |db.workflows| > 0 && db.workflows[0].id == "1"
    requires |db.workflows[0].steps| == 3
    requires db.workflows[0].steps[0].id == "1-1"
    requires db.workflows[0].steps[1].id == "1-2"
    requires db.workflows[0].steps[2].id == "1-3"
    modifies db
    ensures db.Valid()
    ensures deleted && issued == Some("1-3")
    ensures ids == ["1-1", "1-3", "1-3"]
    ensures |db.workflows| > 0 && db.workflows[0].id == "1" && |db.workflows[0].steps| == 3
    ensures ids == [db.workflows[0].steps[0].id, db.workflows[0].steps[1].id, db.workflows[0].steps[2].id]
    ensures db.workflows[0].steps[2] == NewStep("1-3", step)
  {
    ghost var w := db.workflows[0];
    FirstIndexHead(db.workflows, WorkflowKey);
    RemoveKeyUnique(w.steps, StepKey, "1-2", 1);
    assert HasKey(w.steps, StepKey, "1-2") by { assert StepKey(w.steps[1]) == "1-2"; }
    deleted := db.DeleteWorkflowStep("1", "1-2");
    FirstIndexHead(db.workflows, WorkflowKey);
    assert StepId("1", 3) == "1-3";
    issued := db.AddStepToWorkflow("1", step);
    var steps := db.workflows[0].steps;
    ids := [steps[0].id, steps[1].id, steps[2].id];
  }

  /**
   * Step ids can repeat, and `updateWorkflowStep` then changes only the first
   * step with the id: on a workflow "1" whose steps are 1-1, 1-3, 1-3, renaming
   * "1-3" renames the second step and leaves the third as it was.
   */
  method UpdateDuplicateStepId(db: Store) returns (ok: bool, first: Step, second: Step)
    requires db.Valid() && |db.workflows| > 0 && db.workflows[0].id == "1"
    requires |db.workflows[0].steps| == 3
    requires db.workflows[0].steps[0].id == "1-1"
    requires db.workflows[0].steps[1].id == "1-3"
    requires db.workflows[0].steps[2].id == "1-3"
    modifies db
    ensures db.Valid()
    ensures ok && first == old(db.workflows[0].steps[1]).(name := "Renamed")
    ensures second == old(db.workflows[0].steps[2])
  {
    ghost var steps := db.workflows[0].steps;
    FirstIndexHead(db.workflows, WorkflowKey);
    assert StepKey(steps[0]) != "1-3";
    assert FirstIndex(steps, StepKey, "1-3") == Some(1);
    ok := db.UpdateWorkflowStep("1", "1-3", StepPatch(None, Some("Renamed"), None, None));
    first := db.workflows[0].steps[1];
    second := db.workflows[0].steps[2];
  }

  /**
   * The collision on the store as it is loaded, with sample workflow "1";
   * renaming "1-3" afterwards reaches only the first step with that id.
   */
  method PositionalStepIdCollision()
    returns (deleted: bool, issued: Option<string>, ids: seq<string>, renamed: bool, first: Step, second: Step)
    ensures deleted && issued == Some("1-3")
    ensures ids == ["1-1", "1-3", "1-3"]
    ensures renamed && first.name == "Renamed" && first.id == "1-3" && second.name == "Summarise"
  {
    var db := new Store();
    var step := StepDraft("ai-step", "Summarise", "Summarise the findings", None);
    deleted, issued, ids := DeleteThenAddStep(db, step);
    renamed, first, second := UpdateDuplicateStepId(db);
  }

  /**
   * Step lists passed to `addWorkflow` are stored as given, with whatever ids
   * they carry: a workflow created with the steps "1-1" and "4-3" holds an id
   * that sample workflow "1" also has, and its next added step is issued
   * "4-3", which it already holds.
   */
  method AddWorkflowWithSuppliedSteps(db: Store, step: StepDraft)
    returns (workflowId: string, issued: Option<string>, ids: seq<string>)
    requires db.Valid() && db.nextId == 4
    modifies db
    ensures db.Valid()
    ensures workflowId == "4" && issued == Some("4-3")
    ensures ids == ["1-1", "4-3", "4-3"]
    ensures |db.workflows| > |old(db.workflows)| && db.workflows[..|old(db.workflows)|] == old(db.workflows)
  {
    var before := db.workflows;
    var supplied := [Step("1-1", "ai-step", "Imported", "", map[]), Step("4-3", "formatting", "Imported", "", map[])];
    var draft := WorkflowDraft("Imported", "", Some(supplied));
    workflowId := db.AddWorkflow(draft);
    assert workflowId == NatToString(4) == "4";
    FirstIndexAppendFresh(before, NewWorkflow("4", draft), WorkflowKey, "4");
    assert StepId("4", 3) == "4-3";
    issued := db.AddStepToWorkflow("4", step);
    var steps := db.workflows[|before|].steps;
    ids := [steps[0].id, steps[1].id, steps[2].id];
  }

  /** The supplied-step collisions on the store as it is loaded. */
  method SuppliedStepIdCollisions() returns (workflowId: string, issued: Option<string>, ids: seq<string>, sampleStepId: string)
    ensures workflowId == "4" && issued == Some("4-3")
    ensures ids == ["1-1", "4-3", "4-3"]
    ensures sampleStepId == "1-1"
  {
    var db := new Store();
    workflowId, issued, ids := AddWorkflowWithSuppliedSteps(db, StepDraft("ai-step", "Summarise", "Summarise the findings", None));
    assert db.workflows[0] == SampleWorkflows()[0];
    sampleStepId := db.workflows[0].steps[0].id;
  }
}
