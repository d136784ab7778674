/**
 * The records of the agent database (workflows and their ordered steps),
 * the record-level operations the store applies, the id schemes, and the
 * sample data the database starts with.
 */
module Workflows {
  import opened Wrappers
  import opened Decimal
  import opened Keyed

  /** A step's `config` values; the store never looks inside them. */
  datatype Value = Text(text: string) | Number(number: real) | Flag(flag: bool) | List(items: seq<Value>)

  type Config = map<string, Value>

  /** `WorkflowStep`; `kind` is the source's `type` field. */
  datatype Step = Step(id: string, kind: string, name: string, description: string, config: Config)

  datatype Workflow = Workflow(id: string, name: string, description: string, steps: seq<Step>)

  /** `Omit<Workflow, 'id'>`, the argument of `addWorkflow`; `steps` may be absent. */
  datatype WorkflowDraft = WorkflowDraft(name: string, description: string, steps: Option<seq<Step>>)

  /** `Omit<WorkflowStep, 'id'>`, the argument of `addStepToWorkflow`; `config` may be absent. */
  datatype StepDraft = StepDraft(kind: string, name: string, description: string, config: Option<Config>)

  /** `Partial<Omit<Workflow, 'id'>>`: None is a field left out of the update. */
  datatype WorkflowPatch = WorkflowPatch(name: Option<string>, description: Option<string>, steps: Option<seq<Step>>)

  /** `Partial<Omit<WorkflowStep, 'id'>>`. */
  datatype StepPatch = StepPatch(kind: Option<string>, name: Option<string>, description: Option<string>, config: Option<Config>)

  function WorkflowKey(w: Workflow): (k: string) { w.id }

  function StepKey(s: Step): (k: string) { s.id }

  /** The positional step id `${workflowId}-${position}`: the workflow id, a dash, the position's numeral. */
  function StepId(workflowId: string, position: nat): (r: string)
    ensures |r| > |workflowId| + 1 && r[|workflowId|] == '-'
    ensures r[..|workflowId|] == workflowId && r[|workflowId| + 1..] == NatToString(position)
  {
    workflowId + "-" + NatToString(position)
  }

  /** The record `addWorkflow` pushes: `steps` defaults to the empty list. */
  function NewWorkflow(id: string, draft: WorkflowDraft): (r: Workflow)
    ensures r.id == id && r.name == draft.name && r.description == draft.description
    ensures draft.steps.None? ==> r.steps == []
    ensures draft.steps.Some? ==> r.steps == draft.steps.value
  {
    Workflow(id, draft.name, draft.description, draft.steps.GetOr([]))
  }

  /** The record `addStepToWorkflow` pushes: `config` defaults to the empty map. */
  function NewStep(id: string, draft: StepDraft): (r: Step)
    ensures r.id == id && r.kind == draft.kind && r.name == draft.name && r.description == draft.description
    ensures draft.config.None? ==> r.config == map[]
    ensures draft.config.Some? ==> r.config == draft.config.value
  {
    Step(id, draft.kind, draft.name, draft.description, draft.config.GetOr(map[]))
  }

  /** `{ ...w, ...patch }`: supplied fields overwrite, omitted ones are kept, the id never changes. */
  function MergeWorkflow(w: Workflow, patch: WorkflowPatch): (r: Workflow)
    ensures r.id == w.id
    ensures r.name == if patch.name.Some? then patch.name.value else w.name
    ensures r.description == if patch.description.Some? then patch.description.value else w.description
    ensures r.steps == if patch.steps.Some? then patch.steps.value else w.steps
  {
    Workflow(w.id, patch.name.GetOr(w.name), patch.description.GetOr(w.description), patch.steps.GetOr(w.steps))
  }

  /** `{ ...s, ...patch }` on a step; `config` is replaced whole, never merged key by key. */
  function MergeStep(s: Step, patch: StepPatch): (r: Step)
    ensures r.id == s.id
    ensures r.kind == if patch.kind.Some? then patch.kind.value else s.kind
    ensures r.name == if patch.name.Some? then patch.name.value else s.name
    ensures r.description == if patch.description.Some? then patch.description.value else s.description
    ensures r.config == if patch.config.Some? then patch.config.value else s.config
  {
    Step(s.id, patch.kind.GetOr(s.kind), patch.name.GetOr(s.name), patch.description.GetOr(s.description),
         patch.config.GetOr(s.config))
  }

  /** An update with no fields leaves a workflow as it was. */
  lemma MergeWorkflowEmpty(w: Workflow)
    ensures MergeWorkflow(w, WorkflowPatch(None, None, None)) == w
  {
  }

  /** Applying the same update twice is the same as applying it once. */
  lemma MergeWorkflowIdempotent(w: Workflow, patch: WorkflowPatch)
    ensures MergeWorkflow(MergeWorkflow(w, patch), patch) == MergeWorkflow(w, patch)
  {
  }

  /** An update with no fields leaves a step as it was. */
  lemma MergeStepEmpty(s: Step)
    ensures MergeStep(s, StepPatch(None, None, None, None)) == s
  {
  }

  /** Applying the same step update twice is the same as applying it once. */
  lemma MergeStepIdempotent(s: Step, patch: StepPatch)
    ensures MergeStep(MergeStep(s, patch), patch) == MergeStep(s, patch)
  {
  }

  // ---------------------------------------------------------------------
  // Workflow ids: issued by a counter, so the store stays well numbered.
  // ---------------------------------------------------------------------

  /**
   * The store's invariant: every workflow id is a canonical decimal numeral
   * below the counter, and the numbers increase along the list (the order of issue).
   */
  predicate WellNumbered(ws: seq<Workflow>, nextId: nat) {
    && (forall i :: 0 <= i < |ws| ==> IsCanonical(ws[i].id) && DecimalValue(ws[i].id) < nextId)
    && (forall i, j :: 0 <= i < j < |ws| ==> DecimalValue(ws[i].id) < DecimalValue(ws[j].id))
  }

  /** `id` is what the counter renders for some value below `nextId`. */
  ghost predicate IssuedBelow(id: string, nextId: nat) {
    exists v: nat :: v < nextId && id == NatToString(v)
  }

  /** In a well-numbered list every workflow id is the rendering of a counter value not yet reached. */
  lemma {:induction false} WellNumberedIdsIssued(ws: seq<Workflow>, nextId: nat)
    requires WellNumbered(ws, nextId)
    ensures forall i :: 0 <= i < |ws| ==> IssuedBelow(ws[i].id, nextId)
  {
    forall i | 0 <= i < |ws|
      ensures IssuedBelow(ws[i].id, nextId)
    {
      NatToStringOfDecimalValue(ws[i].id);
      assert ws[i].id == NatToString(DecimalValue(ws[i].id));
    }
  }

  /** In a well-numbered list the workflow ids are pairwise distinct. */
  lemma WellNumberedDistinct(ws: seq<Workflow>, nextId: nat)
    requires WellNumbered(ws, nextId)
    ensures forall i, j :: 0 <= i < |ws| && 0 <= j < |ws| && i != j ==> ws[i].id != ws[j].id
  {
  }

  /** The id the counter issues next is held by no workflow of a well-numbered list. */
  lemma CounterIdIsFresh(ws: seq<Workflow>, nextId: nat)
    requires WellNumbered(ws, nextId)
    ensures !HasKey(ws, WorkflowKey, NatToString(nextId))
  {
    DecimalValueOfNatToString(nextId);
  }

  /** Appending a workflow that carries the counter's id, and bumping the counter, keeps the invariant. */
  lemma WellNumberedAppend(ws: seq<Workflow>, nextId: nat, w: Workflow)
    requires WellNumbered(ws, nextId)
    requires w.id == NatToString(nextId)
    ensures WellNumbered(ws + [w], nextId + 1)
  {
    DecimalValueOfNatToString(nextId);
  }

  /** Replacing a workflow by one with the same id keeps the invariant. */
  lemma WellNumberedReplace(ws: seq<Workflow>, nextId: nat, k: nat, w: Workflow)
    requires WellNumbered(ws, nextId)
    requires k < |ws| && w.id == ws[k].id
    ensures WellNumbered(ws[k := w], nextId)
  {
  }

  /** Removing the element at `k` keeps the invariant. */
  lemma WellNumberedRemoveAt(ws: seq<Workflow>, nextId: nat, k: nat)
    requires WellNumbered(ws, nextId)
    requires k < |ws|
    ensures WellNumbered(ws[..k] + ws[k + 1..], nextId)
  {
    var r := ws[..k] + ws[k + 1..];
    forall i | 0 <= i < |r|
      ensures r[i] == ws[if i < k then i else i + 1]
    {
    }
  }

  /**
   * `workflows.filter(w => w.id !== id)` on a well-numbered list removes the
   * one workflow with that id, if there is one, and keeps the rest in order.
   */
  lemma RemoveWorkflow(ws: seq<Workflow>, nextId: nat, id: string)
    requires WellNumbered(ws, nextId)
    ensures var r := RemoveKey(ws, WorkflowKey, id);
            && WellNumbered(r, nextId)
            && !HasKey(r, WorkflowKey, id)
            && match FirstIndex(ws, WorkflowKey, id)
               case None => r == ws
               case Some(k) => r == ws[..k] + ws[k + 1..]
  {
    var r := RemoveKey(ws, WorkflowKey, id);
    match FirstIndex(ws, WorkflowKey, id)
    case None =>
      RemoveKeyAbsent(ws, WorkflowKey, id);
    case Some(k) =>
      WellNumberedDistinct(ws, nextId);
      RemoveKeyUnique(ws, WorkflowKey, id, k);
      WellNumberedRemoveAt(ws, nextId, k);
  }

  // ---------------------------------------------------------------------
  // Step ids: positional, `${workflowId}-${steps.length + 1}`.
  // ---------------------------------------------------------------------

  /** In a step id whose workflow id is decimal, the first '-' stands right after the workflow id. */
  lemma StepIdDash(p: string, a: nat)
    requires IsDecimal(p)
    ensures StepId(p, a)[|p|] == '-'
    ensures forall i :: 0 <= i < |p| ==> StepId(p, a)[i] != '-'
  {
    var s := StepId(p, a);
    forall i | 0 <= i < |p| ensures s[i] != '-' {
      assert s[i] == p[i] && IsDigit(p[i]);
    }
  }

  /**
   * Positional ids issued for two decimal workflow ids are equal only for the
   * same workflow and position. Step lists supplied by callers may carry any ids.
   */
  lemma StepIdInjective(p: string, a: nat, q: string, b: nat)
    requires IsDecimal(p) && IsDecimal(q)
    ensures StepId(p, a) == StepId(q, b) ==> p == q && a == b
  {
    var s, t := StepId(p, a), StepId(q, b);
    if s == t {
      StepIdDash(p, a);
      StepIdDash(q, b);
      assert |p| == |q|;
      assert p == s[..|p|] && q == t[..|q|];
      assert NatToString(a) == s[|p| + 1..] && NatToString(b) == t[|q| + 1..];
      NatToStringInjective(a, b);
    }
  }

  /** Within one workflow, distinct positions give distinct step ids. */
  lemma StepIdPositionInjective(p: string, a: nat, b: nat)
    ensures StepId(p, a) == StepId(p, b) ==> a == b
  {
    var s, t := StepId(p, a), StepId(p, b);
    if s == t {
      assert NatToString(a) == s[|p| + 1..] && NatToString(b) == t[|p| + 1..];
      NatToStringInjective(a, b);
    }
  }

  /** Every step carries the id of its position: what a workflow built by appends alone looks like. */
  predicate PositionalIds(w: Workflow) {
    forall i :: 0 <= i < |w.steps| ==> w.steps[i].id == StepId(w.id, i + 1)
  }

  /** As long as steps are only appended, the id issued next is unused, and ids stay positional. */
  lemma AddStepKeepsPositional(w: Workflow, draft: StepDraft)
    requires PositionalIds(w)
    ensures var id := StepId(w.id, |w.steps| + 1);
            && !HasKey(w.steps, StepKey, id)
            && PositionalIds(w.(steps := w.steps + [NewStep(id, draft)]))
  {
    var id := StepId(w.id, |w.steps| + 1);
    if HasKey(w.steps, StepKey, id) {
      var i :| 0 <= i < |w.steps| && StepKey(w.steps[i]) == id;
      StepIdPositionInjective(w.id, i + 1, |w.steps| + 1);
      assert false;
    }
  }

  /**
   * Deleting any step but the last from a workflow with positional ids, then
   * adding a step, issues the id the last step already has.
   */
  lemma DeleteThenAddCollides(w: Workflow, k: nat)
    requires PositionalIds(w)
    requires k + 1 < |w.steps|
    ensures var remaining := RemoveKey(w.steps, StepKey, w.steps[k].id);
            var issued := StepId(w.id, |remaining| + 1);
            && |remaining| == |w.steps| - 1
            && issued == w.steps[|w.steps| - 1].id
            && HasKey(remaining, StepKey, issued)
  {
    var n := |w.steps|;
    var id := w.steps[k].id;
    forall j | 0 <= j < n && j != k
      ensures StepKey(w.steps[j]) != id
    {
      StepIdPositionInjective(w.id, j + 1, k + 1);
    }
    RemoveKeyUnique(w.steps, StepKey, id, k);
    var remaining := w.steps[..k] + w.steps[k + 1..];
    assert remaining[n - 2] == w.steps[n - 1];
    assert StepKey(remaining[n - 2]) == StepId(w.id, n);
  }

  // ---------------------------------------------------------------------
  // The sample data the database starts with.
  // ---------------------------------------------------------------------

  /** The sample workflows the database is loaded with, in this order. */
  function SampleWorkflows(): (ws: seq<Workflow>)
    ensures |ws| == 3 && ws[0].id == "1" && ws[1].id == "2" && ws[2].id == "3"
  {
    [ResearchAssistant(), ContentGenerator(), DataAnalyzer()]
  }

  /** Sample workflow "1": query, web search, formatting. */
  function ResearchAssistant(): (w: Workflow)
    ensures w.id == "1" && |w.steps| == 3
    ensures w.steps[0].kind == "ai-step" && w.steps[1].kind == "web-search" && w.steps[2].kind == "formatting"
  {
    Workflow("1", "Research Assistant", "Helps with in-depth research on various topics", [
      Step("1-1", "ai-step", "Research Query", "Process the research query",
           map["model" := Text("default")]),
      Step("1-2", "web-search", "Web Search", "Search the web for information",
           map["sources" := List([Text("academic"), Text("news")])]),
      Step("1-3", "formatting", "Format Results", "Format the research results",
           map["format" := Text("detailed")])
    ])
  }

  /** Sample workflow "2": content brief, then generation. */
  function ContentGenerator(): (w: Workflow)
    ensures w.id == "2" && |w.steps| == 2
    ensures w.steps[0].kind == "input-field" && w.steps[1].kind == "ai-step"
  {
    Workflow("2", "Content Generator", "Generates various types of content", [
      Step("2-1", "input-field", "Content Brief", "Get content requirements",
           map["required" := Flag(true)]),
      Step("2-2", "ai-step", "Generate Content", "Create content based on brief",
           map["creativity" := Number(0.7)])
    ])
  }

  /** Sample workflow "3": upload, analysis, formatting. */
  function DataAnalyzer(): (w: Workflow)
    ensures w.id == "3" && |w.steps| == 3
    ensures w.steps[0].kind == "upload-resource" && w.steps[1].kind == "data-executive" && w.steps[2].kind == "formatting"
  {
    Workflow("3", "Data Analyzer", "Analyzes data and provides insights", [
      Step("3-1", "upload-resource", "Upload Data", "Upload data for analysis",
           map["fileTypes" := List([Text("csv"), Text("json"), Text("xlsx")])]),
      Step("3-2", "data-executive", "Analyze Data", "Process and analyze the data",
           map["depth" := Text("comprehensive")]),
      Step("3-3", "formatting", "Format Insights", "Format the analysis results",
           map["format" := Text("visual")])
    ])
  }

  /** The samples are numbered 1, 2, 3, so a counter starting at 4 never reissues their ids. */
  lemma SampleWorkflowsWellNumbered()
    ensures WellNumbered(SampleWorkflows(), 4)
  {
    var ws := SampleWorkflows();
    assert ws[0].id == NatToString(1) && ws[1].id == NatToString(2) && ws[2].id == NatToString(3);
    DecimalValueOfNatToString(1);
    DecimalValueOfNatToString(2);
    DecimalValueOfNatToString(3);
  }

  /** Each sample step carries the id of its position. */
  lemma ResearchAssistantPositional()
    ensures PositionalIds(ResearchAssistant())
  {
    assert StepId("1", 1) == "1-1" && StepId("1", 2) == "1-2" && StepId("1", 3) == "1-3";
  }

  lemma ContentGeneratorPositional()
    ensures PositionalIds(ContentGenerator())
  {
    assert StepId("2", 1) == "2-1" && StepId("2", 2) == "2-2";
  }

  lemma DataAnalyzerPositional()
    ensures PositionalIds(DataAnalyzer())
  {
    assert StepId("3", 1) == "3-1" && StepId("3", 2) == "3-2" && StepId("3", 3) == "3-3";
  }

  /**
   * On sample workflow "1" (steps 1-1, 1-2, 1-3), deleting "1-2" and adding a
   * step issues "1-3", an id a remaining step already has.
   */
  lemma SeedStepIdCollision()
    ensures var w := ResearchAssistant();
            var remaining := RemoveKey(w.steps, StepKey, "1-2");
            && w.id == "1"
            && StepId(w.id, |remaining| + 1) == "1-3"
            && remaining[1].id == "1-3"
  {
    ResearchAssistantPositional();
    var w := ResearchAssistant();
    DeleteThenAddCollides(w, 1);
    RemoveKeyUnique(w.steps, StepKey, "1-2", 1);
  }
}
