# Agent database: a verified model of the workflow/step store

The app keeps its "agents" in an in-memory database (`app/agentDatabase.ts`).
That database is a list of **workflows** plus a numeric counter. Each workflow
has an id, a name, a description and an ordered list of **steps**. Each step
has an id, a type tag, a name, a description and an open `config` record. There
are eight operations:

- two reads: `getWorkflows` and `getWorkflowById`;
- three workflow writes: `addWorkflow`, `updateWorkflow` and `deleteWorkflow`;
- three step writes: `addStepToWorkflow`, `updateWorkflowStep` and `deleteWorkflowStep`.

This project models that database in Dafny and proves what each operation does.

## Layout

- `wrappers.dfy` (`Wrappers`): `Option`, which stands for the source's `null` and for fields an argument leaves out.
- `decimal.dfy` (`Decimal`): `NatToString`, which is `String(n)` for the counter's values, and its inverse `DecimalValue`.
- `keyed.dfy` (`Keyed`): the two array operations the store is built from, as functions on sequences.
  - `FirstIndex` is `find`/`findIndex`: the first element with a given id.
  - `RemoveKey` is `filter(x => x.id !== id)`.
  - Both are generic over a key function.
  - `FirstIndexHead` and `FirstIndexAppendFresh` say which element a lookup finds at the front of a list and right after an append.
- `workflows.dfy` (`Workflows`): the records and the record-level operations.
  - The records: `Workflow`, `Step`, and the draft and partial-update types.
  - The record-level operations: building a new record, and the shallow merge `{ ...old, ...updates }`.
  - The two id schemes.
  - The sample data.
  - The invariant `WellNumbered`, with the lemmas that every operation preserves it.
- `agent_database.dfy` (`AgentDatabase`): class `Store`.
  - Its fields are `workflows: seq<Workflow>` and `nextId: nat`. They are the source's module-level `let workflows` and `let nextId`.
  - It has one method per operation. Each method states the complete new state and the result.
- `scenarios.dfy` (`Scenarios`): client methods that run usage scenarios on a store and prove what every call returns.

## How the model reads the source

- **Store invariant.** `Store.Valid()` is `WellNumbered(workflows, nextId)`:
  - every workflow id is a canonical decimal numeral (no leading zero) whose value is below `nextId`, so it is the counter's rendering of a value already issued (`WellNumberedIdsIssued`);
  - the numbers increase along the list.

  The seeds `"1"`, `"2"`, `"3"` with the counter at 4 satisfy it. Every method keeps it. So workflow ids are pairwise distinct after any sequence of operations (`WellNumberedDistinct`). The ids stay distinct because:
  - `addWorkflow` uses the counter, which only grows;
  - the update types exclude `id`.
- **First match.** `find`/`findIndex` return the first match, so every lookup and every update acts on `FirstIndex(...)`; the two deletes filter out every match.
  - For workflows, the invariant makes the first match the only one.
  - Step ids can repeat (see below). `updateWorkflowStep` then changes only the first step with the id, and `deleteWorkflowStep` removes them all (`Scenarios.UpdateDuplicateStepId`).
- **Step ids are positional.** A new step's id is `${workflowId}-${steps.length + 1}`.
  - Two ids issued this way for different workflows (decimal workflow ids) never coincide (`StepIdInjective`).
  - In a workflow whose steps all carry the ids of their positions, ids stay unique as long as steps are only appended (`AddStepKeepsPositional`).
  - Nothing else about step ids is enforced. `addWorkflow` and `updateWorkflow` store a caller's step list as given, whatever ids it carries. A workflow created with the steps `"1-1"` and `"4-3"` shares an id with sample workflow `"1"`. The next step added to it is issued `"4-3"`, which it already holds (`Scenarios.SuppliedStepIdCollisions`).
- **The collision.** In a workflow whose steps carry their positional ids, deleting any step but the last and then adding one issues an id that a remaining step already has (`DeleteThenAddCollides`). On sample workflow `"1"`, deleting `"1-2"` and then adding a step returns `"1-3"` a second time (`SeedStepIdCollision`, `Scenarios.PositionalStepIdCollision`). The model keeps this behaviour as written and does not renumber.
- **Method preconditions.** The methods require `Valid()`, the object invariant that the constructor establishes and every method preserves. No other precondition is placed on callers.
  - Missing workflows and missing steps are ordinary outcomes: `None`/`false` with the state unchanged.
  - Empty names are accepted.
- **Behaviour of the source worth noting:**
  - The first workflow id is fixed: the counter starts at 4. It is not configurable.
  - Reads do not copy deeply. `getWorkflows` copies only the array, and `getWorkflowById` returns the stored object itself. The model works on values, so a snapshot cannot alias the store (see Left out).
  - When the workflow exists but has no step with the id, `deleteWorkflowStep` still reassigns `steps` to a filtered copy. That copy has the same contents, so the model states the store unchanged. The call returns false.
- The step field `type` is called `kind` here, because `type` is a Dafny keyword.

## Model

| member | source | states |
|---|---|---|
| `AgentDatabase.Store.constructor` | app/agentDatabase.ts:119-120 | the store starts with the three sample workflows in order and the counter at 4, and satisfies the invariant |
| `AgentDatabase.Store.Valid` | app/agentDatabase.ts:119-120 | the store invariant: workflow ids are canonical decimal numerals with values below the counter, increasing along the list; it implies that no two workflows share an id |
| `AgentDatabase.Store.GetWorkflows` | app/agentDatabase.ts:129-131 | returns the current workflow list, in insertion order |
| `AgentDatabase.Store.GetWorkflowById` | app/agentDatabase.ts:134-137 | returns None iff no workflow has the id; otherwise returns a stored workflow with that id, and it is the only one |
| `AgentDatabase.Store.AddWorkflow` | app/agentDatabase.ts:140-151 | returns the old counter in decimal; that id was unused; the counter grows by exactly one; the new workflow (steps default to empty) is appended and all earlier workflows keep their order; the invariant holds afterwards |
| `AgentDatabase.Store.UpdateWorkflow` | app/agentDatabase.ts:154-160 | returns true iff a workflow has the id; when none does, nothing changes; otherwise only the first match is replaced by its shallow merge with the update |
| `AgentDatabase.Store.DeleteWorkflow` | app/agentDatabase.ts:163-167 | returns true iff a workflow had the id; afterwards none has it; the list is the filter of the old one, which is exactly the old list without that one workflow, with the order kept; the workflow's steps go with it |
| `AgentDatabase.Store.AddStepToWorkflow` | app/agentDatabase.ts:170-185 | returns None, changing nothing, iff the workflow is missing; otherwise returns `workflowId-(n+1)` for a workflow of n steps, appends that step (config defaulting to empty) to that workflow only (in this value model; see Left out on shared step arrays), and leaves every other workflow and the counter as they were |
| `AgentDatabase.Store.UpdateWorkflowStep` | app/agentDatabase.ts:188-201 | returns false, changing nothing, if the workflow or the step is missing; otherwise shallow-merges the update into the first step with that id, at its position, and changes nothing else |
| `AgentDatabase.Store.DeleteWorkflowStep` | app/agentDatabase.ts:204-211 | returns false, changing nothing, if the workflow is missing; otherwise filters every step with the id out of that workflow, and returns true iff one was there (the step count fell); other workflows are untouched |
| `Keyed.FirstIndex` | app/agentDatabase.ts:155 | finds no index iff no element has the key; otherwise finds an element with the key with none before it |
| `Keyed.RemoveKey` | app/agentDatabase.ts:165 | the filter leaves no element with the key, is never longer, and is strictly shorter iff some element had the key |
| `Keyed.FirstIndexHead` | app/agentDatabase.ts:135 | the front element is the one `find` returns for its own id |
| `Keyed.FirstIndexAppendFresh` | app/agentDatabase.ts:171 | an element appended with an id no earlier element has is the one `find` then returns, e.g. the workflow `addWorkflow` pushes at line 149 |
| `Keyed.RemoveKeyAppend` | app/agentDatabase.ts:209 | the filter distributes over concatenation, so the surviving elements keep their relative order |
| `Keyed.RemoveKeyAbsent` | app/agentDatabase.ts:209 | a filter that matches nothing returns the sequence unchanged |
| `Keyed.RemoveKeyUnique` | app/agentDatabase.ts:165 | when only the element at k has the key, the filter is the sequence with position k cut out |
| `Decimal.NatToString` | app/agentDatabase.ts:141 | the rendering of a number is a non-empty string of digits, one digit long exactly for numbers below 10, with no leading zero (only 0 renders starting with '0') |
| `Decimal.DecimalValue` | app/agentDatabase.ts:141 | reads a numeral as the number it denotes, the inverse used to compare counter-issued ids; a numeral with a nonzero leading digit denotes a positive number, at least 10 when it has two or more digits |
| `Decimal.NatToStringOfDecimalValue` | app/agentDatabase.ts:141 | every canonical numeral is the rendering of its own value, so the renderings are exactly the numerals without leading zeros |
| `Decimal.DecimalValueOfNatToString` | app/agentDatabase.ts:141 | reading back the rendering of n gives n |
| `Decimal.NatToStringInjective` | app/agentDatabase.ts:141 | distinct counter values give distinct ids |
| `Workflows.NewWorkflow` | app/agentDatabase.ts:142-147 | the record `addWorkflow` pushes carries the issued id and the draft's name and description; its steps are the supplied list, or empty when none is supplied |
| `Workflows.NewStep` | app/agentDatabase.ts:175-181 | the record `addStepToWorkflow` pushes carries the issued id and the draft's type, name and description; its config is the supplied one, or empty when none is supplied |
| `Workflows.StepId` | app/agentDatabase.ts:174 | a step id is the workflow id, then '-', then the canonical numeral of the position |
| `Workflows.MergeWorkflow` | app/agentDatabase.ts:158 | each supplied field (including a whole step list) overwrites, each omitted field is kept, and the id is unchanged |
| `Workflows.MergeStep` | app/agentDatabase.ts:199 | each supplied step field (config wholesale) overwrites, each omitted one is kept, and the id is unchanged |
| `Workflows.MergeWorkflowEmpty` | app/agentDatabase.ts:158 | an update with no fields leaves the workflow as it was |
| `Workflows.MergeWorkflowIdempotent` | app/agentDatabase.ts:158 | applying the same update twice equals applying it once |
| `Workflows.MergeStepEmpty` | app/agentDatabase.ts:199 | an update with no fields leaves the step as it was |
| `Workflows.MergeStepIdempotent` | app/agentDatabase.ts:199 | applying the same step update twice equals applying it once |
| `Workflows.WellNumberedIdsIssued` | app/agentDatabase.ts:141 | under the invariant, every workflow id is the rendering `String(v)` of some counter value v below the counter |
| `Workflows.WellNumberedDistinct` | app/agentDatabase.ts:119-120 | under the invariant, workflow ids are pairwise distinct |
| `Workflows.CounterIdIsFresh` | app/agentDatabase.ts:141 | under the invariant, no workflow already has the id the counter issues next |
| `Workflows.WellNumberedAppend` | app/agentDatabase.ts:141-149 | appending a workflow with the counter's id and bumping the counter keeps the invariant |
| `Workflows.WellNumberedReplace` | app/agentDatabase.ts:158 | replacing a workflow by one with the same id keeps the invariant |
| `Workflows.WellNumberedRemoveAt` | app/agentDatabase.ts:165 | cutting one workflow out keeps the invariant |
| `Workflows.RemoveWorkflow` | app/agentDatabase.ts:163-167 | under the invariant, the delete filter keeps the invariant, leaves no workflow with the id, and is either the identity (id absent) or removes exactly the one match |
| `Workflows.StepIdDash` | app/agentDatabase.ts:174 | in a step id, the first '-' stands right after the workflow id |
| `Workflows.StepIdInjective` | app/agentDatabase.ts:174 | for decimal workflow ids, two positional step ids are equal only for the same workflow id and the same position, so ids that `addStepToWorkflow` issues in different workflows never coincide (caller-supplied step lists are not covered) |
| `Workflows.StepIdPositionInjective` | app/agentDatabase.ts:174 | within one workflow, distinct positions give distinct step ids |
| `Workflows.AddStepKeepsPositional` | app/agentDatabase.ts:170-185 | while steps are only appended, the id issued next is unused and every step keeps the id of its position |
| `Workflows.DeleteThenAddCollides` | app/agentDatabase.ts:174 | after deleting any step but the last from a positional workflow, the id issued next equals the id of the last step, which is still present |
| `Workflows.SampleWorkflows` | app/agentDatabase.ts:38-116 | the database is loaded with three sample workflows, with ids "1", "2", "3" in that order |
| `Workflows.ResearchAssistant` | app/agentDatabase.ts:39-66 | sample "1" has three steps: an AI step, a web search and a formatting step |
| `Workflows.ContentGenerator` | app/agentDatabase.ts:67-87 | sample "2" has two steps: an input field and an AI step |
| `Workflows.DataAnalyzer` | app/agentDatabase.ts:88-115 | sample "3" has three steps: an upload, a data analysis and a formatting step |
| `Workflows.SampleWorkflowsWellNumbered` | app/agentDatabase.ts:38-120 | the sample ids 1, 2, 3 and the counter at 4 satisfy the invariant |
| `Workflows.ResearchAssistantPositional` | app/agentDatabase.ts:39-66 | the steps of sample "1" carry the ids of their positions |
| `Workflows.ContentGeneratorPositional` | app/agentDatabase.ts:67-87 | the steps of sample "2" carry the ids of their positions |
| `Workflows.DataAnalyzerPositional` | app/agentDatabase.ts:88-115 | the steps of sample "3" carry the ids of their positions |
| `Workflows.SeedStepIdCollision` | app/agentDatabase.ts:174 | on sample "1", deleting "1-2" leaves "1-3" in second place, and the id issued next is "1-3" again |
| `Scenarios.AddWorkflowWithStep` | app/agentDatabase.ts:140-185 | with the counter at 4, a new workflow gets "4" and its first step "4-1" |
| `Scenarios.DeleteAndProbe` | app/agentDatabase.ts:163-211 | after deleting a present workflow, it is not found, and adding, updating or deleting any of its steps fails |
| `Scenarios.CreateAndCascadeDelete` | app/agentDatabase.ts:119-185 | on the loaded store, addWorkflow gives "4", addStepToWorkflow gives "4-1", deleteWorkflow("4") succeeds and "4" is then not found |
| `Scenarios.RenameSampleStep` | app/agentDatabase.ts:188-201 | renaming "1-1" succeeds, keeps its type ("ai-step") and config, and leaves the other steps and workflows as loaded |
| `Scenarios.UpdateKeepsOmittedFields` | app/agentDatabase.ts:154-160 | updating only the name of {name A, description B} gives {name C, description B} |
| `Scenarios.DeleteThenAddStep` | app/agentDatabase.ts:204-211 | on a workflow "1" with steps 1-1, 1-2, 1-3, deleting "1-2" succeeds, the next add returns "1-3" and appends the new step third, and the ids are then 1-1, 1-3, 1-3 |
| `Scenarios.UpdateDuplicateStepId` | app/agentDatabase.ts:188-201 | on a workflow "1" with steps 1-1, 1-3, 1-3, renaming "1-3" succeeds, renames the second step and leaves the third as it was |
| `Scenarios.PositionalStepIdCollision` | app/agentDatabase.ts:170-211 | the same collision on the store as it is loaded; renaming "1-3" afterwards reaches the second step only, and the step just added keeps its name |
| `Scenarios.AddWorkflowWithSuppliedSteps` | app/agentDatabase.ts:140-185 | with the counter at 4, a workflow created with the supplied steps "1-1" and "4-3" gets id "4", its next added step is issued "4-3" again, and its step ids are then 1-1, 4-3, 4-3; the earlier workflows are kept |
| `Scenarios.SuppliedStepIdCollisions` | app/agentDatabase.ts:140-185 | the same on the store as it is loaded, where sample step "1-1" then shares its id with a step of workflow "4" |

## Left out

- The asynchronous wrapping (`async`, `Promise.resolve`) is left out. Every operation completes before it returns, so each is a synchronous method.
- `initAgentDatabase` is left out. It only writes a log line and does nothing else.
- The `workflowTypes` catalogue is left out. It is constant display data that no operation uses.
- Aliasing of JavaScript objects is not modelled. The model works on values, so it does not capture:
  - that the array copied at line 119 shares its workflow objects and `steps` arrays with `sampleWorkflows`;
  - that `getWorkflowById` returns the stored object itself;
  - that `getWorkflows` copies only the array, so a caller who mutates a returned workflow also changes the store;
  - that one `steps` array can end up in two stored workflows: a list passed to `addWorkflow` (line 146) or `updateWorkflow` (line 158), or taken from `getWorkflowById`, is stored without a copy. A later `steps.push` at line 183 then appears in both workflows, while the model appends to one.
- Config values are modelled as a small datatype of text, numbers, booleans and lists. The store never inspects them. Numbers are Dafny reals, not JavaScript floating point.
- Partial updates are modelled by their declared type: each field is either supplied or omitted. The model does not capture:
  - a field supplied with the value `undefined`, which the spread would copy;
  - extra keys such as `id` that the TypeScript types exclude but the runtime would accept.
- AgentDatabase.Store.AddWorkflow: the counter is an unbounded natural. JavaScript numbers lose precision above 2^53. That bound is not modelled, since no realistic use reaches it.
- The app screens, the realtime backend client, `./database` and the type-only files lie outside the database and are not part of this model.
