# MedAgenticSage core, modelled in Dafny

MedAgenticSage runs a clinical case through a small state machine built
with LangGraph. The case record is a dict of fields such as `symptoms`,
`question`, `ehr_text`, `medications` and `patient_profile`. Each state is
a step that:

- formats a prompt from the record;
- sends it to a language model;
- writes the answer into one field of the record;
- appends the answer to a process-wide case memory (lists of documents and
  metadata beside a FAISS index).

The edges depend on whether `question` and `ehr_text` are set. The record
is serialised for storage at the end.

This project models that core:

- the routing and the driver that runs one step per state (`graph.py`);
- the six steps (`nodes.py`);
- case memory (`memory.py`);
- the prompt templates and the runner dispatch (`templates.py`);
- three pure helpers of the configuration loader (`configs/__init__.py`).

It proves properties of the model:

- the three routes;
- which fields a completed run sets;
- how memory grows along a run;
- when a run completes and when it must fail;
- the prompt shapes;
- medication normalisation;
- retrieval;
- save/load;
- serialisation;
- placeholder resolution.

## Files

The files are listed in dependency order.

- `wrappers.dfy` — `Option`, `Result` (an error carries the exception text) and `Status`.
- `pytext.dfy` — Python's `str.replace`, `str.split`, `str.join` and `str.strip`, with their round trips.
- `values.dfy` — Python values: scalars, lists, ordered dicts and chat reply objects. Also `str()`, truthiness, `dict.get` and `sep.join`.
- `configs.dfy` — `_sanitize_name`, `recursive_replace`, `_resolve_placeholders`.
- `llm.dfy` — the model invoker: a class whose answers come from an oracle and which logs every prompt sent.
- `templates.dfy` — the five templates as literal and slot pieces, the prompt builders, the runners and `Runner.run`.
- `memory.dfy` — case memory: a pure state with specification functions, and a class whose methods are proved equal to them.
- `state.dfy` — the case record: `state.get`, and a class holding the mutable dict.
- `nodes.dfy` — the steps: pure step functions on a world (record, memory, call log), and node methods on the objects proved equal to them.
- `graph.dfy` — the covered parts of `graph.py`:
  - the edges, the runs and the driver loop `RunGraph`, proved equal to the pure run;
  - lemmas about runs;
  - `serialize_state`.

The run lemmas are proved once for any step function with the frame of the
six steps (`Framed`), then applied to the real steps.

Where the system's specification and its code differ, the model follows the code:

- A retrieval with `k` larger than the number of stored documents does not
  simply return fewer results. The comprehension lets FAISS's `-1` padding
  through, which repeats the last document, and it raises on an empty memory.
  The model's retrieval (`RetrieveSpec`, the `retrieve_context` loop and the
  literature step) is the comprehension as written. So even with the
  embedding model passed through, a question on a fresh memory without a
  retriever raises (`Graph.FreshQuestionRunRaises`). `Memory.Retrieve` is the
  corrected lookup, kept as a reference. See Findings.
- The specification says every step appends its output to memory. As the
  nodes are written, `add_to_memory` receives no embedding model, so the
  first step that would append raises. See Findings.
- "`question` present" means `state.get("question") is not None`. An empty
  question therefore routes to the literature step. The context injection
  step, by contrast, tests truthiness (`question or symptoms`).

## Model

| member | source | states |
|---|---|---|
| Graph.Next | backend/agents/graph.py:46-60 | the edges: inject→literature if `question is not None`, else symptoms; symptoms→record summary if `ehr_text is not None`, else drugs; then drugs, treatment, END; every edge lowers the rank, so runs terminate |
| Graph.WalkIsRoute | backend/agents/graph.py:46-60 | following the edges from the entry point gives exactly one of the three routes |
| Graph.RouteShape | backend/agents/graph.py:46-60 | every route starts at `inject_context`, repeats no state, has 4 or 5 steps and ends with drug checker then treatment planner |
| Graph.RouteWithQuestion | backend/agents/graph.py:47-51 | with a question (even `""`) the second state is the literature step, and neither symptom checker nor record summariser is visited |
| Graph.RouteWithoutQuestion | backend/agents/graph.py:47-56 | without a question, the symptom checker comes second; the record summariser is visited iff `ehr_text` is set, and the drug checker follows |
| Graph.StepFrame | backend/agents/nodes.py:10-69 | each of the six steps keeps `question`/`ehr_text`, writes only its own field (a value, when it completes), appends exactly one memory entry under its tag with one model call or leaves memory alone when it raises; injection never raises and touches neither memory nor the model |
| Graph.StepsFramed | backend/agents/graph.py:31-44 | the node functions the graph registers all have that frame |
| Graph.ModelStepShape | backend/agents/nodes.py:10-60 | the frame of one model step, for any prompt |
| Graph.WalkFrame | backend/agents/graph.py:47-56 | the walk depends only on `question` and `ehr_text` |
| Graph.RunFollowsWalk | backend/agents/graph.py:46-62 | a run's path is a non-empty prefix of the walk, and the whole walk when no step raised |
| Graph.RunOutputs | backend/agents/nodes.py:13-58 | after a run, a field (other than `context`) is set only if it was set before or a model step on the path writes it; on completion, iff |
| Graph.RunMetadata | backend/agents/nodes.py:14-59 | a completed run appends the metadata `{"source": tag, "tags": {}}` of each model step on its path, in path order |
| Graph.RunCounts | backend/agents/nodes.py:14-59 | a completed run appends one document and makes one model call per model step on its path |
| Graph.RunMemory | backend/agents/nodes.py:14-59 | a completed run appends one document and metadata `{"source": tag, "tags": {}}` per model step, in path order, and makes one model call per model step |
| Graph.RunKeepsMemoryInvariants | backend/agents/memory.py:21-24 | whatever the outcome, a run keeps the lists parallel and the index in step with them |
| Graph.RouteOutputs | backend/agents/graph.py:46-60 | the output fields and memory tags of each route, written out |
| Graph.FinalRecordWith | backend/agents/graph.py:29-62 | the run lemma behind `FinalRecord`, for any framed step function |
| Graph.FinalRecord | backend/agents/graph.py:29-62 | a completed run on a fresh record takes its route. It sets the report and the plan; the literature answer iff there is a question; the diagnosis iff not; the summary iff no question but a record. Memory gains the route's tags in order, with one call per model step |
| Graph.FailedRunStops | backend/agents/graph.py:29-62 | a run that raised leaves unset every field that no step on its path writes |
| Graph.RunPathRanks | backend/agents/graph.py:46-60 | every state on a run's path is a node, none ranked above the start |
| Graph.OutputKeyInjective | backend/agents/nodes.py:13-69 | no two states write the same field |
| Graph.UntouchedCons | backend/agents/graph.py:29-62 | no step of a path writes a field iff neither its first step nor the rest does |
| Graph.RunLeavesField | backend/agents/nodes.py:13-69 | a field that no step on the path writes is present after the run iff it was before, with the same value |
| Graph.RunKeepsEarlierOutputs | backend/agents/nodes.py:13-58 | for any step function with the six steps' field frame, every model step on the path except the last has its output field set at the end, whether or not the last step raised |
| Graph.FailedRunKeepsEarlier | backend/agents/graph.py:29-62 | a run of the real steps keeps the output of every model step before its last state: a drug checker that raises leaves the diagnosis or literature answer, and the summary, as written |
| Graph.RunKeepsMemory | backend/agents/memory.py:21-24 | the pipeline keeps memory's lists parallel and the index in step, on success and on failure |
| Graph.RunWithCompletes | backend/agents/graph.py:29-62 | a run whose every step completes on a fitting world and keeps it fitting completes |
| Graph.ModelStepCompletes | backend/agents/nodes.py:10-60 | with a working model and embedding model, a model step with a formattable prompt completes, keeps memory textual and leaves the inputs alone |
| Graph.LiteratureContextOk | backend/agents/nodes.py:28-33 | with a total encoder, a FAISS-shaped search and parallel, indexed textual memory, the literature context can be built whenever there is a retriever or memory holds at least one document |
| Graph.StepCompletes | backend/agents/nodes.py:10-69 | with working services every step completes on a fitting world (textual parallel indexed memory, formattable medications and profile, and a retriever or non-empty memory) and leaves it fitting; model steps grow memory by one document |
| Graph.StepsComplete | backend/agents/graph.py:31-44 | the registered node functions all complete on fitting worlds and keep them fitting |
| Graph.RunCompletes | backend/agents/graph.py:29-62 | with the embedding model wired in, a model that answers, a FAISS-shaped search, textual parallel memory, formattable medications and profile, and a retriever or at least one stored document, the run completes; retrieval is the comprehension as written |
| Graph.FreshQuestionRunRaises | backend/agents/memory.py:33-37 | even with the embedding model wired in, a question on empty memory without a retriever raises in the literature step: the run stops after two states, with memory and the call log unchanged |
| Graph.RunWithStopsAtFirstModelStep | backend/agents/graph.py:29-62 | when every model step raises, a run stops in the second state of its route with memory unchanged |
| Graph.UnwiredModelStepFails | backend/agents/memory.py:16-21 | without an embedding model a model step raises whatever the model answers, and memory is unchanged |
| Graph.UnwiredStepFails | backend/agents/nodes.py:14-59 | as written, every model step raises, either in `add_to_memory` or in `retrieve_context` |
| Graph.UnwiredRunFails | backend/agents/nodes.py:14-36 | as written, every run raises in the state after the entry point, so the drug checker and treatment planner never run and memory is unchanged |
| Graph.Then | backend/agents/graph.py:29-62 | the steps already taken followed by the rest of a run keep its status and world |
| Graph.RunWithStep | backend/agents/graph.py:29-62 | the run from a state is its step followed by the run from the next state, unless the step raised |
| Graph.ThenThen | backend/agents/graph.py:29-62 | prepending taken steps associates |
| Graph.Step | backend/agents/graph.py:31-44 | calling the node function registered for a state has exactly the effect of that state's step function |
| Graph.RunGraph | backend/agents/graph.py:29-62 | the driver loop's path, status, final record, memory and call log are those of the pure run from the entry point |
| Graph.Convert | backend/agents/graph.py:66-73 | conversion keeps a list's length and a dict's keys in order |
| Graph.ConvertKeepsPlain | backend/agents/graph.py:66-73 | a value without reply objects converts to itself |
| Graph.ConvertRemovesMessages | backend/agents/graph.py:66-73 | when every reply dumps to plain data, no reply object is left after conversion |
| Graph.ConvertIdempotent | backend/agents/graph.py:66-73 | converting twice is converting once |
| Graph.ConvertAtDepth | backend/agents/graph.py:66-73 | at every depth reachable through lists and dicts the converted value is the converted sub-value: a reply becomes the dict of its dump, lists keep their length, dicts their keys in order, other leaves are unchanged |
| Graph.SerializeState | backend/agents/graph.py:65-75 | the serialised record has the same fields |
| Graph.SerializeStateClean | backend/agents/graph.py:65-75 | a reply field becomes its `.dict()`, a plain field is unchanged; with plain dumps no reply object is left, and serialising again changes nothing |
| Graph.SerializeAtDepth | backend/agents/graph.py:65-75 | every field of the serialised record, at every depth, is that field converted there |
| Nodes.NormalizeMedsClean | backend/agents/nodes.py:42-44 | every name made from a string is non-empty, stripped and comma-free |
| Nodes.NormalizeMedsRoundTrip | backend/agents/nodes.py:42-44 | `", ".join` of clean names, normalised, gives back exactly those names |
| Nodes.NormalizeMedsEmpty | backend/agents/nodes.py:42-44 | the empty string gives the empty list |
| Nodes.NormalizeMedsExample | backend/agents/nodes.py:42-44 | `"paracetamol, azithromycin"` gives `["paracetamol", "azithromycin"]` |
| Nodes.NormalizeMedsOthers | backend/agents/nodes.py:42-46 | a list passes through untouched; any other non-string gives `[]`; never an error |
| Nodes.StripAllClean | backend/agents/nodes.py:44 | stripping and dropping empty pieces of comma-free pieces gives clean names |
| Nodes.StripAllSpaced | backend/agents/nodes.py:44 | stripping pieces that are clean names, some with a leading space, gives the names |
| Nodes.JoinSpaced | backend/agents/nodes.py:44 | joining by `", "` is joining by `","` with a space before every part but the first |
| Nodes.ModelStepEffect | backend/agents/nodes.py:10-60 | a model step writes only its key; it makes one call when its prompt formats and none otherwise; memory gains exactly the answer under the step's tag, or is unchanged exactly when the step raised |
| Nodes.InjectStepEffect | backend/agents/nodes.py:63-69 | injection never raises; it sets `context` to the retriever's passages joined by newlines iff the query is truthy and there is a retriever; memory and calls are unchanged |
| Nodes.LiteratureContextSources | backend/agents/nodes.py:28-33 | with a retriever the context is its passages joined by `"\n"`; without one, over parallel textual memory, it can be built iff every label below `len(documents)` is at least `-len(documents)`, and then it is the texts at those labels (negative ones counted from the end) joined by `"\n"` |
| Nodes.LiteratureStepFreshRaises | backend/agents/nodes.py:26-37 | with empty memory, no retriever and FAISS's `-1` answer, the literature step raises and changes nothing |
| Nodes.StoreReply | backend/agents/nodes.py:13-14 | on an answer, the key is written and then memory is appended to; on a model error, nothing changes |
| Nodes.SymptomNode | backend/agents/nodes.py:10-15 | the method's effect is `SymptomStep` |
| Nodes.EhrNode | backend/agents/nodes.py:18-23 | the method's effect is `EhrStep` |
| Nodes.LiteratureNode | backend/agents/nodes.py:26-37 | the method's effect is `LiteratureStep`, whose retrieval is the comprehension as written |
| Nodes.DrugNode | backend/agents/nodes.py:40-52 | the method's effect is `DrugStep` |
| Nodes.TreatmentNode | backend/agents/nodes.py:55-60 | the method's effect is `TreatmentStep` |
| Nodes.InjectRetrievedContext | backend/agents/nodes.py:63-69 | the method's effect is `InjectStep` |
| Memory.AddAppendsOne | backend/agents/memory.py:16-24 | an add fails iff encoding fails, and then changes nothing; otherwise it appends exactly one document, one metadata entry and one vector and keeps every earlier entry |
| Memory.AddKeepsInvariants | backend/agents/memory.py:21-24 | a successful add keeps the lists parallel and the index in step |
| Memory.ContentOfMessage | backend/agents/memory.py:19-20 | a reply is stored as its `.content` |
| Memory.RetrieveSelects | backend/agents/memory.py:33-37 | with parallel lists the corrected lookup returns the documents at the valid labels, in search order |
| Memory.RetrieveAtMostLabels | backend/agents/memory.py:33-37 | never more results than labels |
| Memory.ValidLabelsOfFaiss | backend/agents/memory.py:32-37 | FAISS labels for `n` vectors and `k` neighbours contain `min(k, n)` valid labels |
| Memory.RetrieveFaissCount | backend/agents/memory.py:32-37 | corrected lookup: with FAISS labels it never fails and returns `min(k, n)` results |
| Memory.RetrieveAsWrittenAgrees | backend/agents/memory.py:33-37 | where no label is negative, the comprehension as written and the corrected one agree |
| Memory.RetrieveAsWrittenSelects | backend/agents/memory.py:33-37 | as written, the lookup succeeds iff every label below `len(documents)` is at least `-len(documents)`, and then returns the documents and metadata at the kept labels in search order, negative labels counted from the end |
| Memory.KeptPositionsAll | backend/agents/memory.py:33-37 | when every label is a valid Python index, every label is kept, at its Python position |
| Memory.RetrieveAsWrittenFaiss | backend/agents/memory.py:32-37 | as written, with FAISS labels: it succeeds iff memory is non-empty or `k = 0`, returns `k` results, the first `min(k, n)` at the labels and the rest copies of the last document |
| Memory.RetrievePaddingRepeatsLast | backend/agents/memory.py:33-37 | one stored document and k = 3: as written, three copies come back; corrected, one |
| Memory.RetrieveEmptyMemoryRaises | backend/agents/memory.py:33-37 | empty memory: as written, IndexError; corrected, no results |
| Memory.CaseMemory.Add | backend/agents/memory.py:16-24 | the method's new state is `AddSpec` of the old one |
| Memory.CaseMemory.RetrieveContext | backend/agents/memory.py:27-37 | the loop over the labels returns `RetrieveSpec` of the state: the documents at the labels below `len(documents)`, negative ones from the end, or IndexError when such a label is below `-len(documents)` |
| Memory.LoadReplacesLists | backend/agents/memory.py:48-53 | loading keeps the index and restores saved lists; the lists are parallel iff the snapshot's are |
| Memory.LoadCanBreakIndexed | backend/agents/memory.py:48-53 | loading a snapshot of another size breaks the index/document pairing |
| Memory.SaveLoadRoundTrip | backend/agents/memory.py:40-53 | loading a saved snapshot brings back its lists beside the current index |
| Memory.CaseMemory.Save | backend/agents/memory.py:40-45 | the snapshot is the current lists and index |
| Memory.CaseMemory.Load | backend/agents/memory.py:48-53 | the new state is `LoadSpec` of the old one |
| Templates.SymptomPromptShape | backend/agents/templates.py:1-12 | the symptoms' text sits once, verbatim, between the template's fixed parts |
| Templates.SymptomPromptInjective | backend/agents/templates.py:86-87 | equal prompts come from symptoms with equal text |
| Templates.EhrSummaryPromptShape | backend/agents/templates.py:15-32 | the record text sits once, verbatim, between the fixed parts |
| Templates.EhrSummaryPromptInjective | backend/agents/templates.py:90-91 | equal prompts come from record texts that are equal |
| Templates.LiteratureQaPromptShape | backend/agents/templates.py:34-47 | the context and then the question are inserted verbatim in their places |
| Templates.LiteratureQaPromptNoContext | backend/agents/templates.py:34-47 | an empty context leaves nothing between the context heading and the question heading |
| Templates.DrugInteractionPromptShape | backend/agents/templates.py:98-104 | the prompt fails iff `", ".join(meds)` does; the drugs slot holds the join, the interactions slot `str(patient_data)`; `[]` gives an empty drugs slot |
| Templates.TreatmentPromptShape | backend/agents/templates.py:107-113 | a non-dict profile raises; a dict fills diagnosis, age and sex (`None` when missing) and the joined comorbidities; failure iff the join fails; missing comorbidities give an empty slot |
| Templates.RenderOneSlot | backend/agents/templates.py:86-87 | `str.format` with one field inserts its argument between the pieces |
| Templates.RenderTwoSlots | backend/agents/templates.py:94-104 | the same for two fields |
| Templates.RenderFourSlots | backend/agents/templates.py:107-113 | the same for four fields |
| Templates.RunSymptomChecker | backend/agents/templates.py:117-120 | one call with the symptom prompt, its answer returned |
| Templates.RunEhrSummarizer | backend/agents/templates.py:122-125 | one call with the record prompt, its answer returned |
| Templates.RunLiteratureQa | backend/agents/templates.py:127-130 | one call with the literature prompt, its answer returned |
| Templates.RunDrugInteractions | backend/agents/templates.py:132-135 | no call when the join raises, else one call |
| Templates.RunTreatmentPlan | backend/agents/templates.py:137-140 | no call when the profile does not format, else one call |
| Templates.RunnerForTable | backend/agents/templates.py:144-151 | exactly the five names of `runner_map` have a runner |
| Templates.InvalidRunnerMessageNamesAll | backend/agents/templates.py:152-156 | the error for an unknown name lists every valid runner |
| Templates.Run | backend/agents/templates.py:142-157 | an unknown name raises NotImplementedError with that message and makes no call; a known one runs its runner on the keyword arguments (TypeError on a bad binding, no call) |
| Llm.ReplyValue | backend/agents/nodes.py:12-13 | a stored answer is never `None` |
| Llm.Invoker.Invoke | backend/agents/templates.py:120 | one call is logged and its oracle answer is returned |
| AgentState.GetOrOfMissing | backend/agents/nodes.py:48 | `get(key, default)` differs from `get(key)` only for a missing key |
| AgentState.CaseRecord.Set | backend/agents/nodes.py:13 | `state[key] = value` changes that key only |
| Values.JoinValue | backend/agents/templates.py:101 | `sep.join`: a string joins its one-character strings, a dict its keys, `[]` gives `""` |
| Values.JoinStringList | backend/agents/templates.py:101 | a list of strings joins its strings |
| Values.JoinRejectsNonString | backend/agents/templates.py:101 | a list with a non-string item raises TypeError |
| Values.JoinCharsEmptySep | backend/agents/templates.py:101 | `"".join` of a string is that string |
| Values.JoinCharsLength | backend/agents/templates.py:101 | joining the `n` characters of a string puts `n - 1` separators between them |
| Values.DictGetMissing | backend/agents/nodes.py:48 | `dict.get` finds nothing iff the key is absent |
| Configs.SanitizeNameIsIdentifier | configs/__init__.py:103-112 | the result holds only ASCII letters, digits and `_`, and never starts with a digit |
| Configs.SanitizeNameKeepsIdentifiers | configs/__init__.py:103-112 | a valid identifier comes back unchanged |
| Configs.SanitizeNameEmpty | configs/__init__.py:103-112 | the result is empty iff no identifier character or hyphen occurs |
| Configs.SanitizeNameIdempotent | configs/__init__.py:103-112 | sanitising twice is sanitising once |
| Configs.SanitizeNameOfIdentifierText | configs/__init__.py:103-112 | on identifier characters and hyphens: hyphens become `_`, and a leading digit gets `_` in front |
| Configs.SanitizeNameExample | configs/__init__.py:106 | `"models-v2"` gives `"models_v2"` |
| Configs.SanitizeNameLeadingDigit | configs/__init__.py:110-111 | a name whose first character is a digit comes back as `_`, then that digit, then the rest |
| Configs.ReplaceHyphens | configs/__init__.py:106 | `replace("-", "_")` is that character map |
| Configs.KeepIdentCharsShape | configs/__init__.py:108 | the filter keeps exactly the identifier characters: it is empty iff there are none, and identity on identifier text |
| Configs.RecursiveReplaceKeepsShape | configs/__init__.py:86-100 | replacing keeps every key, every list length and order, and every non-string leaf |
| Configs.RecursiveReplaceSelf | configs/__init__.py:86-100 | replacing a string by itself gives the tree back |
| Configs.RecursiveReplaceAbsent | configs/__init__.py:86-100 | a tree without the pattern comes back unchanged |
| Configs.FindPlaceholdersEmpty | configs/__init__.py:60 | `re.findall` finds nothing iff no position starts a `${word}` |
| Configs.PlaceholderAtShape | configs/__init__.py:60 | a found placeholder names a word and spells its token at that position |
| Configs.PlaceholderOfToken | configs/__init__.py:60 | a token at the start is found as its name |
| Configs.ResolveStringLoop | configs/__init__.py:59-63 | the `for` loop over the found names computes `ResolveString` |
| Configs.ResolveKeepsShape | configs/__init__.py:50-65 | resolving keeps keys, list lengths and order, and non-string leaves |
| Configs.ResolveWithoutPlaceholders | configs/__init__.py:50-65 | a tree without placeholders comes back unchanged |
| Configs.ResolveStringIsSubstitution | configs/__init__.py:59-63 | when every `$` starts a placeholder and no value contains `$`, the loop of whole-string replaces equals one left-to-right substitution |
| Configs.ResolveMissingKey | configs/__init__.py:59-63 | a lone placeholder for a key absent from the original config resolves to `"None"`, and one at the front of any string becomes `"None"` followed by the rest substituted |
| Configs.ReplaceExtendsPartial | configs/__init__.py:62 | one pass of the loop substitutes one more name |
| Configs.ReplaceEachIsPartial | configs/__init__.py:60-62 | the whole loop substitutes every found name |
| Configs.PartialCoversAll | configs/__init__.py:60-62 | substituting every found name is the full substitution |

## Left out

- I/O:
  - `print` and `log_keys`;
  - reading the YAML, JSON and `.env` files;
  - `save_memory`'s directory creation and file writes, and `load_memory`'s file read.

  `Save` and `Load` model only the snapshot written and read.
- The embedding model and FAISS search are oracle parameters (`encode`, `search`). Their accuracy, ordering by distance and float32 conversion are not modelled. `FaissLabels` states only the label shape FAISS returns.
- The language model is an oracle indexed by call number; a raised exception is an `Err` with its text. Network, timeouts and providers are not modelled.
- The retriever's `similarity_search` is a total parameter. Its own failures, and the truthiness of the retriever object, are not modelled: a retriever is present or absent.
- LangGraph itself:
  - channel merging of returned dicts, checkpointing and concurrency are not modelled;
  - the record is one dict that steps update in place. So a failed run keeps
    the fields written before the failure (`Graph.FailedRunKeepsEarlier`).
    The caller of `graph.invoke` sees only the exception, never that record;
  - `Graph.SerializeState` returns a map, so the serialised dict's key order is not modelled. Within a field, `Graph.Convert` keeps the key order of nested dicts.
- `build_graph`'s `**kwargs` are taken to be empty. Any keyword would make every node raise TypeError, because the node functions accept none.
- `Graph.Convert`: the fallback `str(obj)` for a reply without `.dict()` is left out. The chat reply class always has `.dict()`.
- `Values.Repr`: `repr` of strings does not escape quotes or backslashes, and floats are carried as their text.
- `Configs.IsWordChar`: `\w` is taken as ASCII `[a-zA-Z0-9_]`, not the Unicode word class.
- `Templates.Render`: `str.format` is modelled on templates already split into literal and field pieces. Its format-string parser (braces, conversions, format specs) is not.
- The mutable default `tags={}` of `add_to_memory` is never mutated in the core, so it is modelled as a fresh empty dict each call.
- `load_file`, `get_absolute_path`, `go_up_directories`, `print_directory_structure`, the module import loop and the API and frontend layers are not part of this model.
- Concurrent runs sharing case memory are not modelled; runs are sequential.

## Findings

| source | as written | input that shows it | evidently intended | confidence | as-written member | corrected member |
|---|---|---|---|---|---|---|
| backend/agents/memory.py:33-37 | the comprehension keeps every label with `i < len(documents)`, which lets FAISS's `-1` padding through as `documents[-1]` | one stored document and `k = 3`: FAISS returns `[0, -1, -1]` and the last document comes back three times; with empty memory `[-1, -1, -1]` raises IndexError, so a question on a fresh process without a retriever fails in the literature step (`Graph.FreshQuestionRunRaises`) | keep only `0 <= i < len(documents)`, so the result has `min(k, n)` entries and empty memory gives `[]` | not executed; high | Memory.RetrievePaddingRepeatsLast | Memory.RetrieveFaissCount |
| backend/agents/nodes.py:14-59 | `add_to_memory(…)` and `retrieve_context(question)` are called without `embedding_model` and `index`, so `kwargs.get` yields `None` and `None.encode` raises AttributeError | any record, with the graph built as in `frontend/streamlit_app.py:51` (no keywords): the run raises in the second state of its route, so the drug checker and treatment planner never run and memory stays empty. Built as in `frontend/main.py:131-133`, with `embedding_model=` and `index=`, it raises TypeError even earlier, in `inject_context`, whose function takes no keywords | pass the embedding model and index through, so every step appends its answer. `Graph.RunCompletes` assumes only this fix; retrieval stays as written, so it requires a retriever or at least one stored document (row 1) | not executed; high | Graph.UnwiredRunFails | Graph.RunCompletes |
