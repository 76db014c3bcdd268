/**
  The steps of the pipeline. Each model step reads a few fields of the case
  record, formats one prompt, makes one model call, writes its one output
  field and appends the answer to case memory under a fixed source tag.
  Every step has a pure specification over a `World` (record, memory,
  model-call log); the imperative node methods are proved equal to it.
*/
module Nodes {
  import opened Wrappers
  import opened PyText
  import opened Values
  import opened Llm
  import opened Templates
  import opened Memory
  import opened AgentState

  // ---------------------------------------------------------------------
  // Medication normalisation (drug_node)
  // ---------------------------------------------------------------------

  /** `[m.strip() for m in pieces if m.strip()]`. */
  function StripAll(pieces: seq<string>): seq<string>
    decreases |pieces|
  {
    if pieces == [] then []
    else
      var m := Strip(pieces[0]);
      (if m != [] then [m] else []) + StripAll(pieces[1..])
  }

  function AsStrs(ts: seq<string>): (vs: seq<Value>)
    ensures |vs| == |ts| && forall i :: 0 <= i < |ts| ==> vs[i] == Str(ts[i])
  {
    seq(|ts|, i requires 0 <= i < |ts| => Str(ts[i]))
  }

  /**
    The medication rule: a string is split on "," with every piece stripped
    and empty pieces dropped; a list is kept as it is; anything else is `[]`.
  */
  function NormalizeMeds(meds: Value): Value
  {
    match meds
    case Str(s) => List(AsStrs(StripAll(Split(s, ","))))
    case List(_) => meds
    case _ => List([])
  }

  /** A medication name as the rule leaves it: non-empty, stripped, without a comma. */
  predicate CleanName(m: string)
  {
    |m| > 0 && Stripped(m) && ',' !in m
  }

  lemma InfixAvoids(p: string, x: string, i: nat, c: char)
    requires OccursAt(p, x, i) && !Contains(p, [c])
    ensures c !in x
  {
    if c in x {
      var j :| 0 <= j < |x| && x[j] == c;
      assert p[i + j..i + j + 1] == [c];
      assert OccursAt(p, [c], i + j);
    }
  }

  lemma {:induction false} StripAllClean(pieces: seq<string>)
    requires forall i :: 0 <= i < |pieces| ==> !Contains(pieces[i], ",")
    ensures forall i :: 0 <= i < |StripAll(pieces)| ==> CleanName(StripAll(pieces)[i])
    decreases |pieces|
  {
    if pieces != [] {
      StripAllClean(pieces[1..]);
      var m := Strip(pieces[0]);
      StripShape(pieces[0]);
      var k: nat :| k <= |pieces[0]| && OccursAt(pieces[0], m, k);
      InfixAvoids(pieces[0], m, k, ',');
    }
  }

  /** Every name the rule makes from a string is non-empty, stripped and free of commas. */
  lemma NormalizeMedsClean(s: string)
    ensures NormalizeMeds(Str(s)).List?
    ensures forall i :: 0 <= i < |NormalizeMeds(Str(s)).items| ==>
      NormalizeMeds(Str(s)).items[i].Str? && CleanName(NormalizeMeds(Str(s)).items[i].s)
  {
    SplitPiecesAvoidSeparator(s, ",");
    StripAllClean(Split(s, ","));
  }

  /** `items` joined by ", " is `items` with a space before every part but the first, joined by ",". */
  function Spaced(items: seq<string>): (ps: seq<string>)
    ensures |ps| == |items|
  {
    seq(|items|, k requires 0 <= k < |items| => if k == 0 then items[0] else " " + items[k])
  }

  lemma {:induction false} JoinSpaced(items: seq<string>)
    ensures Join(items, ", ") == Join(Spaced(items), ",")
    decreases |items|
  {
    if |items| >= 2 {
      var tail := items[1..];
      JoinSpaced(tail);
      assert Spaced(items)[1..] == [" " + tail[0]] + Spaced(tail)[1..];
      JoinPrependFirst(" ", Spaced(tail), ",");
      JoinCons(items[0], tail, ", ");
      JoinCons(items[0], Spaced(items)[1..], ",");
      assert Spaced(items) == [items[0]] + Spaced(items)[1..];
      assert items == [items[0]] + tail;
    }
  }

  lemma {:induction false} StripAllSpaced(pieces: seq<string>, items: seq<string>)
    requires |pieces| == |items|
    requires forall i :: 0 <= i < |items| ==> CleanName(items[i])
    requires forall i :: 0 <= i < |items| ==> pieces[i] == items[i] || pieces[i] == " " + items[i]
    ensures StripAll(pieces) == items
    decreases |pieces|
  {
    if pieces != [] {
      StripAllSpaced(pieces[1..], items[1..]);
      if pieces[0] == items[0] {
        StripAfterSpace("", items[0]);
        assert "" + items[0] == items[0];
      } else {
        StripAfterSpace(" ", items[0]);
      }
      assert items == [items[0]] + items[1..];
    }
  }

  /** The empty string normalises to the empty list. */
  lemma NormalizeMedsEmpty()
    ensures NormalizeMeds(Str("")) == List([])
  {
    assert Split("", ",") == [""];
    assert Strip("") == "";
    assert StripAll([""]) == [];
  }

  lemma SpacedAvoidsComma(items: seq<string>)
    requires forall i :: 0 <= i < |items| ==> CleanName(items[i])
    ensures forall i :: 0 <= i < |Spaced(items)| ==> ',' !in Spaced(items)[i]
  {
  }

  /**
    Names that are already clean survive a trip through ", ".join and the
    rule: the rule recovers exactly the list that was joined.
  */
  lemma NormalizeMedsRoundTrip(items: seq<string>)
    requires forall i :: 0 <= i < |items| ==> CleanName(items[i])
    ensures NormalizeMeds(Str(Join(items, ", "))) == List(AsStrs(items))
  {
    if items == [] {
      NormalizeMedsEmpty();
    } else {
      JoinSpaced(items);
      var ps := Spaced(items);
      SpacedAvoidsComma(items);
      JoinSplitRoundTrip(ps, ',');
      StripAllSpaced(ps, items);
    }
  }

  lemma ExampleNamesClean(items: seq<string>)
    requires items == ["paracetamol", "azithromycin"]
    ensures forall i :: 0 <= i < |items| ==> CleanName(items[i])
  {
    assert CleanName(items[0]) && CleanName(items[1]);
  }

  lemma ExampleJoin(items: seq<string>, s: string)
    requires items == ["paracetamol", "azithromycin"] && s == "paracetamol, azithromycin"
    ensures Join(items, ", ") == s
  {
    JoinCons(items[0], items[1..], ", ");
  }

  /** The rule on the example "paracetamol, azithromycin". */
  lemma NormalizeMedsExample(s: string)
    requires s == "paracetamol, azithromycin"
    ensures NormalizeMeds(Str(s)) == List([Str("paracetamol"), Str("azithromycin")])
  {
    var items := ["paracetamol", "azithromycin"];
    ExampleNamesClean(items);
    ExampleJoin(items, s);
    NormalizeMedsRoundTrip(items);
  }

  /** A list is passed through untouched; anything but a string or a list becomes `[]`, never an error. */
  lemma NormalizeMedsOthers(meds: Value)
    ensures meds.List? ==> NormalizeMeds(meds) == meds
    ensures !meds.List? && !meds.Str? ==> NormalizeMeds(meds) == List([])
    ensures NormalizeMeds(meds).List?
  {
  }

  // ---------------------------------------------------------------------
  // The world the steps act on
  // ---------------------------------------------------------------------

  /** The vector store handed to `build_graph`: its `similarity_search` returns page contents. */
  datatype Retriever = NoRetriever | Store(similaritySearch: Value -> seq<string>)

  /** Everything a step changes: the case record, case memory and the log of model calls. */
  datatype World = World(entries: map<string, Value>, memory: MemState, calls: seq<string>)

  /** Everything a step consults but does not change. */
  datatype Env = Env(respond: (nat, string) -> Result<Reply>, store: Retriever,
                     encode: Value -> Option<Vector>, search: (seq<Vector>, Vector, nat) -> seq<int>)

  datatype Outcome = Outcome(status: Status, world: World)

  /**
    The tail of every model step: on a model error the step raises; on an
    answer it writes `key`, then appends the answer to memory with tag
    `source` and no tags (an encoding failure raises after the write).
  */
  function Deliver(w: World, env: Env, asked: (Result<Reply>, seq<string>), key: string, source: string): Outcome
  {
    match asked.0
    case Err(e) => Outcome(Failed(e), w.(calls := asked.1))
    case Ok(reply) =>
      var entries := w.entries[key := ReplyValue(reply)];
      match AddSpec(w.memory, ReplyValue(reply), source, [], env.encode)
      case Err(e) => Outcome(Failed(e), World(entries, w.memory, asked.1))
      case Ok(m) => Outcome(Done, World(entries, m, asked.1))
  }

  function ModelStep(w: World, env: Env, prompt: Result<string>, key: string, source: string): Outcome
  {
    Deliver(w, env, Ask(env.respond, w.calls, prompt), key, source)
  }

  /** `symptom_node`. */
  function SymptomStep(w: World, env: Env): Outcome
  {
    ModelStep(w, env, Ok(SymptomPrompt(Get(w.entries, "symptoms"))), "diagnosis", "diagnosis")
  }

  /** `ehr_node`. */
  function EhrStep(w: World, env: Env): Outcome
  {
    ModelStep(w, env, Ok(EhrSummaryPrompt(Get(w.entries, "ehr_text"))), "summary", "ehr_summary")
  }

  /**
    The context of `literature_node`: the retriever's passages when there is
    one, otherwise the texts `retrieve_context` finds in memory; either way joined by "\n".
  */
  function LiteratureContext(w: World, env: Env): Result<string>
  {
    var question := Get(w.entries, "question");
    match env.store
    case Store(search) => Ok(Join(search(question), "\n"))
    case NoRetriever =>
      match RetrieveSpec(w.memory, question, 3, env.encode, env.search)
      case Err(e) => Err(e)
      case Ok(hits) => JoinValue(List(HitTexts(hits)), "\n")
  }

  /** `literature_node`: a context that cannot be built raises before the model call. */
  function LiteratureStep(w: World, env: Env): Outcome
  {
    match LiteratureContext(w, env)
    case Err(e) => Outcome(Failed(e), w)
    case Ok(context) =>
      ModelStep(w, env, Ok(LiteratureQaPrompt(Get(w.entries, "question"), Str(context))), "literature_answer", "literature_qa")
  }

  /** `drug_node`: normalised medications, and the diagnosis (or "") as patient data. */
  function DrugStep(w: World, env: Env): Outcome
  {
    ModelStep(w, env,
              DrugInteractionPrompt(NormalizeMeds(Get(w.entries, "medications")), GetOr(w.entries, "diagnosis", Str(""))),
              "interaction_report", "drug_checker")
  }

  /** `treatment_node`. */
  function TreatmentStep(w: World, env: Env): Outcome
  {
    ModelStep(w, env, TreatmentPrompt(Get(w.entries, "patient_profile")), "treatment_plan", "treatment_plan")
  }

  /** `question or symptoms`. */
  function Query(entries: map<string, Value>): Value
  {
    if Truthy(Get(entries, "question")) then Get(entries, "question") else Get(entries, "symptoms")
  }

  /** `inject_retrieved_context`. */
  function InjectStep(w: World, env: Env): Outcome
  {
    var query := Query(w.entries);
    if !Truthy(query) || env.store.NoRetriever? then Outcome(Done, w)
    else Outcome(Done, w.(entries := w.entries["context" := Str(Join(env.store.similaritySearch(query), "\n"))]))
  }

  // ---------------------------------------------------------------------
  // What the steps promise
  // ---------------------------------------------------------------------

  /**
    A model step writes only `key`, with the model's answer; it makes one
    call when its prompt formats and none otherwise; memory either gains
    exactly the answer under `source` or is unchanged, and it is unchanged
    exactly when the step fails.
  */
  lemma ModelStepEffect(w: World, env: Env, prompt: Result<string>, key: string, source: string)
    ensures var o := ModelStep(w, env, prompt, key, source);
      (o.world.entries == w.entries ||
       (key in o.world.entries && o.world.entries[key] != Null &&
        o.world.entries == w.entries[key := o.world.entries[key]])) &&
      (prompt.Err? ==> o == Outcome(Failed(prompt.error), w)) &&
      (prompt.Ok? ==> o.world.calls == w.calls + [prompt.value]) &&
      (o.status.Done? ==>
         key in o.world.entries &&
         o.world.memory ==
           AddSpec(w.memory, o.world.entries[key], source, [], env.encode).value &&
         o.world.memory.metadata == w.memory.metadata + [MetaEntry(source, [])] &&
         |o.world.memory.documents| == |w.memory.documents| + 1) &&
      (o.status.Failed? ==> o.world.memory == w.memory)
  {
    var o := ModelStep(w, env, prompt, key, source);
    if prompt.Ok? {
      var asked := Ask(env.respond, w.calls, prompt);
      if asked.0.Ok? {
        AddAppendsOne(w.memory, ReplyValue(asked.0.value), source, [], env.encode);
      }
    }
  }

  /** `inject_retrieved_context` changes nothing but `context`, and sets it exactly when there is a query and a store. */
  lemma InjectStepEffect(w: World, env: Env)
    ensures var o := InjectStep(w, env);
      o.status == Done && o.world.memory == w.memory && o.world.calls == w.calls &&
      (!Truthy(Query(w.entries)) || env.store.NoRetriever? ==> o.world.entries == w.entries) &&
      (Truthy(Query(w.entries)) && env.store.Store? ==>
         o.world.entries == w.entries["context" := Str(Join(env.store.similaritySearch(Query(w.entries)), "\n"))])
  {
  }

  /**
    With a retriever the literature context is its passages joined by "\n".
    Without one it is the texts `retrieve_context` reads from memory,
    joined by "\n": one for every label below `len(documents)`, a negative
    label reading from the end. The lookup raises IndexError when a kept
    label is below `-len(documents)`.
  */
  lemma LiteratureContextSources(w: World, env: Env)
    ensures env.store.Store? ==>
      LiteratureContext(w, env) == Ok(Join(env.store.similaritySearch(Get(w.entries, "question")), "\n"))
    ensures env.store.NoRetriever? && Parallel(w.memory) && env.encode(Get(w.entries, "question")).Some? &&
            (forall i :: 0 <= i < |w.memory.documents| ==> w.memory.documents[i].Str?) ==>
      var labels := env.search(w.memory.index, env.encode(Get(w.entries, "question")).value, 3);
      var n := |w.memory.documents|;
      (LiteratureContext(w, env).Ok? <==> Indexable(labels, n)) &&
      (Indexable(labels, n) ==>
         LiteratureContext(w, env) ==
           Ok(Join(Texts(HitTexts(HitsAt(w.memory.documents, w.memory.metadata, KeptPositions(labels, n)))), "\n")))
  {
    if env.store.NoRetriever? && Parallel(w.memory) && env.encode(Get(w.entries, "question")).Some? &&
       (forall i :: 0 <= i < |w.memory.documents| ==> w.memory.documents[i].Str?) {
      var labels := env.search(w.memory.index, env.encode(Get(w.entries, "question")).value, 3);
      var n := |w.memory.documents|;
      RetrieveAsWrittenSelects(w.memory.documents, w.memory.metadata, labels);
      if Indexable(labels, n) {
        var hits := HitsAt(w.memory.documents, w.memory.metadata, KeptPositions(labels, n));
        JoinStringList(HitTexts(hits), "\n");
      }
    }
  }

  /**
    On a fresh process memory is empty, so without a retriever FAISS answers
    only `-1` labels and the literature step raises IndexError before it
    calls the model, leaving record, memory and call log as they were.
  */
  lemma LiteratureStepFreshRaises(w: World, env: Env)
    requires env.store.NoRetriever? && w.memory.documents == [] && |w.memory.metadata| == 0
    requires env.encode(Get(w.entries, "question")).Some?
    requires FaissLabels(env.search(w.memory.index, env.encode(Get(w.entries, "question")).value, 3), 0, 3)
    ensures LiteratureContext(w, env).Err?
    ensures LiteratureStep(w, env).status.Failed? && LiteratureStep(w, env).world == w
  {
    var labels := env.search(w.memory.index, env.encode(Get(w.entries, "question")).value, 3);
    RetrieveAsWrittenFaiss(w.memory.documents, w.memory.metadata, labels, 3);
  }

  // ---------------------------------------------------------------------
  // The node methods
  // ---------------------------------------------------------------------

  function WorldOf(record: CaseRecord, llm: Invoker, memory: CaseMemory): World
    reads record, llm, memory
  {
    World(record.entries, memory.State(), llm.calls)
  }

  function EnvOf(llm: Invoker, memory: CaseMemory, store: Retriever): Env
  {
    Env(llm.respond, store, memory.encode, memory.search)
  }

  /** `state[key] = reply; add_to_memory(reply, source=source)`. */
  method StoreReply(record: CaseRecord, memory: CaseMemory, r: Result<Reply>, key: string, source: string)
    returns (status: Status)
    modifies record, memory
    ensures r.Err? ==> status == Failed(r.error) && record.entries == old(record.entries) && memory.State() == old(memory.State())
    ensures r.Ok? ==> record.entries == old(record.entries)[key := ReplyValue(r.value)]
    ensures r.Ok? ==>
      match AddSpec(old(memory.State()), ReplyValue(r.value), source, [], memory.encode)
      case Err(e) => status == Failed(e) && memory.State() == old(memory.State())
      case Ok(m) => status == Done && memory.State() == m
  {
    if r.Err? {
      return Failed(r.error);
    }
    record.Set(key, ReplyValue(r.value));
    status := memory.Add(ReplyValue(r.value), source, []);
  }

  method SymptomNode(record: CaseRecord, llm: Invoker, memory: CaseMemory, store: Retriever) returns (status: Status)
    modifies record, llm, memory
    ensures Outcome(status, WorldOf(record, llm, memory)) == SymptomStep(old(WorldOf(record, llm, memory)), EnvOf(llm, memory, store))
  {
    var r := RunSymptomChecker(Get(record.entries, "symptoms"), llm);
    status := StoreReply(record, memory, r, "diagnosis", "diagnosis");
  }

  method EhrNode(record: CaseRecord, llm: Invoker, memory: CaseMemory, store: Retriever) returns (status: Status)
    modifies record, llm, memory
    ensures Outcome(status, WorldOf(record, llm, memory)) == EhrStep(old(WorldOf(record, llm, memory)), EnvOf(llm, memory, store))
  {
    var r := RunEhrSummarizer(Get(record.entries, "ehr_text"), llm);
    status := StoreReply(record, memory, r, "summary", "ehr_summary");
  }

  method LiteratureNode(record: CaseRecord, llm: Invoker, memory: CaseMemory, store: Retriever) returns (status: Status)
    modifies record, llm, memory
    ensures Outcome(status, WorldOf(record, llm, memory)) == LiteratureStep(old(WorldOf(record, llm, memory)), EnvOf(llm, memory, store))
  {
    var question := Get(record.entries, "question");
    var context: string;
    if store.Store? {
      context := Join(store.similaritySearch(question), "\n");
    } else {
      var found := memory.RetrieveContext(question, 3);
      if found.Err? {
        return Failed(found.error);
      }
      var joined := JoinValue(List(HitTexts(found.value)), "\n");
      if joined.Err? {
        return Failed(joined.error);
      }
      context := joined.value;
    }
    var r := RunLiteratureQa(question, Str(context), llm);
    status := StoreReply(record, memory, r, "literature_answer", "literature_qa");
  }

  method DrugNode(record: CaseRecord, llm: Invoker, memory: CaseMemory, store: Retriever) returns (status: Status)
    modifies record, llm, memory
    ensures Outcome(status, WorldOf(record, llm, memory)) == DrugStep(old(WorldOf(record, llm, memory)), EnvOf(llm, memory, store))
  {
    var meds := NormalizeMeds(Get(record.entries, "medications"));
    var r := RunDrugInteractions(meds, GetOr(record.entries, "diagnosis", Str("")), llm);
    status := StoreReply(record, memory, r, "interaction_report", "drug_checker");
  }

  method TreatmentNode(record: CaseRecord, llm: Invoker, memory: CaseMemory, store: Retriever) returns (status: Status)
    modifies record, llm, memory
    ensures Outcome(status, WorldOf(record, llm, memory)) == TreatmentStep(old(WorldOf(record, llm, memory)), EnvOf(llm, memory, store))
  {
    var r := RunTreatmentPlan(Get(record.entries, "patient_profile"), llm);
    status := StoreReply(record, memory, r, "treatment_plan", "treatment_plan");
  }

  method InjectRetrievedContext(record: CaseRecord, llm: Invoker, memory: CaseMemory, store: Retriever) returns (status: Status)
    modifies record
    ensures Outcome(status, WorldOf(record, llm, memory)) == InjectStep(old(WorldOf(record, llm, memory)), EnvOf(llm, memory, store))
  {
    var query := Query(record.entries);
    if !Truthy(query) || store.NoRetriever? {
      return Done;
    }
    record.Set("context", Str(Join(store.similaritySearch(query), "\n")));
    status := Done;
  }
}
