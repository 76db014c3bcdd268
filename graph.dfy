/**
  The routing state machine of `build_graph`: entry at `inject_context`, two
  conditional edges (on `question` and on `ehr_text`), four fixed edges, and
  a driver that runs one step per state until `END` or until a step raises.
  Also `serialize_state`.
*/
module Graph {
  import opened Wrappers
  import opened Values
  import opened Llm
  import opened Templates
  import opened Memory
  import opened AgentState
  import opened Nodes

  datatype Node = InjectContext | SymptomChecker | EhrSummarizer | LiteratureQa | DrugChecker | TreatmentPlanner | End

  /** The entry point. */
  const Entry: Node := InjectContext

  /** How many steps at most remain from a state. */
  function Rank(n: Node): nat
  {
    match n
    case InjectContext => 5
    case SymptomChecker => 4
    case EhrSummarizer => 3
    case LiteratureQa => 3
    case DrugChecker => 2
    case TreatmentPlanner => 1
    case End => 0
  }

  /** The edges, evaluated on the record a step leaves behind; `END` has no successor. */
  function Next(n: Node, entries: map<string, Value>): (m: Node)
    ensures n != End ==> Rank(m) < Rank(n)
  {
    match n
    case InjectContext => if IsSet(entries, "question") then LiteratureQa else SymptomChecker
    case SymptomChecker => if IsSet(entries, "ehr_text") then EhrSummarizer else DrugChecker
    case EhrSummarizer => DrugChecker
    case LiteratureQa => DrugChecker
    case DrugChecker => TreatmentPlanner
    case TreatmentPlanner => End
    case End => End
  }

  /** The states visited from `n` onwards when the record's routing fields stay as they are. */
  function Walk(n: Node, entries: map<string, Value>): seq<Node>
    decreases Rank(n)
  {
    if n == End then [] else [n] + Walk(Next(n, entries), entries)
  }

  /** The three routes, written out. */
  function Route(entries: map<string, Value>): seq<Node>
  {
    if IsSet(entries, "question") then [InjectContext, LiteratureQa, DrugChecker, TreatmentPlanner]
    else if IsSet(entries, "ehr_text") then [InjectContext, SymptomChecker, EhrSummarizer, DrugChecker, TreatmentPlanner]
    else [InjectContext, SymptomChecker, DrugChecker, TreatmentPlanner]
  }

  /** Following the edges from the entry point gives one of the three routes. */
  lemma WalkIsRoute(entries: map<string, Value>)
    ensures Walk(Entry, entries) == Route(entries)
  {
  }

  /**
    Every route starts at the entry point, visits no state twice, ends with
    the drug checker and then the treatment planner, and has 4 or 5 steps.
  */
  lemma RouteShape(entries: map<string, Value>)
    ensures var r := Route(entries);
      (|r| == 4 || |r| == 5) && r[0] == Entry && End !in r &&
      r[|r| - 2] == DrugChecker && r[|r| - 1] == TreatmentPlanner &&
      (forall i, j :: 0 <= i < j < |r| ==> r[i] != r[j])
  {
  }

  /** With a question (even an empty one) the run goes to the literature step and never checks symptoms or summarises a record. */
  lemma RouteWithQuestion(entries: map<string, Value>)
    requires IsSet(entries, "question")
    ensures Route(entries)[1] == LiteratureQa
    ensures SymptomChecker !in Route(entries) && EhrSummarizer !in Route(entries)
    ensures IsSet(entries["question" := Str("")], "question")
  {
  }

  /** Without a question the symptom checker runs first, then the record summariser exactly when there is a record, then the drug checker. */
  lemma RouteWithoutQuestion(entries: map<string, Value>)
    requires !IsSet(entries, "question")
    ensures Route(entries)[1] == SymptomChecker && LiteratureQa !in Route(entries)
    ensures EhrSummarizer in Route(entries) <==> IsSet(entries, "ehr_text")
    ensures Route(entries)[2] == (if IsSet(entries, "ehr_text") then EhrSummarizer else DrugChecker)
  {
  }

  // ---------------------------------------------------------------------
  // Running the graph
  // ---------------------------------------------------------------------

  function StepSpec(n: Node, w: World, env: Env): Outcome
  {
    match n
    case InjectContext => InjectStep(w, env)
    case SymptomChecker => SymptomStep(w, env)
    case EhrSummarizer => EhrStep(w, env)
    case LiteratureQa => LiteratureStep(w, env)
    case DrugChecker => DrugStep(w, env)
    case TreatmentPlanner => TreatmentStep(w, env)
    case End => Outcome(Done, w)
  }

  /** A finished run: the states whose steps ran (the last one raised if the status is a failure) and the final world. */
  datatype Run = Run(path: seq<Node>, status: Status, world: World)

  /** What the compiled graph calls in each state. */
  type Stepper = (Node, World) -> Outcome

  /** Running the graph from state `n` with the node functions `step`: a step that raises ends the run, nothing catches it. */
  function RunWith(n: Node, w: World, step: Stepper): Run
    decreases Rank(n)
  {
    if n == End then Run([], Done, w)
    else
      var o := step(n, w);
      if o.status.Failed? then Run([n], o.status, o.world)
      else
        var rest := RunWith(Next(n, o.world.entries), o.world, step);
        Run([n] + rest.path, rest.status, rest.world)
  }

  /** The node functions `build_graph` registers. */
  function Steps(env: Env): Stepper
  {
    (n: Node, w: World) => StepSpec(n, w, env)
  }

  /** A run of the pipeline from state `n`. */
  function RunFrom(n: Node, w: World, env: Env): Run
  {
    RunWith(n, w, Steps(env))
  }

  /** The field a step writes. */
  function OutputKey(n: Node): string
  {
    match n
    case InjectContext => "context"
    case SymptomChecker => "diagnosis"
    case EhrSummarizer => "summary"
    case LiteratureQa => "literature_answer"
    case DrugChecker => "interaction_report"
    case TreatmentPlanner => "treatment_plan"
    case End => ""
  }

  /** The memory tag a model step stores its answer under. */
  function Source(n: Node): string
  {
    match n
    case SymptomChecker => "diagnosis"
    case EhrSummarizer => "ehr_summary"
    case LiteratureQa => "literature_qa"
    case DrugChecker => "drug_checker"
    case TreatmentPlanner => "treatment_plan"
    case _ => ""
  }

  predicate ModelNode(n: Node)
  {
    n != InjectContext && n != End
  }

  /** A step leaves the two fields the edges test as they were. */
  predicate KeepsRouting(w: World, o: Outcome)
  {
    Get(o.world.entries, "question") == Get(w.entries, "question") &&
    Get(o.world.entries, "ehr_text") == Get(w.entries, "ehr_text")
  }

  /** A step writes at most its own field, and a model step that completes leaves a value there. */
  predicate WritesOwnField(n: Node, w: World, o: Outcome)
  {
    (o.world.entries == w.entries ||
     (OutputKey(n) in o.world.entries && o.world.entries == w.entries[OutputKey(n) := o.world.entries[OutputKey(n)]])) &&
    (ModelNode(n) && o.status.Done? ==> IsSet(o.world.entries, OutputKey(n)))
  }

  /**
    A model step that completes appends one memory entry under its tag and
    makes one model call; one that raises leaves memory alone; the injection
    step never raises and touches neither memory nor the model.
  */
  predicate MemoryFrame(n: Node, w: World, o: Outcome)
  {
    (ModelNode(n) && o.status.Done? ==>
       o.world.memory.metadata == w.memory.metadata + [MetaEntry(Source(n), [])] &&
       |o.world.memory.documents| == |w.memory.documents| + 1 &&
       |o.world.memory.index| == |w.memory.index| + 1 &&
       |o.world.calls| == |w.calls| + 1) &&
    (ModelNode(n) && o.status.Failed? ==> o.world.memory == w.memory) &&
    (n == InjectContext ==> o.status.Done? && o.world.memory == w.memory && o.world.calls == w.calls)
  }

  /** The frame of one step in state `n` that turned `w` into `o`. */
  predicate StepShape(n: Node, w: World, o: Outcome)
  {
    KeepsRouting(w, o) && WritesOwnField(n, w, o) && MemoryFrame(n, w, o)
  }

  /** Every step of `step` has the frame of its state; kept as three quantifiers so that a proof opens only the part it needs. */
  ghost predicate Framed(step: Stepper)
  {
    RoutingFramed(step) && FieldsFramed(step) && MemoryFramed(step)
  }

  ghost predicate RoutingFramed(step: Stepper)
  {
    forall n: Node, w: World {:trigger KeepsRouting(w, step(n, w))} :: n != End ==> KeepsRouting(w, step(n, w))
  }

  ghost predicate FieldsFramed(step: Stepper)
  {
    forall n: Node, w: World {:trigger WritesOwnField(n, w, step(n, w))} :: n != End ==> WritesOwnField(n, w, step(n, w))
  }

  ghost predicate MemoryFramed(step: Stepper)
  {
    forall n: Node, w: World {:trigger MemoryFrame(n, w, step(n, w))} :: n != End ==> MemoryFrame(n, w, step(n, w))
  }

  lemma ModelStepShape(n: Node, w: World, env: Env, prompt: Result<string>)
    requires ModelNode(n)
    ensures StepShape(n, w, ModelStep(w, env, prompt, OutputKey(n), Source(n)))
  {
    ModelStepEffect(w, env, prompt, OutputKey(n), Source(n));
    assert OutputKey(n) != "question" && OutputKey(n) != "ehr_text";
  }

  /** Each of the six steps has the frame of its state. */
  lemma StepFrame(n: Node, w: World, env: Env)
    requires n != End
    ensures StepShape(n, w, StepSpec(n, w, env))
  {
    match n {
      case InjectContext =>
        InjectStepEffect(w, env);
        assert "context" != "question" && "context" != "ehr_text";
      case SymptomChecker =>
        ModelStepShape(n, w, env, Ok(SymptomPrompt(Get(w.entries, "symptoms"))));
      case EhrSummarizer =>
        ModelStepShape(n, w, env, Ok(EhrSummaryPrompt(Get(w.entries, "ehr_text"))));
      case LiteratureQa =>
        var c := LiteratureContext(w, env);
        if c.Ok? {
          ModelStepShape(n, w, env, Ok(LiteratureQaPrompt(Get(w.entries, "question"), Str(c.value))));
        }
      case DrugChecker =>
        ModelStepShape(n, w, env, DrugInteractionPrompt(NormalizeMeds(Get(w.entries, "medications")), GetOr(w.entries, "diagnosis", Str(""))));
      case TreatmentPlanner =>
        ModelStepShape(n, w, env, TreatmentPrompt(Get(w.entries, "patient_profile")));
    }
  }

  lemma StepsFramed(env: Env)
    ensures Framed(Steps(env))
  {
    forall n: Node, w: World | n != End
      ensures StepShape(n, w, Steps(env)(n, w))
    {
      StepFrame(n, w, env);
    }
    assert RoutingFramed(Steps(env));
    assert FieldsFramed(Steps(env));
  }

  lemma {:induction false} WalkFrame(n: Node, e1: map<string, Value>, e2: map<string, Value>)
    requires Get(e1, "question") == Get(e2, "question") && Get(e1, "ehr_text") == Get(e2, "ehr_text")
    ensures Walk(n, e1) == Walk(n, e2)
    decreases Rank(n)
  {
    if n != End {
      WalkFrame(Next(n, e1), e1, e2);
    }
  }

  /**
    A run follows the edges: its path is a non-empty prefix of the walk from
    its first state, and the whole walk when no step raised.
  */
  lemma {:induction false} RunFollowsWalk(n: Node, w: World, step: Stepper)
    requires n != End && Framed(step)
    ensures var r := RunWith(n, w, step);
      var walk := Walk(n, w.entries);
      1 <= |r.path| <= |walk| && r.path == walk[..|r.path|] &&
      (r.status.Done? ==> r.path == walk)
    decreases Rank(n)
  {
    var o := step(n, w);
    assert KeepsRouting(w, o);
    if o.status.Done? {
      var m := Next(n, o.world.entries);
      WalkFrame(m, o.world.entries, w.entries);
      if m != End {
        RunFollowsWalk(m, o.world, step);
      }
    }
  }

  /** The output fields of the model steps on a path. */
  function Outputs(path: seq<Node>): set<string>
    decreases |path|
  {
    if path == [] then {}
    else (if ModelNode(path[0]) then {OutputKey(path[0])} else {}) + Outputs(path[1..])
  }

  /** The metadata the model steps on a path append to memory, in order. */
  function Metas(path: seq<Node>): seq<Value>
    decreases |path|
  {
    if path == [] then []
    else (if ModelNode(path[0]) then [MetaEntry(Source(path[0]), [])] else []) + Metas(path[1..])
  }

  lemma OutputsCons(n: Node, path: seq<Node>)
    ensures Outputs([n] + path) == (if ModelNode(n) then {OutputKey(n)} else {}) + Outputs(path)
  {
    assert ([n] + path)[1..] == path;
  }

  lemma MetasCons(n: Node, path: seq<Node>)
    ensures Metas([n] + path) == (if ModelNode(n) then [MetaEntry(Source(n), [])] else []) + Metas(path)
  {
    assert ([n] + path)[1..] == path;
  }

  /**
    A field other than `context` is set after a run only if it was set
    before or a model step on the path writes it; when the run completes,
    exactly those fields are set.
  */
  lemma {:induction false} RunOutputs(n: Node, w: World, step: Stepper, k: string)
    requires k != "context" && Framed(step)
    ensures var r := RunWith(n, w, step);
      (IsSet(r.world.entries, k) ==> IsSet(w.entries, k) || k in Outputs(r.path)) &&
      (r.status.Done? ==> (IsSet(r.world.entries, k) <==> IsSet(w.entries, k) || k in Outputs(r.path)))
    decreases Rank(n)
  {
    if n != End {
      var o := step(n, w);
      assert WritesOwnField(n, w, o);
      if o.status.Failed? {
        OutputsCons(n, []);
        assert [n] + [] == [n];
      } else {
        var m := Next(n, o.world.entries);
        var rest := RunWith(m, o.world, step);
        RunOutputs(m, o.world, step, k);
        OutputsCons(n, rest.path);
      }
    }
  }

  /** The states on a run's path lie strictly after the states before them, so no state repeats. */
  lemma {:induction false} RunPathRanks(n: Node, w: World, step: Stepper)
    ensures var p := RunWith(n, w, step).path;
      forall j :: 0 <= j < |p| ==> p[j] != End && Rank(p[j]) <= Rank(n)
    decreases Rank(n)
  {
    if n != End {
      var o := step(n, w);
      if o.status.Done? {
        RunPathRanks(Next(n, o.world.entries), o.world, step);
      }
    }
  }

  lemma OutputKeyInjective(a: Node, b: Node)
    requires a != End && b != End && OutputKey(a) == OutputKey(b)
    ensures a == b
  {
  }

  /** No state on `path` writes field `k`. */
  predicate Untouched(path: seq<Node>, k: string)
  {
    forall j :: 0 <= j < |path| ==> OutputKey(path[j]) != k
  }

  /** Field `k` holds the same thing, or is absent, in both records. */
  predicate SameField(e1: map<string, Value>, e2: map<string, Value>, k: string)
  {
    (k in e1 <==> k in e2) && (k in e1 ==> e1[k] == e2[k])
  }

  lemma UntouchedCons(n: Node, path: seq<Node>, k: string)
    ensures Untouched([n] + path, k) <==> OutputKey(n) != k && Untouched(path, k)
  {
    assert ([n] + path)[0] == n;
    assert forall j :: 0 <= j < |path| ==> path[j] == ([n] + path)[j + 1];
    if OutputKey(n) != k && Untouched(path, k) {
      forall j | 0 <= j < |[n] + path|
        ensures OutputKey(([n] + path)[j]) != k
      {
        if j > 0 {
          assert ([n] + path)[j] == path[j - 1];
        }
      }
    }
  }

  /** A field that no step on the path writes is, after the run, exactly as it was. */
  lemma {:induction false} RunLeavesField(n: Node, w: World, step: Stepper, k: string)
    requires FieldsFramed(step)
    ensures var r := RunWith(n, w, step);
      Untouched(r.path, k) ==> SameField(r.world.entries, w.entries, k)
    decreases Rank(n)
  {
    if n != End {
      var o := step(n, w);
      assert WritesOwnField(n, w, o);
      if o.status.Done? {
        var m := Next(n, o.world.entries);
        var rest := RunWith(m, o.world, step);
        RunLeavesField(m, o.world, step, k);
        UntouchedCons(n, rest.path, k);
      } else {
        UntouchedCons(n, [], k);
        assert [n] + [] == [n];
      }
    }
  }

  /**
    Every model step on `r`'s path except the last has its output field
    set in `r`'s final record.
  */
  predicate EarlierOutputsSet(r: Run)
  {
    forall j :: 0 <= j < |r.path| - 1 && ModelNode(r.path[j]) ==> IsSet(r.world.entries, OutputKey(r.path[j]))
  }

  /**
    The fields written before a failure stay written: every model step on
    the path except the last (the one that raised, when the run failed)
    leaves its output field set in the final record.
  */
  lemma {:induction false} RunKeepsEarlierOutputs(n: Node, w: World, step: Stepper)
    requires FieldsFramed(step)
    ensures EarlierOutputsSet(RunWith(n, w, step))
    decreases Rank(n)
  {
    if n != End {
      var o := step(n, w);
      assert WritesOwnField(n, w, o);
      if o.status.Done? {
        var m := Next(n, o.world.entries);
        var rest := RunWith(m, o.world, step);
        var r := RunWith(n, w, step);
        assert r.path == [n] + rest.path;
        RunKeepsEarlierOutputs(m, o.world, step);
        if ModelNode(n) && |rest.path| > 0 {
          RunPathRanks(m, o.world, step);
          forall j | 0 <= j < |rest.path|
            ensures OutputKey(rest.path[j]) != OutputKey(n)
          {
            if OutputKey(rest.path[j]) == OutputKey(n) {
              OutputKeyInjective(rest.path[j], n);
            }
          }
          RunLeavesField(m, o.world, step, OutputKey(n));
        }
        forall j | 1 <= j < |r.path| - 1 && ModelNode(r.path[j])
          ensures IsSet(r.world.entries, OutputKey(r.path[j]))
        {
          assert r.path[j] == rest.path[j - 1];
        }
      }
    }
  }

  /** The metadata a completed run appends: one entry per model step, tagged in path order. */
  lemma {:induction false} RunMetadata(n: Node, w: World, step: Stepper)
    requires MemoryFramed(step)
    ensures var r := RunWith(n, w, step);
      r.status.Done? ==> r.world.memory.metadata == w.memory.metadata + Metas(r.path)
    decreases Rank(n)
  {
    if n != End {
      var o := step(n, w);
      assert MemoryFrame(n, w, o);
      if o.status.Done? {
        var m := Next(n, o.world.entries);
        var rest := RunWith(m, o.world, step);
        RunMetadata(m, o.world, step);
        if rest.status.Done? {
          MetadataStep(n, w, o, rest);
        }
      }
    }
  }

  /** One completed step followed by the completed rest of the run. */
  lemma MetadataStep(n: Node, w: World, o: Outcome, rest: Run)
    requires n != End && MemoryFrame(n, w, o) && o.status.Done?
    requires rest.world.memory.metadata == o.world.memory.metadata + Metas(rest.path)
    ensures rest.world.memory.metadata == w.memory.metadata + Metas([n] + rest.path)
  {
    MetasCons(n, rest.path);
    var e: seq<Value> := if ModelNode(n) then [MetaEntry(Source(n), [])] else [];
    assert o.world.memory.metadata == w.memory.metadata + e;
    assert w.memory.metadata + e + Metas(rest.path) == w.memory.metadata + (e + Metas(rest.path));
  }

  /** A completed run appends one document and makes one model call per model step. */
  lemma {:induction false} RunCounts(n: Node, w: World, step: Stepper)
    requires MemoryFramed(step)
    ensures var r := RunWith(n, w, step);
      r.status.Done? ==>
         |r.world.memory.documents| == |w.memory.documents| + |Metas(r.path)| &&
         |r.world.calls| == |w.calls| + |Metas(r.path)|
    decreases Rank(n)
  {
    if n != End {
      var o := step(n, w);
      assert MemoryFrame(n, w, o);
      if o.status.Done? {
        var m := Next(n, o.world.entries);
        var rest := RunWith(m, o.world, step);
        RunCounts(m, o.world, step);
        MetasCons(n, rest.path);
      }
    }
  }

  /**
    Memory along a completed run: every model step appends one document and
    its metadata `{"source": tag, "tags": {}}`, in path order, and makes
    one model call.
  */
  lemma RunMemory(n: Node, w: World, step: Stepper)
    requires Framed(step)
    ensures var r := RunWith(n, w, step);
      r.status.Done? ==>
         r.world.memory.metadata == w.memory.metadata + Metas(r.path) &&
         |r.world.memory.documents| == |w.memory.documents| + |Metas(r.path)| &&
         |r.world.calls| == |w.calls| + |Metas(r.path)|
  {
    RunMetadata(n, w, step);
    RunCounts(n, w, step);
  }

  /** Whether or not a run completes, the lists stay parallel and the index stays in step with them. */
  lemma {:induction false} RunKeepsMemoryInvariants(n: Node, w: World, step: Stepper)
    requires Framed(step)
    ensures Parallel(w.memory) ==> Parallel(RunWith(n, w, step).world.memory)
    ensures Indexed(w.memory) ==> Indexed(RunWith(n, w, step).world.memory)
    decreases Rank(n)
  {
    if n != End {
      var o := step(n, w);
      assert MemoryFrame(n, w, o);
      if o.status.Done? {
        RunKeepsMemoryInvariants(Next(n, o.world.entries), o.world, step);
      }
    }
  }

  /** Fields a run writes: none of them is set before the run. */
  predicate NoOutputs(entries: map<string, Value>)
  {
    !IsSet(entries, "diagnosis") && !IsSet(entries, "summary") && !IsSet(entries, "literature_answer") &&
    !IsSet(entries, "interaction_report") && !IsSet(entries, "treatment_plan")
  }

  /** The memory tags of a route, written out. */
  function RouteMetas(e: map<string, Value>): seq<Value>
  {
    if IsSet(e, "question") then
      [MetaEntry("literature_qa", []), MetaEntry("drug_checker", []), MetaEntry("treatment_plan", [])]
    else if IsSet(e, "ehr_text") then
      [MetaEntry("diagnosis", []), MetaEntry("ehr_summary", []), MetaEntry("drug_checker", []), MetaEntry("treatment_plan", [])]
    else
      [MetaEntry("diagnosis", []), MetaEntry("drug_checker", []), MetaEntry("treatment_plan", [])]
  }

  lemma RouteOutputs(e: map<string, Value>)
    ensures Outputs(Route(e)) ==
      if IsSet(e, "question") then {"literature_answer", "interaction_report", "treatment_plan"}
      else if IsSet(e, "ehr_text") then {"diagnosis", "summary", "interaction_report", "treatment_plan"}
      else {"diagnosis", "interaction_report", "treatment_plan"}
    ensures Metas(Route(e)) == RouteMetas(e)
  {
    TailOutputs();
    if IsSet(e, "question") {
      LiteratureRouteOutputs();
    } else if IsSet(e, "ehr_text") {
      RecordRouteOutputs();
    } else {
      SymptomRouteOutputs();
    }
  }

  /** The two steps every route ends with. */
  lemma TailOutputs()
    ensures Outputs([DrugChecker, TreatmentPlanner]) == {"interaction_report", "treatment_plan"}
    ensures Metas([DrugChecker, TreatmentPlanner]) == [MetaEntry("drug_checker", []), MetaEntry("treatment_plan", [])]
  {
    OutputsCons(TreatmentPlanner, []);
    MetasCons(TreatmentPlanner, []);
    assert [TreatmentPlanner] + [] == [TreatmentPlanner];
    OutputsCons(DrugChecker, [TreatmentPlanner]);
    MetasCons(DrugChecker, [TreatmentPlanner]);
    assert [DrugChecker] + [TreatmentPlanner] == [DrugChecker, TreatmentPlanner];
  }

  lemma LiteratureRouteOutputs()
    requires Outputs([DrugChecker, TreatmentPlanner]) == {"interaction_report", "treatment_plan"}
    requires Metas([DrugChecker, TreatmentPlanner]) == [MetaEntry("drug_checker", []), MetaEntry("treatment_plan", [])]
    ensures Outputs([InjectContext, LiteratureQa, DrugChecker, TreatmentPlanner]) == {"literature_answer", "interaction_report", "treatment_plan"}
    ensures Metas([InjectContext, LiteratureQa, DrugChecker, TreatmentPlanner]) ==
      [MetaEntry("literature_qa", []), MetaEntry("drug_checker", []), MetaEntry("treatment_plan", [])]
  {
    var tail := [DrugChecker, TreatmentPlanner];
    OutputsCons(LiteratureQa, tail);
    MetasCons(LiteratureQa, tail);
    assert [LiteratureQa] + tail == [LiteratureQa, DrugChecker, TreatmentPlanner];
    OutputsCons(InjectContext, [LiteratureQa] + tail);
    MetasCons(InjectContext, [LiteratureQa] + tail);
    assert [InjectContext] + ([LiteratureQa] + tail) == [InjectContext, LiteratureQa, DrugChecker, TreatmentPlanner];
  }

  lemma RecordRouteOutputs()
    requires Outputs([DrugChecker, TreatmentPlanner]) == {"interaction_report", "treatment_plan"}
    requires Metas([DrugChecker, TreatmentPlanner]) == [MetaEntry("drug_checker", []), MetaEntry("treatment_plan", [])]
    ensures Outputs([InjectContext, SymptomChecker, EhrSummarizer, DrugChecker, TreatmentPlanner]) ==
      {"diagnosis", "summary", "interaction_report", "treatment_plan"}
    ensures Metas([InjectContext, SymptomChecker, EhrSummarizer, DrugChecker, TreatmentPlanner]) ==
      [MetaEntry("diagnosis", []), MetaEntry("ehr_summary", []), MetaEntry("drug_checker", []), MetaEntry("treatment_plan", [])]
  {
    var tail := [DrugChecker, TreatmentPlanner];
    OutputsCons(EhrSummarizer, tail);
    MetasCons(EhrSummarizer, tail);
    var t2 := [EhrSummarizer] + tail;
    OutputsCons(SymptomChecker, t2);
    MetasCons(SymptomChecker, t2);
    var t3 := [SymptomChecker] + t2;
    OutputsCons(InjectContext, t3);
    MetasCons(InjectContext, t3);
    assert [InjectContext] + t3 == [InjectContext, SymptomChecker, EhrSummarizer, DrugChecker, TreatmentPlanner];
  }

  lemma SymptomRouteOutputs()
    requires Outputs([DrugChecker, TreatmentPlanner]) == {"interaction_report", "treatment_plan"}
    requires Metas([DrugChecker, TreatmentPlanner]) == [MetaEntry("drug_checker", []), MetaEntry("treatment_plan", [])]
    ensures Outputs([InjectContext, SymptomChecker, DrugChecker, TreatmentPlanner]) == {"diagnosis", "interaction_report", "treatment_plan"}
    ensures Metas([InjectContext, SymptomChecker, DrugChecker, TreatmentPlanner]) ==
      [MetaEntry("diagnosis", []), MetaEntry("drug_checker", []), MetaEntry("treatment_plan", [])]
  {
    var tail := [DrugChecker, TreatmentPlanner];
    OutputsCons(SymptomChecker, tail);
    MetasCons(SymptomChecker, tail);
    var t2 := [SymptomChecker] + tail;
    OutputsCons(InjectContext, t2);
    MetasCons(InjectContext, t2);
    assert [InjectContext] + t2 == [InjectContext, SymptomChecker, DrugChecker, TreatmentPlanner];
  }

  /**
    A completed run on a fresh record takes the route and leaves exactly
    the fields of its route set: the interaction report and the treatment
    plan always, the literature answer exactly when there is a question,
    the diagnosis exactly when there is not, and the summary exactly when
    there is no question but a record; memory gains one entry per model
    step, tagged in route order, and one model call is made per model step.
  */
  lemma FinalRecordWith(w: World, step: Stepper)
    requires NoOutputs(w.entries) && Framed(step)
    ensures var r := RunWith(Entry, w, step);
      var e := w.entries;
      var f := r.world.entries;
      r.status.Done? ==>
        r.path == Route(e) &&
        IsSet(f, "interaction_report") && IsSet(f, "treatment_plan") &&
        (IsSet(f, "literature_answer") <==> IsSet(e, "question")) &&
        (IsSet(f, "diagnosis") <==> !IsSet(e, "question")) &&
        (IsSet(f, "summary") <==> !IsSet(e, "question") && IsSet(e, "ehr_text")) &&
        r.world.memory.metadata == w.memory.metadata + RouteMetas(e) &&
        |r.world.calls| == |w.calls| + |Route(e)| - 1
  {
    RunFollowsWalk(Entry, w, step);
    WalkIsRoute(w.entries);
    RunMemory(Entry, w, step);
    RunOutputs(Entry, w, step, "diagnosis");
    RunOutputs(Entry, w, step, "summary");
    RunOutputs(Entry, w, step, "literature_answer");
    RunOutputs(Entry, w, step, "interaction_report");
    RunOutputs(Entry, w, step, "treatment_plan");
    RouteOutputs(w.entries);
  }

  /**
    A completed run on a fresh record takes the route and leaves exactly
    the fields of its route set: the interaction report and the treatment
    plan always, the literature answer exactly when there is a question,
    the diagnosis exactly when there is not, and the summary exactly when
    there is no question but a record; memory gains one entry per model
    step, tagged in route order, and one model call is made per model step.
  */
  lemma FinalRecord(w: World, env: Env)
    requires NoOutputs(w.entries)
    ensures var r := RunFrom(Entry, w, env);
      var e := w.entries;
      var f := r.world.entries;
      r.status.Done? ==>
        r.path == Route(e) &&
        IsSet(f, "interaction_report") && IsSet(f, "treatment_plan") &&
        (IsSet(f, "literature_answer") <==> IsSet(e, "question")) &&
        (IsSet(f, "diagnosis") <==> !IsSet(e, "question")) &&
        (IsSet(f, "summary") <==> !IsSet(e, "question") && IsSet(e, "ehr_text")) &&
        r.world.memory.metadata == w.memory.metadata + RouteMetas(e) &&
        |r.world.calls| == |w.calls| + |Route(e)| - 1
  {
    StepsFramed(env);
    FinalRecordWith(w, Steps(env));
  }

  /** A run that raised wrote no field of the steps after the failing one. */
  lemma FailedRunStops(w: World, env: Env, k: string)
    requires k != "context" && !IsSet(w.entries, k)
    requires k !in Outputs(RunFrom(Entry, w, env).path)
    ensures !IsSet(RunFrom(Entry, w, env).world.entries, k)
  {
    StepsFramed(env);
    RunOutputs(Entry, w, Steps(env), k);
  }

  /**
    A run that raised keeps what it wrote before: for instance a model that
    raises in the drug checker leaves the diagnosis (or the literature
    answer) and the summary that earlier steps wrote.
  */
  lemma FailedRunKeepsEarlier(w: World, env: Env)
    ensures EarlierOutputsSet(RunFrom(Entry, w, env))
  {
    StepsFramed(env);
    RunKeepsEarlierOutputs(Entry, w, Steps(env));
  }

  /** Whatever happens, the pipeline keeps memory's lists parallel and its index in step. */
  lemma RunKeepsMemory(w: World, env: Env)
    ensures Parallel(w.memory) ==> Parallel(RunFrom(Entry, w, env).world.memory)
    ensures Indexed(w.memory) ==> Indexed(RunFrom(Entry, w, env).world.memory)
  {
    StepsFramed(env);
    RunKeepsMemoryInvariants(Entry, w, Steps(env));
  }

  // ---------------------------------------------------------------------
  // When a run completes
  // ---------------------------------------------------------------------

  /** An index of n vectors searched for k neighbours answers as FAISS does: min(k, n) labels of stored vectors, then -1s. */
  ghost predicate FaissSearch(env: Env)
  {
    forall idx: seq<Vector>, q: Vector, k: nat {:trigger env.search(idx, q, k)} :: FaissLabels(env.search(idx, q, k), |idx|, k)
  }

  /** The model answers every prompt, the embedding model encodes every text and the index is searched as FAISS does. */
  ghost predicate Working(env: Env)
  {
    (forall v :: env.encode(v).Some?) && (forall i, p :: env.respond(i, p).Ok?) && FaissSearch(env)
  }

  /** Memory's lists are parallel and hold only strings, one vector per document, so that retrieved texts can be joined. */
  ghost predicate TextMemory(m: MemState)
  {
    Parallel(m) && Indexed(m) && forall i :: 0 <= i < |m.documents| ==> m.documents[i].Str?
  }

  /**
    The two inputs the prompts take apart: medications that join once
    normalised, and a profile that is a dict whose comorbidities (if any) join.
  */
  predicate Formattable(entries: map<string, Value>)
  {
    var profile := Get(entries, "patient_profile");
    JoinValue(NormalizeMeds(Get(entries, "medications")), ", ").Ok? &&
    profile.Dict? && JoinValue(DictGetOr(profile.entries, "comorbidities", List([])), ", ").Ok?
  }

  /**
    A world a run can complete from: textual memory, formattable inputs,
    and, when the literature step must look in memory, at least one stored
    document (the code as written raises on an empty memory).
  */
  ghost predicate Fit(w: World, store: Retriever)
  {
    TextMemory(w.memory) && Formattable(w.entries) && (store.NoRetriever? ==> |w.memory.documents| > 0)
  }

  /** Every step, started on a fitting world, completes and leaves a fitting world. */
  ghost predicate Completes(step: Stepper, store: Retriever)
  {
    forall n: Node, w: World {:trigger step(n, w)} :: n != End && Fit(w, store) ==> step(n, w).status.Done? && Fit(step(n, w).world, store)
  }

  lemma {:induction false} RunWithCompletes(n: Node, w: World, step: Stepper, store: Retriever)
    requires Completes(step, store) && Fit(w, store)
    ensures RunWith(n, w, step).status.Done?
    decreases Rank(n)
  {
    if n != End {
      var o := step(n, w);
      RunWithCompletes(Next(n, o.world.entries), o.world, step, store);
    }
  }

  /** A model step with a prompt that formats completes when the services work, adds one document, keeps memory textual and the inputs as they were. */
  lemma ModelStepCompletes(w: World, env: Env, prompt: Result<string>, key: string, source: string)
    requires Working(env) && prompt.Ok? && TextMemory(w.memory)
    requires key != "medications" && key != "patient_profile"
    ensures var o := ModelStep(w, env, prompt, key, source);
      o.status.Done? && TextMemory(o.world.memory) &&
      |o.world.memory.documents| == |w.memory.documents| + 1 &&
      Get(o.world.entries, "medications") == Get(w.entries, "medications") &&
      Get(o.world.entries, "patient_profile") == Get(w.entries, "patient_profile")
  {
    var asked := Ask(env.respond, w.calls, prompt);
    assert env.respond(|w.calls|, prompt.value).Ok?;
    var v := ReplyValue(asked.0.value);
    assert env.encode(Content(v)).Some?;
    AddKeepsInvariants(w.memory, v, source, [], env.encode);
    var m := AddSpec(w.memory, v, source, [], env.encode).value;
    assert m.documents == w.memory.documents + [Content(v)];
  }

  /**
    With working services and textual memory the literature context can be
    built whenever there is a retriever or memory holds a document: FAISS's
    `-1` labels then read the last document instead of raising.
  */
  lemma LiteratureContextOk(w: World, env: Env)
    requires Working(env) && TextMemory(w.memory)
    requires env.store.NoRetriever? ==> |w.memory.documents| > 0
    ensures LiteratureContext(w, env).Ok?
  {
    LiteratureContextSources(w, env);
    if env.store.NoRetriever? {
      var n := |w.memory.documents|;
      var q := env.encode(Get(w.entries, "question")).value;
      var labels := env.search(w.memory.index, q, 3);
      assert FaissLabels(labels, |w.memory.index|, 3);
      assert forall j :: 0 <= j < |labels| ==> -(n as int) <= labels[j] < n;
      assert Indexable(labels, n);
    }
  }

  /** With working services every step keeps a fitting world fitting and completes. */
  lemma StepCompletes(n: Node, w: World, env: Env)
    requires n != End && Working(env) && Fit(w, env.store)
    ensures StepSpec(n, w, env).status.Done? && Fit(StepSpec(n, w, env).world, env.store)
  {
    match n {
      case InjectContext =>
        InjectStepEffect(w, env);
      case SymptomChecker =>
        ModelStepCompletes(w, env, Ok(SymptomPrompt(Get(w.entries, "symptoms"))), "diagnosis", "diagnosis");
      case EhrSummarizer =>
        ModelStepCompletes(w, env, Ok(EhrSummaryPrompt(Get(w.entries, "ehr_text"))), "summary", "ehr_summary");
      case LiteratureQa =>
        LiteratureContextOk(w, env);
        ModelStepCompletes(w, env, Ok(LiteratureQaPrompt(Get(w.entries, "question"), Str(LiteratureContext(w, env).value))),
                           "literature_answer", "literature_qa");
      case DrugChecker =>
        ModelStepCompletes(w, env, DrugInteractionPrompt(NormalizeMeds(Get(w.entries, "medications")), GetOr(w.entries, "diagnosis", Str(""))),
                           "interaction_report", "drug_checker");
      case TreatmentPlanner =>
        ModelStepCompletes(w, env, TreatmentPrompt(Get(w.entries, "patient_profile")), "treatment_plan", "treatment_plan");
    }
  }

  lemma StepsComplete(env: Env)
    requires Working(env)
    ensures Completes(Steps(env), env.store)
  {
    forall n: Node, w: World | n != End && Fit(w, env.store)
      ensures Steps(env)(n, w).status.Done? && Fit(Steps(env)(n, w).world, env.store)
    {
      StepCompletes(n, w, env);
    }
  }

  /**
    With the embedding model passed through (so the services work), memory
    holding parallel lists of strings beside its index, and medications and
    profile that format, the run completes (and then, by `FinalRecord`,
    takes its route), provided the literature step does not have to look
    up an empty memory.
  */
  lemma RunCompletes(w: World, env: Env)
    requires Working(env) && Fit(w, env.store)
    ensures RunFrom(Entry, w, env).status.Done?
  {
    StepsComplete(env);
    RunWithCompletes(Entry, w, Steps(env), env.store);
  }

  /**
    Even with the embedding model passed through, a question on a fresh
    process with no retriever raises IndexError in the literature step:
    memory is empty, FAISS answers `-1`s, and `documents[-1]` fails. The run
    stops after two states having made no model call and stored nothing.
  */
  lemma FreshQuestionRunRaises(w: World, env: Env)
    requires IsSet(w.entries, "question") && env.store.NoRetriever?
    requires w.memory == MemState([], [], []) && Working(env)
    ensures var r := RunFrom(Entry, w, env);
      r.status.Failed? && r.path == [InjectContext, LiteratureQa] &&
      r.world.memory == w.memory && r.world.calls == w.calls
  {
    var o := Steps(env)(Entry, w);
    InjectStepEffect(w, env);
    assert o.world == w;
    assert Next(Entry, w.entries) == LiteratureQa;
    var q := env.encode(Get(w.entries, "question")).value;
    assert FaissLabels(env.search(w.memory.index, q, 3), |w.memory.index|, 3);
    LiteratureStepFreshRaises(w, env);
    assert Steps(env)(LiteratureQa, w) == LiteratureStep(w, env);
    assert RunWith(LiteratureQa, w, Steps(env)) == Run([LiteratureQa], LiteratureStep(w, env).status, w);
  }

  // ---------------------------------------------------------------------
  // The nodes as wired: no embedding model reaches `add_to_memory`
  // ---------------------------------------------------------------------

  /** Every model step raises and leaves memory as it was. */
  ghost predicate ModelStepsFail(step: Stepper)
  {
    forall n: Node, w: World {:trigger step(n, w)} :: ModelNode(n) ==> step(n, w).status.Failed? && step(n, w).world.memory == w.memory
  }

  lemma RunWithStopsAtFirstModelStep(w: World, step: Stepper)
    requires Framed(step) && ModelStepsFail(step)
    ensures var r := RunWith(Entry, w, step);
      r.status.Failed? && r.path == Route(w.entries)[..2] && r.world.memory == w.memory
  {
    var o := step(Entry, w);
    assert KeepsRouting(w, o) && MemoryFrame(Entry, w, o);
    var m := Next(Entry, o.world.entries);
    assert ModelNode(m);
    var o2 := step(m, o.world);
    assert RunWith(m, o.world, step) == Run([m], o2.status, o2.world);
    assert [Entry] + [m] == Route(w.entries)[..2];
  }

  /** Without an embedding model a model step raises whatever the model answers, and memory stays as it was. */
  lemma UnwiredModelStepFails(w: World, env: Env, prompt: Result<string>, key: string, source: string)
    requires forall v :: env.encode(v).None?
    ensures ModelStep(w, env, prompt, key, source).status.Failed?
    ensures ModelStep(w, env, prompt, key, source).world.memory == w.memory
  {
    var asked := Ask(env.respond, w.calls, prompt);
    if asked.0.Ok? {
      assert env.encode(Content(ReplyValue(asked.0.value))).None?;
    }
  }

  /**
    Without an embedding model every model step raises: the answer is
    written to the record and the step raises before anything reaches
    memory, or the literature step raises looking memory up.
  */
  lemma UnwiredStepFails(n: Node, w: World, env: Env)
    requires ModelNode(n) && forall v :: env.encode(v).None?
    ensures StepSpec(n, w, env).status.Failed? && StepSpec(n, w, env).world.memory == w.memory
  {
    match n {
      case SymptomChecker =>
        UnwiredModelStepFails(w, env, Ok(SymptomPrompt(Get(w.entries, "symptoms"))), "diagnosis", "diagnosis");
      case EhrSummarizer =>
        UnwiredModelStepFails(w, env, Ok(EhrSummaryPrompt(Get(w.entries, "ehr_text"))), "summary", "ehr_summary");
      case LiteratureQa =>
        var c := LiteratureContext(w, env);
        if c.Ok? {
          UnwiredModelStepFails(w, env, Ok(LiteratureQaPrompt(Get(w.entries, "question"), Str(c.value))), "literature_answer", "literature_qa");
        }
      case DrugChecker =>
        UnwiredModelStepFails(w, env, DrugInteractionPrompt(NormalizeMeds(Get(w.entries, "medications")), GetOr(w.entries, "diagnosis", Str(""))),
                              "interaction_report", "drug_checker");
      case TreatmentPlanner =>
        UnwiredModelStepFails(w, env, TreatmentPrompt(Get(w.entries, "patient_profile")), "treatment_plan", "treatment_plan");
    }
  }

  /**
    As the nodes are written, `add_to_memory` gets no embedding model, so
    every run raises in the state after the entry point with memory
    unchanged: the drug checker and the treatment planner never run.
  */
  lemma UnwiredRunFails(w: World, env: Env)
    requires forall v :: env.encode(v).None?
    ensures var r := RunFrom(Entry, w, env);
      r.status.Failed? && r.path == Route(w.entries)[..2] && r.world.memory == w.memory &&
      DrugChecker !in r.path && TreatmentPlanner !in r.path
  {
    StepsFramed(env);
    forall n: Node, w': World | ModelNode(n)
      ensures Steps(env)(n, w').status.Failed? && Steps(env)(n, w').world.memory == w'.memory
    {
      UnwiredStepFails(n, w', env);
    }
    RunWithStopsAtFirstModelStep(w, Steps(env));
  }

  // ---------------------------------------------------------------------
  // The compiled graph, run on a record
  // ---------------------------------------------------------------------

  /** A run that follows the steps already taken. */
  function Then(taken: seq<Node>, r: Run): (t: Run)
    ensures t.status == r.status && t.world == r.world && |t.path| == |taken| + |r.path|
  {
    Run(taken + r.path, r.status, r.world)
  }

  /** The run from `n` is the step in `n` followed by the run from the next state, unless the step raises. */
  lemma RunWithStep(n: Node, w: World, step: Stepper)
    requires n != End
    ensures var o := step(n, w);
      RunWith(n, w, step) ==
        if o.status.Failed? then Then([n], Run([], o.status, o.world))
        else Then([n], RunWith(Next(n, o.world.entries), o.world, step))
  {
    assert [n] + [] == [n];
  }

  lemma ThenThen(a: seq<Node>, b: seq<Node>, r: Run)
    ensures Then(a, Then(b, r)) == Then(a + b, r)
  {
    assert a + (b + r.path) == (a + b) + r.path;
  }

  /** Whichever node function state `n` names. */
  method Step(n: Node, record: CaseRecord, llm: Invoker, memory: CaseMemory, store: Retriever) returns (status: Status)
    requires n != End
    modifies record, llm, memory
    ensures Outcome(status, WorldOf(record, llm, memory)) == StepSpec(n, old(WorldOf(record, llm, memory)), EnvOf(llm, memory, store))
  {
    match n {
      case InjectContext => status := InjectRetrievedContext(record, llm, memory, store);
      case SymptomChecker => status := SymptomNode(record, llm, memory, store);
      case EhrSummarizer => status := EhrNode(record, llm, memory, store);
      case LiteratureQa => status := LiteratureNode(record, llm, memory, store);
      case DrugChecker => status := DrugNode(record, llm, memory, store);
      case TreatmentPlanner => status := TreatmentNode(record, llm, memory, store);
    }
  }

  /**
    `build_graph(...).invoke(state)`: from the entry point, run the step of
    the current state and follow the edge the updated record selects, until
    `END`; a step that raises ends the run with its error. Returns the
    states whose steps ran.
  */
  method RunGraph(record: CaseRecord, llm: Invoker, memory: CaseMemory, store: Retriever)
    returns (path: seq<Node>, status: Status)
    modifies record, llm, memory
    ensures Run(path, status, WorldOf(record, llm, memory)) == RunFrom(Entry, old(WorldOf(record, llm, memory)), EnvOf(llm, memory, store))
  {
    var env := EnvOf(llm, memory, store);
    var node := Entry;
    path := [];
    status := Done;
    assert [] + RunFrom(node, WorldOf(record, llm, memory), env).path == RunFrom(node, WorldOf(record, llm, memory), env).path;
    while node != End
      invariant env == EnvOf(llm, memory, store)
      invariant RunFrom(Entry, old(WorldOf(record, llm, memory)), env) == Then(path, RunFrom(node, WorldOf(record, llm, memory), env))
      decreases Rank(node)
    {
      ghost var w := WorldOf(record, llm, memory);
      RunWithStep(node, w, Steps(env));
      var s := Step(node, record, llm, memory, store);
      ThenThen(path, [node], Run([], s, WorldOf(record, llm, memory)));
      path := path + [node];
      if s.Failed? {
        status := s;
        assert path + [] == path;
        return;
      }
      var next := Next(node, record.entries);
      ThenThen(path[..|path| - 1], [node], RunFrom(next, WorldOf(record, llm, memory), env));
      node := next;
    }
    assert path + [] == path;
  }

  // ---------------------------------------------------------------------
  // serialize_state
  // ---------------------------------------------------------------------

  /** No chat reply object occurs anywhere in the value. */
  predicate MessageFree(v: Value)
    decreases v
  {
    match v
    case Message(_, _, _) => false
    case List(items) => forall k :: 0 <= k < |items| ==> MessageFree(items[k])
    case Dict(es) => forall k :: 0 <= k < |es| ==> MessageFree(es[k].1)
    case _ => true
  }

  /** Every chat reply object in the value dumps to a dict that holds no reply object itself. */
  predicate PlainDumps(v: Value)
    decreases v
  {
    match v
    case Message(_, _, d) => forall k :: 0 <= k < |d| ==> MessageFree(d[k].1)
    case List(items) => forall k :: 0 <= k < |items| ==> PlainDumps(items[k])
    case Dict(es) => forall k :: 0 <= k < |es| ==> PlainDumps(es[k].1)
    case _ => true
  }

  /**
    `convert` inside `serialize_state`: a reply object becomes its `.dict()`
    (which is not converted further), lists and dicts are rebuilt with
    converted items and values under the same keys, anything else stays.
  */
  function Convert(v: Value): (c: Value)
    decreases v
    ensures v.List? ==> c.List? && |c.items| == |v.items|
    ensures v.Dict? ==> c.Dict? && Keys(c.entries) == Keys(v.entries)
  {
    match v
    case Message(_, _, d) => Dict(d)
    case List(items) => List(seq(|items|, k requires 0 <= k < |items| => Convert(items[k])))
    case Dict(es) => Dict(seq(|es|, k requires 0 <= k < |es| => (es[k].0, Convert(es[k].1))))
    case _ => v
  }

  /** A value without reply objects serialises to itself. */
  lemma {:induction false} ConvertKeepsPlain(v: Value)
    requires MessageFree(v)
    ensures Convert(v) == v
    decreases v
  {
    match v {
      case List(items) =>
        forall k | 0 <= k < |items|
          ensures Convert(items[k]) == items[k]
        {
          ConvertKeepsPlain(items[k]);
        }
      case Dict(es) =>
        forall k | 0 <= k < |es|
          ensures Convert(es[k].1) == es[k].1
        {
          ConvertKeepsPlain(es[k].1);
        }
      case _ =>
    }
  }

  /** When every reply object dumps to plain data, serialising removes every reply object. */
  lemma {:induction false} ConvertRemovesMessages(v: Value)
    requires PlainDumps(v)
    ensures MessageFree(Convert(v))
    decreases v
  {
    match v {
      case List(items) =>
        forall k | 0 <= k < |items|
          ensures MessageFree(Convert(items[k]))
        {
          ConvertRemovesMessages(items[k]);
        }
      case Dict(es) =>
        forall k | 0 <= k < |es|
          ensures MessageFree(Convert(es[k].1))
        {
          ConvertRemovesMessages(es[k].1);
        }
      case _ =>
    }
  }

  /**
    The value reached from `v` by the positions `p`: each position picks a
    list item or a dict entry's value. Only lists and dicts are entered, so a
    reply object is never looked into.
  */
  function Sub(v: Value, p: seq<nat>): Option<Value>
    decreases |p|
  {
    if p == [] then Some(v)
    else match v
      case List(items) => if p[0] < |items| then Sub(items[p[0]], p[1..]) else None
      case Dict(es) => if p[0] < |es| then Sub(es[p[0]].1, p[1..]) else None
      case _ => None
  }

  /**
    Serialising acts the same way at every depth: whatever can be reached
    in `v` can be reached by the same positions in `Convert(v)`, where a
    reply object has become the dict of its dump, a list keeps its length,
    a dict keeps its keys in order, and any other leaf is unchanged.
  */
  lemma {:induction false} ConvertAtDepth(v: Value, p: seq<nat>)
    requires Sub(v, p).Some?
    ensures Sub(Convert(v), p) == Some(Convert(Sub(v, p).value))
    ensures var x, y := Sub(v, p).value, Sub(Convert(v), p).value;
      (x.Message? ==> y == Dict(x.dump)) &&
      (x.List? ==> y.List? && |y.items| == |x.items|) &&
      (x.Dict? ==> y.Dict? && Keys(y.entries) == Keys(x.entries)) &&
      (!x.Message? && !x.List? && !x.Dict? ==> y == x)
    decreases |p|
  {
    if p != [] {
      match v {
        case List(items) =>
          ConvertAtDepth(items[p[0]], p[1..]);
        case Dict(es) =>
          ConvertAtDepth(es[p[0]].1, p[1..]);
      }
    }
  }

  /** Serialising twice is serialising once. */
  lemma ConvertIdempotent(v: Value)
    requires PlainDumps(v)
    ensures Convert(Convert(v)) == Convert(v)
  {
    ConvertRemovesMessages(v);
    ConvertKeepsPlain(Convert(v));
  }

  /** `serialize_state(state)`: the record as a dict, every field converted. */
  function SerializeState(state: map<string, Value>): (out: map<string, Value>)
    ensures out.Keys == state.Keys
  {
    map k | k in state :: Convert(state[k])
  }

  /** Each field of the serialised record is that field converted at every depth. */
  lemma SerializeAtDepth(state: map<string, Value>, k: string, p: seq<nat>)
    requires k in state && Sub(state[k], p).Some?
    ensures Sub(SerializeState(state)[k], p) == Some(Convert(Sub(state[k], p).value))
  {
    ConvertAtDepth(state[k], p);
  }

  /**
    The serialised record has the same fields; a field that held a reply
    holds its dump; when every dump is plain data no reply object is left,
    and serialising again changes nothing.
  */
  lemma SerializeStateClean(state: map<string, Value>)
    ensures forall k :: k in state && state[k].Message? ==> SerializeState(state)[k] == Dict(state[k].dump)
    ensures forall k :: k in state && MessageFree(state[k]) ==> SerializeState(state)[k] == state[k]
    ensures (forall k :: k in state ==> PlainDumps(state[k])) ==>
      (forall k :: k in state ==> MessageFree(SerializeState(state)[k])) &&
      SerializeState(SerializeState(state)) == SerializeState(state)
  {
    forall k | k in state && MessageFree(state[k])
      ensures SerializeState(state)[k] == state[k]
    {
      ConvertKeepsPlain(state[k]);
    }
    if forall k :: k in state ==> PlainDumps(state[k]) {
      forall k | k in state
        ensures MessageFree(SerializeState(state)[k]) && Convert(Convert(state[k])) == Convert(state[k])
      {
        ConvertIdempotent(state[k]);
        ConvertRemovesMessages(state[k]);
      }
    }
  }
}
