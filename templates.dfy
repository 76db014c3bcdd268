/**
  Prompt formatting and the runners: each prompt is one substitution of its
  arguments into a fixed template, and each runner formats its prompt and
  makes exactly one model call with it.
*/
module Templates {
  import opened Wrappers
  import opened PyText
  import opened Values
  import opened Llm

  // ---------------------------------------------------------------------
  // Templates and str.format
  // ---------------------------------------------------------------------

  /** A template string, already split into literal text and `{name}` fields. */
  datatype Piece = Lit(text: string) | Slot(name: string)

  type Template = seq<Piece>

  predicate Binds(t: Template, args: map<string, string>)
  {
    forall i :: 0 <= i < |t| && t[i].Slot? ==> t[i].name in args
  }

  /** `template.format(**args)`: one pass, each field replaced by its argument text as it is. */
  function Render(t: Template, args: map<string, string>): string
    requires Binds(t, args)
    decreases |t|
  {
    if t == [] then []
    else
      (match t[0] case Lit(x) => x case Slot(n) => args[n]) + Render(t[1..], args)
  }

  /** Rendering literal text, one field and the rest. */
  lemma RenderLitSlot(x: string, n: string, rest: Template, args: map<string, string>)
    requires n in args && Binds(rest, args)
    ensures Binds([Lit(x), Slot(n)] + rest, args)
    ensures Render([Lit(x), Slot(n)] + rest, args) == x + args[n] + Render(rest, args)
  {
    var t := [Lit(x), Slot(n)] + rest;
    assert forall i :: 2 <= i < |t| ==> t[i] == rest[i - 2];
    assert t[1..] == [Slot(n)] + rest;
    assert t[1..][1..] == rest;
  }

  /** A template with one field. */
  lemma RenderOneSlot(a: string, n: string, b: string, args: map<string, string>)
    requires n in args
    ensures Binds([Lit(a), Slot(n), Lit(b)], args)
    ensures Render([Lit(a), Slot(n), Lit(b)], args) == a + args[n] + b
  {
    assert [Lit(b)][1..] == [];
    RenderLitSlot(a, n, [Lit(b)], args);
    assert [Lit(a), Slot(n)] + [Lit(b)] == [Lit(a), Slot(n), Lit(b)];
  }

  /** A template with two fields. */
  lemma RenderTwoSlots(a: string, n: string, b: string, m: string, c: string, args: map<string, string>)
    requires n in args && m in args
    ensures Binds([Lit(a), Slot(n), Lit(b), Slot(m), Lit(c)], args)
    ensures Render([Lit(a), Slot(n), Lit(b), Slot(m), Lit(c)], args) == a + args[n] + b + args[m] + c
  {
    RenderOneSlot(b, m, c, args);
    RenderLitSlot(a, n, [Lit(b), Slot(m), Lit(c)], args);
    assert [Lit(a), Slot(n)] + [Lit(b), Slot(m), Lit(c)] == [Lit(a), Slot(n), Lit(b), Slot(m), Lit(c)];
  }

  /** A template with four fields. */
  lemma RenderFourSlots(a: string, n1: string, b: string, n2: string, c: string, n3: string, d: string, n4: string, e: string,
                        args: map<string, string>)
    requires n1 in args && n2 in args && n3 in args && n4 in args
    ensures Binds([Lit(a), Slot(n1), Lit(b), Slot(n2), Lit(c), Slot(n3), Lit(d), Slot(n4), Lit(e)], args)
    ensures Render([Lit(a), Slot(n1), Lit(b), Slot(n2), Lit(c), Slot(n3), Lit(d), Slot(n4), Lit(e)], args)
         == a + args[n1] + b + args[n2] + c + args[n3] + d + args[n4] + e
  {
    var t1 := [Lit(a), Slot(n1), Lit(b), Slot(n2)];
    var t2 := [Lit(c), Slot(n3), Lit(d), Slot(n4), Lit(e)];
    RenderTwoSlots(c, n3, d, n4, e, args);
    RenderLitSlot(b, n2, t2, args);
    RenderLitSlot(a, n1, [Lit(b), Slot(n2)] + t2, args);
    assert [Lit(a), Slot(n1)] + ([Lit(b), Slot(n2)] + t2)
        == [Lit(a), Slot(n1), Lit(b), Slot(n2), Lit(c), Slot(n3), Lit(d), Slot(n4), Lit(e)];
  }

  // The five templates, as written in the source, split at their fields.

  const SymptomLead := "\nYou are a diagnostic medical assistant.\n\nGiven the following symptoms: "
  const SymptomTrail := "\n\nReturn:\n- A ranked list of likely diagnoses\n- Suggested urgency level (low, medium, high)\n- Recommended next steps for the patient\n\nBe concise but medically accurate.\n"
  const SymptomTemplate: Template := [Lit(SymptomLead), Slot("symptoms"), Lit(SymptomTrail)]

  const EhrLead := "\nYou are a clinical summarization agent.\n\nGiven the following raw clinical note or discharge summary:\n\n---\n"
  const EhrTrail := "\n---\n\nExtract and return the following:\n- Primary diagnosis\n- Key findings (labs, vitals, procedures)\n- Medications prescribed\n- Follow-up recommendations\n- Summary (in layman's terms)\n\nBe clear and structured in your output.\n"
  const EhrTemplate: Template := [Lit(EhrLead), Slot("ehr_text"), Lit(EhrTrail)]

  const LiteratureLead := "\nYou are a medical assistant with access to the latest PubMed literature.\n\nBased on the following research summaries:\n\n---\n"
  const LiteratureMid := "\n---\n\nAnswer the question:\n\""
  const LiteratureTrail := "\"\n\nBe precise, cite evidence, and avoid speculation.\n"
  const LiteratureTemplate: Template :=
    [Lit(LiteratureLead), Slot("context"), Lit(LiteratureMid), Slot("question"), Lit(LiteratureTrail)]

  const DrugLead := "\nYou are a medical safety assistant.\n\nGiven the following medications: "
  const DrugMid := "\n\nKnown interactions found:\n"
  const DrugTrail := "\n\nAnalyze the combination and provide:\n- A safety summary\n- Suggested monitoring actions\n- Warnings and clinical advice\n\nBe medically accurate and concise.\n"
  const DrugTemplate: Template := [Lit(DrugLead), Slot("drugs"), Lit(DrugMid), Slot("interactions"), Lit(DrugTrail)]

  const TreatmentLead := "\nYou are an expert clinical decision support assistant.\n\nPatient details:\n- Diagnosis: "
  const TreatmentAge := "\n- Age: "
  const TreatmentSex := "\n- Sex: "
  const TreatmentComorbidities := "\n- Comorbidities: "
  const TreatmentTrail := "\n\nBased on NICE, NIH, and other evidence-based guidelines:\n\n\U{1F539} Generate a step-by-step treatment plan\n\U{1F539} Include first-line and second-line options\n\U{1F539} Address all comorbidities\n\U{1F539} Include medication, lifestyle, follow-up, and referrals\n\U{1F539} Make it clear and clinician-ready\n"
  const TreatmentTemplate: Template :=
    [Lit(TreatmentLead), Slot("diagnosis"), Lit(TreatmentAge), Slot("age"),
     Lit(TreatmentSex), Slot("sex"), Lit(TreatmentComorbidities), Slot("comorbidities"), Lit(TreatmentTrail)]

  // ---------------------------------------------------------------------
  // The prompt functions
  // ---------------------------------------------------------------------

  /** `symptom_prompt(symptoms)`. */
  function SymptomPrompt(symptoms: Value): string
  {
    Render(SymptomTemplate, map["symptoms" := PyStr(symptoms)])
  }

  /** `ehr_summary_prompt(ehr_text)`. */
  function EhrSummaryPrompt(ehrText: Value): string
  {
    Render(EhrTemplate, map["ehr_text" := PyStr(ehrText)])
  }

  /** `literature_qa_prompt(question, context)`; the source's default context is `""`. */
  function LiteratureQaPrompt(question: Value, context: Value): string
  {
    Render(LiteratureTemplate, map["context" := PyStr(context), "question" := PyStr(question)])
  }

  /** `drug_interaction_prompt(meds, patient_data)`: raises when `", ".join(meds)` does. */
  function DrugInteractionPrompt(meds: Value, patientData: Value): Result<string>
  {
    match JoinValue(meds, ", ")
    case Err(e) => Err(e)
    case Ok(drugs) => Ok(Render(DrugTemplate, map["drugs" := drugs, "interactions" := PyStr(patientData)]))
  }

  /**
    `treatment_prompt(profile)`: the profile must be a dict (anything else has
    no `.get` and raises AttributeError); a missing diagnosis, age or sex
    renders as `None`, missing comorbidities as nothing.
  */
  function TreatmentPrompt(profile: Value): Result<string>
  {
    if !profile.Dict? then Err("AttributeError: object has no attribute 'get'")
    else
      var es := profile.entries;
      match JoinValue(DictGetOr(es, "comorbidities", List([])), ", ")
      case Err(e) => Err(e)
      case Ok(comorbidities) =>
        Ok(Render(TreatmentTemplate,
                  map["diagnosis" := PyStr(DictGetOr(es, "diagnosis", Null)),
                      "age" := PyStr(DictGetOr(es, "age", Null)),
                      "sex" := PyStr(DictGetOr(es, "sex", Null)),
                      "comorbidities" := comorbidities]))
  }

  /** The symptoms text is inserted once, verbatim, between the fixed parts of the template. */
  lemma SymptomPromptShape(symptoms: Value)
    ensures SymptomPrompt(symptoms) == SymptomLead + PyStr(symptoms) + SymptomTrail
  {
    var args := map["symptoms" := PyStr(symptoms)];
    RenderOneSlot(SymptomLead, "symptoms", SymptomTrail, args);
  }

  /** Different symptom texts give different prompts. */
  lemma SymptomPromptInjective(a: Value, b: Value)
    requires SymptomPrompt(a) == SymptomPrompt(b)
    ensures PyStr(a) == PyStr(b)
  {
    SymptomPromptShape(a);
    SymptomPromptShape(b);
    var p := SymptomPrompt(a);
    assert PyStr(a) == p[|SymptomLead|..|p| - |SymptomTrail|];
    assert PyStr(b) == p[|SymptomLead|..|p| - |SymptomTrail|];
  }

  /** The record text is inserted once, verbatim, between the fixed parts of the template. */
  lemma EhrSummaryPromptShape(ehrText: Value)
    ensures EhrSummaryPrompt(ehrText) == EhrLead + PyStr(ehrText) + EhrTrail
  {
    var args := map["ehr_text" := PyStr(ehrText)];
    RenderOneSlot(EhrLead, "ehr_text", EhrTrail, args);
  }

  /** Different record texts give different prompts. */
  lemma EhrSummaryPromptInjective(a: Value, b: Value)
    requires EhrSummaryPrompt(a) == EhrSummaryPrompt(b)
    ensures PyStr(a) == PyStr(b)
  {
    EhrSummaryPromptShape(a);
    EhrSummaryPromptShape(b);
    var p := EhrSummaryPrompt(a);
    assert PyStr(a) == p[|EhrLead|..|p| - |EhrTrail|];
    assert PyStr(b) == p[|EhrLead|..|p| - |EhrTrail|];
  }

  /** Both the context and the question are filled in, verbatim, each in its own place. */
  lemma LiteratureQaPromptShape(question: Value, context: Value)
    ensures LiteratureQaPrompt(question, context)
         == LiteratureLead + PyStr(context) + LiteratureMid + PyStr(question) + LiteratureTrail
  {
    var args := map["context" := PyStr(context), "question" := PyStr(question)];
    RenderTwoSlots(LiteratureLead, "context", LiteratureMid, "question", LiteratureTrail, args);
  }

  /** With an empty context nothing stands between the context heading and the question heading. */
  lemma LiteratureQaPromptNoContext(question: Value)
    ensures LiteratureQaPrompt(question, Str("")) == LiteratureLead + LiteratureMid + PyStr(question) + LiteratureTrail
  {
    LiteratureQaPromptShape(question, Str(""));
    assert PyStr(Str("")) == "";
    assert LiteratureLead + "" == LiteratureLead;
  }

  /**
    The drugs slot holds the medications joined by `", "` (nothing for an
    empty list) and the interactions slot the text of `patient_data`; the
    prompt fails exactly when the join does.
  */
  lemma DrugInteractionPromptShape(meds: Value, patientData: Value)
    ensures DrugInteractionPrompt(meds, patientData).Ok? <==> JoinValue(meds, ", ").Ok?
    ensures JoinValue(meds, ", ").Ok? ==>
      DrugInteractionPrompt(meds, patientData).value
        == DrugLead + JoinValue(meds, ", ").value + DrugMid + PyStr(patientData) + DrugTrail
    ensures DrugInteractionPrompt(List([]), patientData) == Ok(DrugLead + DrugMid + PyStr(patientData) + DrugTrail)
  {
    if JoinValue(meds, ", ").Ok? {
      var args := map["drugs" := JoinValue(meds, ", ").value, "interactions" := PyStr(patientData)];
      RenderTwoSlots(DrugLead, "drugs", DrugMid, "interactions", DrugTrail, args);
    }
    var args := map["drugs" := "", "interactions" := PyStr(patientData)];
    RenderTwoSlots(DrugLead, "drugs", DrugMid, "interactions", DrugTrail, args);
    assert DrugLead + "" == DrugLead;
    assert JoinValue(List([]), ", ") == Ok("");
  }

  /**
    A dict profile fills the four slots in order: diagnosis, age and sex as
    their text (`None` when missing) and the comorbidities joined by `", "`
    (nothing when missing); anything but a dict raises.
  */
  lemma TreatmentPromptShape(profile: Value)
    ensures !profile.Dict? ==> TreatmentPrompt(profile).Err?
    ensures profile.Dict? ==>
      var es := profile.entries;
      var c := JoinValue(DictGetOr(es, "comorbidities", List([])), ", ");
      (TreatmentPrompt(profile).Ok? <==> c.Ok?) &&
      (c.Ok? ==>
         TreatmentPrompt(profile).value ==
         TreatmentLead + PyStr(DictGetOr(es, "diagnosis", Null))
         + TreatmentAge + PyStr(DictGetOr(es, "age", Null))
         + TreatmentSex + PyStr(DictGetOr(es, "sex", Null))
         + TreatmentComorbidities + c.value + TreatmentTrail)
    ensures profile.Dict? && DictGet(profile.entries, "comorbidities").None? ==>
      TreatmentPrompt(profile).Ok? && JoinValue(DictGetOr(profile.entries, "comorbidities", List([])), ", ") == Ok("")
  {
    if profile.Dict? {
      var es := profile.entries;
      var c := JoinValue(DictGetOr(es, "comorbidities", List([])), ", ");
      if c.Ok? {
        var args := map["diagnosis" := PyStr(DictGetOr(es, "diagnosis", Null)),
                        "age" := PyStr(DictGetOr(es, "age", Null)),
                        "sex" := PyStr(DictGetOr(es, "sex", Null)),
                        "comorbidities" := c.value];
        RenderFourSlots(TreatmentLead, "diagnosis", TreatmentAge, "age", TreatmentSex, "sex",
                        TreatmentComorbidities, "comorbidities", TreatmentTrail, args);
      }
    }
  }

  // ---------------------------------------------------------------------
  // Runners
  // ---------------------------------------------------------------------

  /** `Runner.run_symptom_checker(symptoms, llm)`. */
  method RunSymptomChecker(symptoms: Value, llm: Invoker) returns (r: Result<Reply>)
    modifies llm
    ensures llm.calls == old(llm.calls) + [SymptomPrompt(symptoms)]
    ensures r == llm.respond(|old(llm.calls)|, SymptomPrompt(symptoms))
  {
    r := llm.Invoke(SymptomPrompt(symptoms));
  }

  /** `Runner.run_ehr_summarizer(ehr_text, llm)`. */
  method RunEhrSummarizer(ehrText: Value, llm: Invoker) returns (r: Result<Reply>)
    modifies llm
    ensures llm.calls == old(llm.calls) + [EhrSummaryPrompt(ehrText)]
    ensures r == llm.respond(|old(llm.calls)|, EhrSummaryPrompt(ehrText))
  {
    r := llm.Invoke(EhrSummaryPrompt(ehrText));
  }

  /** `Runner.run_literature_qa(question, llm, context)`. */
  method RunLiteratureQa(question: Value, context: Value, llm: Invoker) returns (r: Result<Reply>)
    modifies llm
    ensures llm.calls == old(llm.calls) + [LiteratureQaPrompt(question, context)]
    ensures r == llm.respond(|old(llm.calls)|, LiteratureQaPrompt(question, context))
  {
    r := llm.Invoke(LiteratureQaPrompt(question, context));
  }

  /** `Runner.run_drug_interactions(meds, llm, patient_data)`: no call when formatting raises. */
  method RunDrugInteractions(meds: Value, patientData: Value, llm: Invoker) returns (r: Result<Reply>)
    modifies llm
    ensures (r, llm.calls) == Ask(llm.respond, old(llm.calls), DrugInteractionPrompt(meds, patientData))
  {
    var prompt := DrugInteractionPrompt(meds, patientData);
    if prompt.Err? {
      return Err(prompt.error);
    }
    r := llm.Invoke(prompt.value);
  }

  /** `Runner.run_treatment_plan(profile, llm)`: no call when formatting raises. */
  method RunTreatmentPlan(profile: Value, llm: Invoker) returns (r: Result<Reply>)
    modifies llm
    ensures (r, llm.calls) == Ask(llm.respond, old(llm.calls), TreatmentPrompt(profile))
  {
    var prompt := TreatmentPrompt(profile);
    if prompt.Err? {
      return Err(prompt.error);
    }
    r := llm.Invoke(prompt.value);
  }

  /**
    A runner's effect on the invoker: a prompt that could not be formatted
    raises before any call; otherwise exactly one call is made with it and
    its answer is returned as it is.
  */
  function Ask(respond: (nat, string) -> Result<Reply>, calls: seq<string>, prompt: Result<string>): (out: (Result<Reply>, seq<string>))
    ensures prompt.Err? ==> out == (Err(prompt.error), calls)
    ensures prompt.Ok? ==> out.1 == calls + [prompt.value] && out.0 == respond(|calls|, prompt.value)
  {
    match prompt
    case Err(e) => (Err(e), calls)
    case Ok(p) => (respond(|calls|, p), calls + [p])
  }

  // ---------------------------------------------------------------------
  // Runner.run: dispatch by name
  // ---------------------------------------------------------------------

  datatype RunnerName = SymptomCheckerRunner | EhrSummarizerRunner | LiteratureQaRunner | DrugInteractionsRunner | TreatmentPlanRunner

  /** The keys of `runner_map`, in order. */
  const RunnerNames: seq<string> := ["symptom_checker", "ehr_summarizer", "literature_qa", "drug_interactions", "treatment_plan"]

  /** `runner_map.get(runner_name)`. */
  function RunnerFor(name: string): Option<RunnerName>
  {
    if name == "symptom_checker" then Some(SymptomCheckerRunner)
    else if name == "ehr_summarizer" then Some(EhrSummarizerRunner)
    else if name == "literature_qa" then Some(LiteratureQaRunner)
    else if name == "drug_interactions" then Some(DrugInteractionsRunner)
    else if name == "treatment_plan" then Some(TreatmentPlanRunner)
    else None
  }

  /** The message of the NotImplementedError raised for an unknown name. */
  function InvalidRunnerMessage(name: string): string
  {
    "Error: Invalid runner name '" + name + "'. Available runners are: " + Join(RunnerNames, ", ")
  }

  /** Exactly the five names of the table have a runner. */
  lemma RunnerForTable(name: string)
    ensures RunnerFor(name).Some? <==> name in RunnerNames
  {
  }

  /** The error for an unknown name lists every valid runner. */
  lemma InvalidRunnerMessageNamesAll(name: string, i: nat)
    requires i < |RunnerNames|
    ensures Contains(InvalidRunnerMessage(name), RunnerNames[i])
  {
    JoinContainsParts(RunnerNames, ", ", i);
    var lead := "Error: Invalid runner name '" + name + "'. Available runners are: ";
    var j := Join(RunnerNames, ", ");
    var k: nat :| k <= |j| && OccursAt(j, RunnerNames[i], k);
    assert InvalidRunnerMessage(name) == lead + j;
    assert (lead + j)[|lead| + k..|lead| + k + |RunnerNames[i]|] == j[k..k + |RunnerNames[i]|];
    assert OccursAt(InvalidRunnerMessage(name), RunnerNames[i], |lead| + k);
  }

  /** Every keyword is a parameter of the runner and every required parameter is given. */
  predicate BindsParameters(kwargs: map<string, Value>, required: set<string>, optional: set<string>)
  {
    kwargs.Keys <= required + optional && required <= kwargs.Keys
  }

  /** The prompt `runner_func(llm=llm, **kwargs)` formats, or the TypeError of a bad keyword binding. */
  function RunPrompt(runner: RunnerName, kwargs: map<string, Value>): Result<string>
  {
    match runner
    case SymptomCheckerRunner =>
      if BindsParameters(kwargs, {"symptoms"}, {}) then Ok(SymptomPrompt(kwargs["symptoms"]))
      else Err("TypeError: run_symptom_checker() got bad keyword arguments")
    case EhrSummarizerRunner =>
      if BindsParameters(kwargs, {"ehr_text"}, {}) then Ok(EhrSummaryPrompt(kwargs["ehr_text"]))
      else Err("TypeError: run_ehr_summarizer() got bad keyword arguments")
    case LiteratureQaRunner =>
      if BindsParameters(kwargs, {"question"}, {"context"}) then
        Ok(LiteratureQaPrompt(kwargs["question"], if "context" in kwargs then kwargs["context"] else Str("")))
      else Err("TypeError: run_literature_qa() got bad keyword arguments")
    case DrugInteractionsRunner =>
      if BindsParameters(kwargs, {"meds"}, {"patient_data"}) then
        DrugInteractionPrompt(kwargs["meds"], if "patient_data" in kwargs then kwargs["patient_data"] else Str(""))
      else Err("TypeError: run_drug_interactions() got bad keyword arguments")
    case TreatmentPlanRunner =>
      if BindsParameters(kwargs, {"profile"}, {}) then TreatmentPrompt(kwargs["profile"])
      else Err("TypeError: run_treatment_plan() got bad keyword arguments")
  }

  /**
    `Runner.run(runner_name, llm, **kwargs)`: a known name runs its runner
    (one model call when its arguments bind and format); an unknown name
    raises NotImplementedError naming the valid runners, with no model call.
  */
  method Run(name: string, llm: Invoker, kwargs: map<string, Value>) returns (r: Result<Reply>)
    modifies llm
    ensures RunnerFor(name).None? ==>
      r == Err("NotImplementedError: " + InvalidRunnerMessage(name)) && llm.calls == old(llm.calls)
    ensures RunnerFor(name).Some? ==>
      (r, llm.calls) == Ask(llm.respond, old(llm.calls), RunPrompt(RunnerFor(name).value, kwargs))
  {
    var runner := RunnerFor(name);
    if runner.None? {
      return Err("NotImplementedError: " + InvalidRunnerMessage(name));
    }
    match runner.value
    case SymptomCheckerRunner =>
      if !BindsParameters(kwargs, {"symptoms"}, {}) { return Err(RunPrompt(runner.value, kwargs).error); }
      r := RunSymptomChecker(kwargs["symptoms"], llm);
    case EhrSummarizerRunner =>
      if !BindsParameters(kwargs, {"ehr_text"}, {}) { return Err(RunPrompt(runner.value, kwargs).error); }
      r := RunEhrSummarizer(kwargs["ehr_text"], llm);
    case LiteratureQaRunner =>
      if !BindsParameters(kwargs, {"question"}, {"context"}) { return Err(RunPrompt(runner.value, kwargs).error); }
      r := RunLiteratureQa(kwargs["question"], if "context" in kwargs then kwargs["context"] else Str(""), llm);
    case DrugInteractionsRunner =>
      if !BindsParameters(kwargs, {"meds"}, {"patient_data"}) { return Err(RunPrompt(runner.value, kwargs).error); }
      r := RunDrugInteractions(kwargs["meds"], if "patient_data" in kwargs then kwargs["patient_data"] else Str(""), llm);
    case TreatmentPlanRunner =>
      if !BindsParameters(kwargs, {"profile"}, {}) { return Err(RunPrompt(runner.value, kwargs).error); }
      r := RunTreatmentPlan(kwargs["profile"], llm);
  }
}
