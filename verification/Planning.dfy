/** The deterministic planning graph: guardrails, classification, retrieval, proposal and the evaluation gate. */
module Planning {
  import opened Prelude
  import opened Knowledge

  datatype Complexity = Low | Medium | High

  datatype PlanningInput = PlanningInput(workflowId: string, ownerId: string, request: string, requestedLocale: string)

  datatype Classification = Classification(category: Category, complexity: Complexity)

  datatype Citation = Citation(
    documentId: string,
    title: string,
    section: string,
    version: string,
    excerptHash: string,
    relevance: nat)

  datatype RetrievalEvidence = RetrievalEvidence(
    corpusVersion: string,
    selectedDocumentIds: seq<string>,
    quarantinedDocumentIds: seq<string>)

  datatype ImplementationProposal = ImplementationProposal(
    summary: string,
    complexity: Complexity,
    deliverySteps: seq<string>,
    risks: seq<string>)

  datatype CheckName = StructuredOutput | CitationPresent | CitationIntegrity | GroundedGuidance | OutputSafety

  datatype EvaluationCheck = EvaluationCheck(name: CheckName, passed: bool)

  datatype EvaluationGateResult = EvaluationGateResult(
    passed: bool, score: real, threshold: real, checks: seq<EvaluationCheck>)

  datatype RetrievalOutcome = Passed | Filtered

  datatype PlanningResult = PlanningResult(
    classification: Classification,
    proposal: ImplementationProposal,
    citations: seq<Citation>,
    retrieval: RetrievalEvidence,
    retrievalOutcome: RetrievalOutcome,
    evaluation: EvaluationGateResult,
    completedStates: seq<Status>)

  datatype PlanError = PromptInjectionBlocked | EvaluationGateBlocked(result: EvaluationGateResult)

  /** The names of the guardrail patterns found in a text. */
  type PatternScan = string -> seq<string>

  /** What a runtime is built from. Nothing is assumed of the scan, the hash, the retriever or the provider. */
  datatype Runtime = Runtime(
    detected: PatternScan,
    hash: string -> string,
    retrieve: (string, Category) -> RetrievalBatch,
    generate: (PlanningInput, Classification, seq<RetrievedPassage>) -> ImplementationProposal)

  const NODES: seq<Status> := [
    Validated, Guarded, Classified, ContextBuilt, KnowledgeRetrieved, Status.Planned, Evaluated]

  // ----- Guardrails -----

  predicate Flagged(detected: PatternScan, passage: RetrievedPassage) {
    detected(passage.document.content) != []
  }

  /** The passages that are, or are not, flagged, in order. */
  function Select(detected: PatternScan, passages: seq<RetrievedPassage>, flagged: bool): seq<RetrievedPassage> {
    if passages == [] then []
    else (if Flagged(detected, passages[0]) == flagged then [passages[0]] else [])
         + Select(detected, passages[1..], flagged)
  }

  function Safe(detected: PatternScan, passages: seq<RetrievedPassage>): seq<RetrievedPassage> {
    Select(detected, passages, false)
  }

  function Quarantined(detected: PatternScan, passages: seq<RetrievedPassage>): seq<RetrievedPassage> {
    Select(detected, passages, true)
  }

  function Ids(passages: seq<RetrievedPassage>): (ids: seq<string>)
    ensures |ids| == |passages|
  {
    seq(|passages|, i requires 0 <= i < |passages| => passages[i].document.documentId)
  }

  lemma {:induction false} SelectSnoc(
    detected: PatternScan, passages: seq<RetrievedPassage>, flagged: bool, passage: RetrievedPassage)
    ensures Select(detected, passages + [passage], flagged)
            == Select(detected, passages, flagged) + if Flagged(detected, passage) == flagged then [passage] else []
  {
    if passages == [] {
      assert [passage][1..] == [];
    } else {
      SelectSnoc(detected, passages[1..], flagged, passage);
      assert (passages + [passage])[1..] == passages[1..] + [passage];
    }
  }

  lemma IdsSnoc(passages: seq<RetrievedPassage>, passage: RetrievedPassage)
    ensures Ids(passages + [passage]) == Ids(passages) + [passage.document.documentId]
  {
  }

  method FilterRetrieval(detected: PatternScan, passages: seq<RetrievedPassage>)
    returns (safe: seq<RetrievedPassage>, quarantined: seq<string>)
    ensures safe == Safe(detected, passages)
    ensures quarantined == Ids(Quarantined(detected, passages))
  {
    safe, quarantined := [], [];
    for i := 0 to |passages|
      invariant safe == Safe(detected, passages[..i])
      invariant quarantined == Ids(Quarantined(detected, passages[..i]))
    {
      ghost var before := passages[..i];
      assert passages[..i + 1] == before + [passages[i]];
      SelectSnoc(detected, before, false, passages[i]);
      SelectSnoc(detected, before, true, passages[i]);
      IdsSnoc(Quarantined(detected, before), passages[i]);
      if detected(passages[i].document.content) != [] {
        quarantined := quarantined + [passages[i].document.documentId];
      } else {
        safe := safe + [passages[i]];
      }
    }
    assert passages[..|passages|] == passages;
  }

  /** `whole` is `a` and `b` shuffled together: every element used once, both orders kept. */
  ghost predicate Interleaves<T>(a: seq<T>, b: seq<T>, whole: seq<T>) {
    if whole == [] then a == [] && b == []
    else
      || (a != [] && a[0] == whole[0] && Interleaves(a[1..], b, whole[1..]))
      || (b != [] && b[0] == whole[0] && Interleaves(a, b[1..], whole[1..]))
  }

  /** Filtering splits the batch in two without losing, duplicating or reordering a passage. */
  lemma {:induction false} FilterPartitions(detected: PatternScan, passages: seq<RetrievedPassage>)
    ensures Interleaves(Safe(detected, passages), Quarantined(detected, passages), passages)
    ensures forall p :: p in Safe(detected, passages) ==> p in passages && !Flagged(detected, p)
    ensures forall p :: p in Quarantined(detected, passages) ==> p in passages && Flagged(detected, p)
  {
    if passages != [] {
      var safe, quarantined := Safe(detected, passages[1..]), Quarantined(detected, passages[1..]);
      FilterPartitions(detected, passages[1..]);
      if Flagged(detected, passages[0]) {
        assert ([passages[0]] + quarantined)[1..] == quarantined;
        assert Safe(detected, passages) == safe;
      } else {
        assert ([passages[0]] + safe)[1..] == safe;
        assert Quarantined(detected, passages) == quarantined;
      }
    }
  }

  function Joined(texts: seq<string>): string {
    if texts == [] then "" else if |texts| == 1 then texts[0] else texts[0] + " " + Joined(texts[1..])
  }

  function CheckOutput(detected: PatternScan, proposal: ImplementationProposal): seq<string> {
    detected(Joined([proposal.summary] + proposal.deliverySteps + proposal.risks))
  }

  // ----- Evaluation gate -----

  /** Lookup by id; on a repeated id the last passage wins. */
  function ById(passages: seq<RetrievedPassage>): map<string, RetrievedPassage> {
    if passages == [] then map[]
    else
      var n := |passages| - 1;
      ById(passages[..n])[passages[n].document.documentId := passages[n]]
  }

  function CountPassed(checks: seq<EvaluationCheck>): nat {
    if checks == [] then 0 else (if checks[0].passed then 1 else 0) + CountPassed(checks[1..])
  }

  function Gate(hash: string -> string, proposal: ImplementationProposal, citations: seq<Citation>,
                passages: seq<RetrievedPassage>, outputPatterns: seq<string>): EvaluationGateResult
  {
    var byId := ById(passages);
    var checks := [
      EvaluationCheck(StructuredOutput, proposal.summary != "" && proposal.deliverySteps != []),
      EvaluationCheck(CitationPresent, citations != []),
      EvaluationCheck(CitationIntegrity,
                      citations != [] && forall c :: c in citations ==>
                        c.documentId in byId && c.excerptHash == hash(byId[c.documentId].document.content)),
      EvaluationCheck(GroundedGuidance, exists p :: p in passages && p.document.content in proposal.deliverySteps),
      EvaluationCheck(OutputSafety, outputPatterns == [])];
    var score := CountPassed(checks) as real / |checks| as real;
    EvaluationGateResult(score >= 1.0, score, 1.0, checks)
  }

  lemma {:induction false} CountIsFullWhenAllPass(checks: seq<EvaluationCheck>)
    ensures CountPassed(checks) <= |checks|
    ensures CountPassed(checks) == |checks| <==> forall c :: c in checks ==> c.passed
  {
    if checks != [] {
      CountIsFullWhenAllPass(checks[1..]);
      assert checks == [checks[0]] + checks[1..];
    }
  }

  /** The threshold on the score is the conjunction of the five checks. */
  lemma GatePassesWhenEveryCheckDoes(hash: string -> string, proposal: ImplementationProposal,
                                     citations: seq<Citation>, passages: seq<RetrievedPassage>, patterns: seq<string>)
    ensures var g := Gate(hash, proposal, citations, passages, patterns);
            && |g.checks| == 5
            && (g.passed <==> forall c :: c in g.checks ==> c.passed)
  {
    var g := Gate(hash, proposal, citations, passages, patterns);
    CountIsFullWhenAllPass(g.checks);
    assert |g.checks| == 5;
    assert g.score == CountPassed(g.checks) as real / 5.0;
  }

  // ----- The graph -----

  /** The state the nodes pass along; a field is absent until its node has run. */
  datatype RuntimeState = RuntimeState(
    input: PlanningInput,
    completed: seq<Status>,
    classification: Option<Classification>,
    citations: seq<Citation>,
    passages: Option<seq<RetrievedPassage>>,
    retrieval: Option<RetrievalEvidence>,
    proposal: Option<ImplementationProposal>,
    evaluation: Option<EvaluationGateResult>)

  predicate Contains(text: string, word: string) {
    word <= text || (text != [] && Contains(text[1..], word))
  }

  predicate ContainsAny(text: string, words: seq<string>) {
    exists word :: word in words && Contains(text, word)
  }

  function CategoryOf(request: string): Category {
    if ContainsAny(request, ["security", "auth", "permission", "secret"]) then Security
    else if ContainsAny(request, ["integrat", "api", "webhook", "provider"]) then Integration
    else if ContainsAny(request, ["data", "database", "migration", "schema"]) then Data
    else General
  }

  function ComplexityOf(category: Category, size: nat): Complexity {
    if category in {Security, Data} || size > 300 then High
    else if category == Integration || size > 120 then Medium
    else Low
  }

  function Cite(hash: string -> string, passage: RetrievedPassage): Citation {
    Citation(passage.document.documentId, passage.document.title, passage.document.section,
             passage.document.version, hash(passage.document.content), passage.relevance)
  }

  function Cited(hash: string -> string, passages: seq<RetrievedPassage>): seq<Citation> {
    seq(|passages|, i requires 0 <= i < |passages| => Cite(hash, passages[i]))
  }

  function ValidateNode(st: RuntimeState): RuntimeState {
    st.(completed := st.completed + [Validated])
  }

  function GuardInputNode(rt: Runtime, st: RuntimeState): Result<RuntimeState, PlanError> {
    if rt.detected(st.input.request) != [] then Err(PromptInjectionBlocked)
    else Ok(st.(completed := st.completed + [Guarded]))
  }

  function ClassifyNode(st: RuntimeState): RuntimeState {
    var request := Lower(st.input.request);
    var category := CategoryOf(request);
    st.(classification := Some(Classification(category, ComplexityOf(category, |request|))),
        completed := st.completed + [Classified])
  }

  function BuildContextNode(st: RuntimeState): RuntimeState {
    st.(completed := st.completed + [ContextBuilt])
  }

  function RetrieveNode(rt: Runtime, st: RuntimeState): RuntimeState
    requires st.classification.Some?
  {
    var batch := rt.retrieve(st.input.request, st.classification.value.category);
    var passages := Safe(rt.detected, batch.passages);
    var quarantined := Ids(Quarantined(rt.detected, batch.passages));
    st.(citations := Cited(rt.hash, passages),
        passages := Some(passages),
        retrieval := Some(RetrievalEvidence(batch.corpusVersion, Ids(passages), quarantined)),
        completed := st.completed + [KnowledgeRetrieved])
  }

  function PlanNode(rt: Runtime, st: RuntimeState): RuntimeState
    requires st.classification.Some? && st.passages.Some?
  {
    st.(proposal := Some(rt.generate(st.input, st.classification.value, st.passages.value)),
        completed := st.completed + [Status.Planned])
  }

  function EvaluateNode(rt: Runtime, st: RuntimeState): Result<RuntimeState, PlanError>
    requires st.proposal.Some? && st.passages.Some?
  {
    var patterns := CheckOutput(rt.detected, st.proposal.value);
    var evaluation := Gate(rt.hash, st.proposal.value, st.citations, st.passages.value, patterns);
    if !evaluation.passed then Err(EvaluationGateBlocked(evaluation))
    else Ok(st.(evaluation := Some(evaluation), completed := st.completed + [Evaluated]))
  }

  function Plan(rt: Runtime, input: PlanningInput): Result<PlanningResult, PlanError> {
    var start := RuntimeState(input, [], None, [], None, None, None, None);
    match GuardInputNode(rt, ValidateNode(start))
    case Err(e) => Err(e)
    case Ok(guarded) =>
      var planned := PlanNode(rt, RetrieveNode(rt, BuildContextNode(ClassifyNode(guarded))));
      match EvaluateNode(rt, planned)
      case Err(e) => Err(e)
      case Ok(st) =>
        Ok(PlanningResult(
             st.classification.value, st.proposal.value, st.citations, st.retrieval.value,
             if st.retrieval.value.quarantinedDocumentIds != [] then Filtered else Passed,
             st.evaluation.value, st.completed))
  }

  // ----- What a returned plan guarantees -----

  function BatchFor(rt: Runtime, input: PlanningInput): RetrievalBatch {
    rt.retrieve(input.request, CategoryOf(Lower(input.request)))
  }

  function ProposalFor(rt: Runtime, input: PlanningInput): ImplementationProposal {
    var request := Lower(input.request);
    var category := CategoryOf(request);
    rt.generate(input, Classification(category, ComplexityOf(category, |request|)),
                Safe(rt.detected, BatchFor(rt, input).passages))
  }

  /** No two of the passages share an id and differ in hash, so no citation is shadowed in the lookup. */
  ghost predicate NoIdClash(hash: string -> string, passages: seq<RetrievedPassage>) {
    forall p, q :: p in passages && q in passages && p.document.documentId == q.document.documentId
                   ==> hash(p.document.content) == hash(q.document.content)
  }

  ghost predicate Grounded(proposal: ImplementationProposal, passages: seq<RetrievedPassage>) {
    exists p :: p in passages && p.document.content in proposal.deliverySteps
  }

  lemma {:induction false} LookupFindsLast(passages: seq<RetrievedPassage>)
    ensures forall id :: id in ById(passages) <==> exists p :: p in passages && p.document.documentId == id
    ensures forall id :: id in ById(passages) ==> ById(passages)[id] in passages
                                                  && ById(passages)[id].document.documentId == id
  {
    if passages != [] {
      var n := |passages| - 1;
      LookupFindsLast(passages[..n]);
      assert passages == passages[..n] + [passages[n]];
    }
  }

  /** The gate's own citations are intact exactly when no id clash shadows one of them... */
  lemma IntegrityMeansNoClash(hash: string -> string, passages: seq<RetrievedPassage>)
    ensures var byId := ById(passages);
            (forall c :: c in Cited(hash, passages) ==>
               c.documentId in byId && c.excerptHash == hash(byId[c.documentId].document.content))
            ==> (forall p :: p in passages ==>
                   p.document.documentId in byId
                   && hash(p.document.content) == hash(byId[p.document.documentId].document.content))
    ensures var byId := ById(passages);
            NoIdClash(hash, passages) ==>
              forall c :: c in Cited(hash, passages) ==>
                c.documentId in byId && c.excerptHash == hash(byId[c.documentId].document.content)
  {
    LookupFindsLast(passages);
    forall p | p in passages ensures Cite(hash, p) in Cited(hash, passages) {
      var i :| 0 <= i < |passages| && passages[i] == p;
      assert Cited(hash, passages)[i] == Cite(hash, p);
    }
    forall c | c in Cited(hash, passages) ensures exists p :: p in passages && c == Cite(hash, p) {
      var i :| 0 <= i < |passages| && Cited(hash, passages)[i] == c;
      assert passages[i] in passages && c == Cite(hash, passages[i]);
    }
  }

  /** When the gate lets a plan through that cites all it was given. */
  lemma GatePassesExactlyWhen(
    hash: string -> string, proposal: ImplementationProposal, safe: seq<RetrievedPassage>, patterns: seq<string>)
    ensures Gate(hash, proposal, Cited(hash, safe), safe, patterns).passed <==>
              && proposal.summary != "" && proposal.deliverySteps != []
              && safe != [] && NoIdClash(hash, safe) && Grounded(proposal, safe) && patterns == []
  {
    var citations := Cited(hash, safe);
    var g := Gate(hash, proposal, citations, safe, patterns);
    GatePassesWhenEveryCheckDoes(hash, proposal, citations, safe, patterns);
    IntegrityMeansNoClash(hash, safe);
    assert g.passed <==> g.checks[0].passed && g.checks[1].passed && g.checks[2].passed
                         && g.checks[3].passed && g.checks[4].passed;
  }

  /** What each check of a returned gate result stands for, by its name. */
  lemma ChecksByName(
    hash: string -> string, proposal: ImplementationProposal, safe: seq<RetrievedPassage>, patterns: seq<string>)
    ensures var checks := Gate(hash, proposal, Cited(hash, safe), safe, patterns).checks;
            && checks[..] == [
                 EvaluationCheck(StructuredOutput, |proposal.summary| > 0 && |proposal.deliverySteps| > 0),
                 EvaluationCheck(CitationPresent, |safe| > 0),
                 EvaluationCheck(CitationIntegrity, |safe| > 0 && NoIdClash(hash, safe)),
                 EvaluationCheck(GroundedGuidance, Grounded(proposal, safe)),
                 EvaluationCheck(OutputSafety, |patterns| == 0)]
  {
    IntegrityMeansNoClash(hash, safe);
  }

  /** When a plan comes back, and when it does not: both directions, for every runtime. */
  lemma PlanSucceedsExactlyWhen(rt: Runtime, input: PlanningInput)
    ensures var safe := Safe(rt.detected, BatchFor(rt, input).passages);
            var proposal := ProposalFor(rt, input);
            Plan(rt, input).Ok? <==>
              && rt.detected(input.request) == []
              && proposal.summary != "" && proposal.deliverySteps != []
              && safe != []
              && NoIdClash(rt.hash, safe)
              && Grounded(proposal, safe)
              && CheckOutput(rt.detected, proposal) == []
  {
    hide Gate, Grounded, NoIdClash, CheckOutput, CategoryOf, ComplexityOf, Lower, Safe, Quarantined, Cited;
    var safe := Safe(rt.detected, BatchFor(rt, input).passages);
    var proposal := ProposalFor(rt, input);
    GatePassesExactlyWhen(rt.hash, proposal, safe, CheckOutput(rt.detected, proposal));
  }

  /** The citation carries the passage's document, the hash of its content, and its score. */
  predicate CitesPassage(hash: string -> string, citation: Citation, p: RetrievedPassage) {
    && citation.documentId == p.document.documentId && citation.title == p.document.title
    && citation.section == p.document.section && citation.version == p.document.version
    && citation.excerptHash == hash(p.document.content) && citation.relevance == p.relevance
  }

  /** A citation stands for an unflagged passage of the batch: same id, same content hash. */
  ghost predicate Backed(rt: Runtime, batch: RetrievalBatch, citation: Citation) {
    exists p :: p in batch.passages && rt.detected(p.document.content) == [] && CitesPassage(rt.hash, citation, p)
  }

  /** The batch splits into what was used and what was held back, and the result reports exactly that split. */
  ghost predicate ReportsPartition(
    rt: Runtime, batch: RetrievalBatch, r: PlanningResult,
    safe: seq<RetrievedPassage>, quarantined: seq<RetrievedPassage>)
  {
    && Interleaves(safe, quarantined, batch.passages)
    && (forall p :: p in safe ==> !Flagged(rt.detected, p))
    && (forall p :: p in quarantined ==> Flagged(rt.detected, p))
    && r.retrieval == RetrievalEvidence(batch.corpusVersion, Ids(safe), Ids(quarantined))
    && (r.retrievalOutcome == Filtered <==> quarantined != [])
    && |r.citations| == |safe| && (forall i :: 0 <= i < |safe| ==> CitesPassage(rt.hash, r.citations[i], safe[i]))
    && Grounded(r.proposal, safe)
  }

  lemma ReturnedPlanReports(rt: Runtime, input: PlanningInput)
    requires Plan(rt, input).Ok?
    ensures var r, batch := Plan(rt, input).value, BatchFor(rt, input);
            && ReportsPartition(rt, batch, r, Safe(rt.detected, batch.passages), Quarantined(rt.detected, batch.passages))
            && (forall c :: c in r.evaluation.checks ==> c.passed) && |r.evaluation.checks| == 5
            && r.completedStates == NODES
  {
    hide Gate, Grounded, NoIdClash, Interleaves, Lower, CategoryOf, ComplexityOf, Select, Flagged, CheckOutput;
    var r, batch := Plan(rt, input).value, BatchFor(rt, input);
    var safe := Safe(rt.detected, batch.passages);
    FilterPartitions(rt.detected, batch.passages);
    PlanSucceedsExactlyWhen(rt, input);
    GatePassesWhenEveryCheckDoes(rt.hash, r.proposal, r.citations, safe, CheckOutput(rt.detected, r.proposal));
  }

  /** Everything a returned plan promises about its evidence, whatever the provider proposed. */
  lemma ReturnedPlanIsSound(rt: Runtime, input: PlanningInput)
    requires Plan(rt, input).Ok?
    ensures var r, batch := Plan(rt, input).value, BatchFor(rt, input);
            && (exists safe, quarantined :: ReportsPartition(rt, batch, r, safe, quarantined))
            && r.citations != []
            && (forall c :: c in r.citations ==> Backed(rt, batch, c))
            && (forall c :: c in r.evaluation.checks ==> c.passed) && |r.evaluation.checks| == 5
            && r.completedStates == NODES
  {
    var r, batch := Plan(rt, input).value, BatchFor(rt, input);
    var safe := Safe(rt.detected, batch.passages);
    ReturnedPlanReports(rt, input);
    PlanSucceedsExactlyWhen(rt, input);
    FilterPartitions(rt.detected, batch.passages);
    forall c | c in r.citations ensures Backed(rt, batch, c) {
      var i :| 0 <= i < |r.citations| && r.citations[i] == c;
      assert safe[i] in safe && CitesPassage(rt.hash, c, safe[i]);
    }
  }

  // ----- Classification -----

  /** The text has this word somewhere in it. */
  ghost predicate Mentions(text: string, word: string) {
    exists before, after :: text == before + word + after
  }

  ghost predicate MentionsAny(text: string, words: set<string>) {
    exists word :: word in words && Mentions(text, word)
  }

  lemma {:induction false} ContainsWhenMentioned(before: string, word: string, after: string)
    ensures Contains(before + word + after, word)
  {
    if before == [] {
      assert [] + word + after == word + after;
    } else {
      assert (before + word + after)[1..] == before[1..] + word + after;
      ContainsWhenMentioned(before[1..], word, after);
    }
  }

  lemma {:induction false} ContainedIsMentioned(text: string, word: string) returns (before: string, after: string)
    requires Contains(text, word)
    ensures text == before + word + after
  {
    if word <= text {
      before, after := [], text[|word|..];
    } else {
      before, after := ContainedIsMentioned(text[1..], word);
      before := [text[0]] + before;
    }
  }

  lemma ContainsMeansMentions(text: string, word: string)
    ensures Contains(text, word) <==> Mentions(text, word)
  {
    if Contains(text, word) {
      var before, after := ContainedIsMentioned(text, word);
    }
    if Mentions(text, word) {
      var before, after :| text == before + word + after;
      ContainsWhenMentioned(before, word, after);
    }
  }

  lemma ContainsAnyMeansMentionsAny(text: string, words: seq<string>, names: set<string>)
    requires forall word :: word in words <==> word in names
    ensures ContainsAny(text, words) <==> MentionsAny(text, names)
  {
    hide Contains, Mentions;
    forall word ensures Contains(text, word) <==> Mentions(text, word) {
      ContainsMeansMentions(text, word);
    }
  }

  /** The category of a lower-cased request: security words decide before integration words, and those before data
      words. */
  ghost predicate FitsWords(text: string, category: Category) {
    var security := MentionsAny(text, {"security", "auth", "permission", "secret"});
    var integration := MentionsAny(text, {"integrat", "api", "webhook", "provider"});
    var data := MentionsAny(text, {"data", "database", "migration", "schema"});
    match category
    case Security => security
    case Integration => !security && integration
    case Data => !security && !integration && data
    case General => !security && !integration && !data
  }

  lemma CategoryFitsWords(text: string)
    ensures FitsWords(text, CategoryOf(text))
  {
    hide ContainsAny, MentionsAny;
    ContainsAnyMeansMentionsAny(text, ["security", "auth", "permission", "secret"],
                                {"security", "auth", "permission", "secret"});
    ContainsAnyMeansMentionsAny(text, ["integrat", "api", "webhook", "provider"],
                                {"integrat", "api", "webhook", "provider"});
    ContainsAnyMeansMentionsAny(text, ["data", "database", "migration", "schema"],
                                {"data", "database", "migration", "schema"});
  }

  /** High for security, data, and more than 300 characters; low for short general requests. */
  predicate FitsSize(category: Category, size: nat, complexity: Complexity) {
    match complexity
    case High => category == Security || category == Data || size > 300
    case Medium => size <= 300 && (category == Integration || (category == General && size > 120))
    case Low => category == General && size <= 120
  }

  /** Passages were retrieved for the classification, and the provider was given it and the unflagged ones. */
  ghost predicate PlannedAsClassified(rt: Runtime, input: PlanningInput, r: PlanningResult) {
    var batch := rt.retrieve(input.request, r.classification.category);
    && r.retrieval.corpusVersion == batch.corpusVersion
    && exists safe, quarantined :: ReportsPartition(rt, batch, r, safe, quarantined)
                                   && r.proposal == rt.generate(input, r.classification, safe)
  }

  /** What a returned plan says of its classification is true of the request, and the plan was made for it. */
  lemma ReturnedPlanIsClassified(rt: Runtime, input: PlanningInput)
    requires Plan(rt, input).Ok?
    ensures var r := Plan(rt, input).value;
            && FitsWords(Lower(input.request), r.classification.category)
            && FitsSize(r.classification.category, |input.request|, r.classification.complexity)
            && PlannedAsClassified(rt, input, r)
  {
    hide Gate, Grounded, Interleaves, CategoryOf, Select, Flagged, CheckOutput, FitsWords;
    var r, batch := Plan(rt, input).value, BatchFor(rt, input);
    var safe, quarantined := Safe(rt.detected, batch.passages), Quarantined(rt.detected, batch.passages);
    CategoryFitsWords(Lower(input.request));
    ReturnedPlanReports(rt, input);
    assert ReportsPartition(rt, batch, r, safe, quarantined);
    assert r.proposal == rt.generate(input, r.classification, safe);
  }

  // ----- Safe output -----

  /** What is found in a text is still found when other text is joined to it with spaces. */
  ghost predicate FindingsSurviveJoining(detected: PatternScan) {
    forall text, other :: detected(text) != [] ==> detected(text + " " + other) != [] && detected(other + " " + text) != []
  }

  lemma {:induction false} JoinedKeepsFindings(detected: PatternScan, texts: seq<string>, i: nat)
    requires FindingsSurviveJoining(detected) && i < |texts| && detected(texts[i]) != []
    ensures detected(Joined(texts)) != []
  {
    if |texts| > 1 && i > 0 {
      JoinedKeepsFindings(detected, texts[1..], i - 1);
    }
  }

  /** Nothing in a returned plan's texts is flagged, be it in the summary, a step or a risk. */
  lemma ReturnedPlanIsUnflagged(rt: Runtime, input: PlanningInput, text: string)
    requires FindingsSurviveJoining(rt.detected) && Plan(rt, input).Ok?
    requires var proposal := Plan(rt, input).value.proposal;
             text == proposal.summary || text in proposal.deliverySteps || text in proposal.risks
    ensures rt.detected(text) == [] && rt.detected(input.request) == []
  {
    hide Gate, Grounded, CategoryOf, ComplexityOf, Lower, Safe, NoIdClash, Joined;
    PlanSucceedsExactlyWhen(rt, input);
    var proposal := Plan(rt, input).value.proposal;
    var texts := [proposal.summary] + proposal.deliverySteps + proposal.risks;
    assert texts[0] == proposal.summary;
    assert text in texts;
    var i :| 0 <= i < |texts| && texts[i] == text;
    if rt.detected(text) != [] {
      JoinedKeepsFindings(rt.detected, texts, i);
    }
  }

  // ----- The default runtime -----

  function CategoryStep(category: Category): string {
    match category
    case General => "Define the bounded delivery outcome and acceptance criteria."
    case Integration => "Define the external contract behind a replaceable adapter."
    case Security => "Threat-model the affected trust boundaries and controls."
    case Data => "Define the data contract, consistency rules, and migration path."
  }

  function ComplexityName(complexity: Complexity): string {
    match complexity
    case Low => "low"
    case Medium => "medium"
    case High => "high"
  }

  function DefaultProposal(input: PlanningInput, classification: Classification, passages: seq<RetrievedPassage>)
    : ImplementationProposal
  {
    ImplementationProposal(
      "Prepare a " + ComplexityName(classification.complexity) + "-complexity " + Tag(classification.category)
      + " delivery for: " + input.request,
      classification.complexity,
      [CategoryStep(classification.category),
       if passages != [] then passages[0].document.content else "Stop when no grounded guidance exists.",
       "Implement the smallest complete vertical slice.",
       "Validate contracts, failure modes, security, and observability.",
       "Package reproducible local deployment evidence."],
      ["Requirements may change after stakeholder review.",
       "External adapters remain disabled and require later contract verification."])
  }

  const QUALITY := KnowledgeDocument(
    "delivery-quality-v1", "Delivery quality baseline", "quality-gates", "1.0.0",
    "Define explicit contracts, test failure modes, and retain reproducible evidence.",
    ["general", "quality", "delivery"])

  const INTEGRATION := KnowledgeDocument(
    "integration-boundary-v1", "Integration boundary guide", "provider-adapters", "1.0.0",
    "Keep provider authentication, timeouts, retries, and error mapping behind a typed adapter.",
    ["integration", "api", "provider", "webhook"])

  const SECURITY := KnowledgeDocument(
    "security-boundary-v1", "Security boundary guide", "trust-boundaries", "1.0.0",
    "Threat-model identity, authorization, secrets, and every external trust boundary.",
    ["security", "auth", "permission", "secret"])

  const DATA := KnowledgeDocument(
    "data-change-v1", "Data change guide", "migration-safety", "1.0.0",
    "Define schema compatibility, transactional consistency, rollback, and retention before migration.",
    ["data", "database", "schema", "migration"])

  const LOCAL_CORPUS: seq<KnowledgeDocument> := [QUALITY, INTEGRATION, SECURITY, DATA]

  function DefaultRetriever(tokens: Tokenizer): LocalKnowledgeRetriever {
    LocalKnowledgeRetriever(LOCAL_CORPUS, "local-delivery-corpus-v1", 2, tokens)
  }

  function DefaultRuntime(detected: PatternScan, hash: string -> string, tokens: Tokenizer): Runtime {
    Runtime(detected, hash, (query, category) => DefaultRetriever(tokens).Retrieved(query, category), DefaultProposal)
  }

  function TaggedDocument(category: Category): KnowledgeDocument {
    match category
    case General => QUALITY
    case Integration => INTEGRATION
    case Security => SECURITY
    case Data => DATA
  }

  lemma CorpusIdsAreDistinct()
    ensures DistinctIds(LOCAL_CORPUS)
  {
    assert QUALITY.documentId[0] == 'd' && QUALITY.documentId[1] == 'e';
    assert INTEGRATION.documentId[0] == 'i';
    assert SECURITY.documentId[0] == 's';
    assert DATA.documentId[0] == 'd' && DATA.documentId[1] == 'a';
  }

  /** Whatever the corpus, a document with the category's tag puts at least three fifths at the top. */
  lemma TaggedDocumentTopsTheBatch(
    retriever: LocalKnowledgeRetriever, query: string, category: Category, d: KnowledgeDocument)
    requires retriever.topK > 0 && d in retriever.documents && Tag(category) in d.tags
    ensures var r := retriever.Retrieved(query, category).passages;
            r != [] && r[0].relevance >= 3
  {
    hide Rank, Candidates, UpTo;
    var r := retriever.Retrieved(query, category).passages;
    var p := retriever.PassageOf(query, category, d);
    retriever.RetrievesTheTop(query, category);
    retriever.RetrievesAsManyAsAsked(query, category);
    CandidatesScore(retriever.tokens, query, category, retriever.documents);
    assert p in Candidates(retriever.tokens, query, category, retriever.documents);
    assert r[0] in r;
    if p in r {
      var i :| 0 <= i < |r| && r[i] == p;
      assert i > 0 ==> Ranks(r[0], r[i]);
    }
  }

  /** Whatever the query, the local corpus answers the classified category with a score of at least three fifths. */
  lemma LocalCorpusAlwaysAnswers(tokens: Tokenizer, query: string, category: Category)
    ensures var r := DefaultRetriever(tokens).Retrieved(query, category).passages;
            && r != [] && r[0].relevance >= 3
            && (forall p :: p in r ==> p.document in LOCAL_CORPUS)
  {
    var d := TaggedDocument(category);
    assert d.tags[0] == Tag(category);
    assert d in LOCAL_CORPUS by {
      assert LOCAL_CORPUS[0] == QUALITY && LOCAL_CORPUS[1] == INTEGRATION;
      assert LOCAL_CORPUS[2] == SECURITY && LOCAL_CORPUS[3] == DATA;
    }
    TaggedDocumentTopsTheBatch(DefaultRetriever(tokens), query, category, d);
    DefaultRetriever(tokens).RetrievesTheTop(query, category);
  }

  lemma {:induction false} NothingFiltered(detected: PatternScan, passages: seq<RetrievedPassage>)
    requires forall p :: p in passages ==> !Flagged(detected, p)
    ensures Safe(detected, passages) == passages && Quarantined(detected, passages) == []
  {
    if passages != [] {
      NothingFiltered(detected, passages[1..]);
    }
  }

  lemma CorpusPassagesDoNotClash(hash: string -> string, passages: seq<RetrievedPassage>)
    requires forall p :: p in passages ==> p.document in LOCAL_CORPUS
    ensures NoIdClash(hash, passages)
  {
    CorpusIdsAreDistinct();
    forall p, q | p in passages && q in passages && p.document.documentId == q.document.documentId
      ensures p.document == q.document
    {
      var i :| 0 <= i < |LOCAL_CORPUS| && LOCAL_CORPUS[i] == p.document;
      var j :| 0 <= j < |LOCAL_CORPUS| && LOCAL_CORPUS[j] == q.document;
      assert i == j;
    }
  }

  lemma DefaultProposalQuotesTheTop(input: PlanningInput, classification: Classification, passages: seq<RetrievedPassage>)
    requires passages != []
    ensures var proposal := DefaultProposal(input, classification, passages);
            proposal.summary != "" && proposal.deliverySteps != [] && Grounded(proposal, passages)
  {
    var proposal := DefaultProposal(input, classification, passages);
    assert proposal.summary[0] == 'P';
    assert proposal.deliverySteps[1] == passages[0].document.content;
    assert passages[0] in passages;
  }

  ghost predicate CorpusUnflagged(detected: PatternScan) {
    forall d :: d in LOCAL_CORPUS ==> detected(d.content) == []
  }

  /** The best passage scores at least three fifths. */
  predicate WellAnswered(batch: RetrievalBatch) {
    batch.passages != [] && batch.passages[0].relevance >= 3
  }

  /** The first step belongs to the category, the second quotes the best passage. */
  predicate OpensWith(steps: seq<string>, category: Category, guidance: string) {
    && |steps| == 5 && steps[1] == guidance
    && steps[0] == match category
                   case General => "Define the bounded delivery outcome and acceptance criteria."
                   case Integration => "Define the external contract behind a replaceable adapter."
                   case Security => "Threat-model the affected trust boundaries and controls."
                   case Data => "Define the data contract, consistency rules, and migration path."
  }

  lemma DefaultProposalOpens(input: PlanningInput, classification: Classification, passages: seq<RetrievedPassage>)
    requires passages != []
    ensures var proposal := DefaultProposal(input, classification, passages);
            && proposal.complexity == classification.complexity
            && OpensWith(proposal.deliverySteps, classification.category, passages[0].document.content)
  {
  }

  /** A plan of the default runtime takes its complexity and first step from the classification and quotes the passage
      of its first citation. */
  lemma DefaultPlanFitsItsCategory(
    detected: PatternScan, hash: string -> string, tokens: Tokenizer, input: PlanningInput) returns (p: RetrievedPassage)
    requires Plan(DefaultRuntime(detected, hash, tokens), input).Ok?
    ensures var r := Plan(DefaultRuntime(detected, hash, tokens), input).value;
            && r.proposal.complexity == r.classification.complexity
            && r.citations != [] && CitesPassage(hash, r.citations[0], p)
            && OpensWith(r.proposal.deliverySteps, r.classification.category, p.document.content)
  {
    hide Gate, Grounded, Interleaves, Select, Flagged, CheckOutput, FitsWords, Plan, Lower, DefaultProposal, OpensWith,
         CitesPassage;
    var rt := DefaultRuntime(detected, hash, tokens);
    var r := Plan(rt, input).value;
    ReturnedPlanIsClassified(rt, input);
    ReturnedPlanIsSound(rt, input);
    var batch := rt.retrieve(input.request, r.classification.category);
    var safe, quarantined :| ReportsPartition(rt, batch, r, safe, quarantined)
                             && r.proposal == rt.generate(input, r.classification, safe);
    p := safe[0];
    DefaultProposalOpens(input, r.classification, safe);
  }

  /** With the default parts and an unflagged corpus, only flagged text, coming in or going out, stops a plan. */
  lemma DefaultRuntimeFailsOnlyOnFlaggedText(
    detected: PatternScan, hash: string -> string, tokens: Tokenizer, input: PlanningInput)
    requires CorpusUnflagged(detected)
    ensures var rt := DefaultRuntime(detected, hash, tokens);
            && (Plan(rt, input).Ok? <==> detected(input.request) == []
                                         && CheckOutput(detected, ProposalFor(rt, input)) == [])
            && WellAnswered(BatchFor(rt, input))
            && Safe(detected, BatchFor(rt, input).passages) == BatchFor(rt, input).passages
  {
    hide Plan, CategoryOf, ComplexityOf, Lower, CheckOutput, DefaultProposal, Safe, NoIdClash, Grounded;
    var rt := DefaultRuntime(detected, hash, tokens);
    var request := Lower(input.request);
    var category := CategoryOf(request);
    var batch := BatchFor(rt, input);
    assert batch == DefaultRetriever(tokens).Retrieved(input.request, category);
    LocalCorpusAlwaysAnswers(tokens, input.request, category);
    NothingFiltered(detected, batch.passages);
    PlanSucceedsExactlyWhen(rt, input);
    CorpusPassagesDoNotClash(hash, batch.passages);
    DefaultProposalQuotesTheTop(input, Classification(category, ComplexityOf(category, |request|)), batch.passages);
  }
}
