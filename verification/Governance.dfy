/** The data classifier and the baseline policy engine that every processing step consults. */
module Governance {
  datatype DataCategory =
    | GeneralContent
    | ContactInformation
    | HealthInformation
    | FinancialInformation
    | PaymentCardData
    | Credentials
    | BiometricInformation
    | ChildrensData
    | EducationRecords
    | GovernmentData

  datatype DataClassification = Internal | Confidential | RestrictedPersonal | RegulatedHighImpact

  datatype ProcessingOperation =
    | WorkflowIntake
    | AgentPlanning
    | ExternalModelInference
    | KnowledgeRetrieval
    | ToolExecution

  datatype EnforcementMode = Observe | Warn | Enforce

  datatype PolicyOutcome = Permit | PermitWithControls | Deny

  datatype Obligation =
    | AuditDecision
    | PurposeLimitation
    | DataMinimization
    | RedactBeforeExternalProcessing
    | LocalProcessingOnly
    | NoProviderTraining
    | HumanApprovalForSideEffects
    | EnhancedAccessLogging

  datatype Reason =
    | ProhibitedAtIntake
    | UnapprovedProvider
    | ControlsRequired
    | BaselinePermits

  /** Why a category was assigned. */
  datatype Evidence = Declared(category: DataCategory) | Detected(category: DataCategory) | DefaultGeneral

  datatype DataProfile = DataProfile(
    classification: DataClassification,
    categories: set<DataCategory>,
    basis: set<Evidence>)

  datatype ProcessingContext = ProcessingContext(
    subjectId: string,
    operation: ProcessingOperation,
    provider: string,
    jurisdiction: string,
    dataProfile: DataProfile,
    overlayIds: seq<string>)

  datatype RetentionPolicy = Standard90Days | Restricted30Days

  /** The identifier is a digest of exactly these values; distinct values are taken to digest differently. */
  datatype DecisionId = DecisionId(context: ProcessingContext, mode: EnforcementMode, outcome: PolicyOutcome)

  datatype PolicyDecision = PolicyDecision(
    decisionId: DecisionId,
    outcome: PolicyOutcome,
    executionAllowed: bool,
    mode: EnforcementMode,
    classification: DataClassification,
    obligations: set<Obligation>,
    reasons: seq<Reason>,
    retention: RetentionPolicy,
    overlayIds: seq<string>)

  /** Whether the local detection rule of a category matches a text. */
  type Detector = (DataCategory, string) -> bool

  /** The categories with a detection rule, in rule order. */
  const PATTERNS: seq<DataCategory> := [
    HealthInformation, FinancialInformation, PaymentCardData, Credentials, BiometricInformation,
    ChildrensData, EducationRecords, GovernmentData, ContactInformation]

  const PROHIBITED_INTAKE: set<DataCategory> := {Credentials, PaymentCardData}
  const LOCAL_API := "local-api"
  const DETERMINISTIC_LOCAL := "deterministic-local"
  const LOCAL_PROVIDERS: set<string> := {LOCAL_API, DETERMINISTIC_LOCAL}
  const BASE_OBLIGATIONS: set<Obligation> := {AuditDecision, PurposeLimitation}
  const SENSITIVE_OBLIGATIONS: set<Obligation> := {
    DataMinimization, RedactBeforeExternalProcessing, LocalProcessingOnly,
    NoProviderTraining, HumanApprovalForSideEffects, EnhancedAccessLogging}

  function ClassificationOf(category: DataCategory): DataClassification {
    match category
    case GeneralContent => Internal
    case ContactInformation => Confidential
    case PaymentCardData => RegulatedHighImpact
    case GovernmentData => RegulatedHighImpact
    case _ => RestrictedPersonal
  }

  function Order(classification: DataClassification): nat {
    match classification
    case Internal => 0
    case Confidential => 1
    case RestrictedPersonal => 2
    case RegulatedHighImpact => 3
  }

  function Strength(outcome: PolicyOutcome): nat {
    match outcome
    case Permit => 0
    case PermitWithControls => 1
    case Deny => 2
  }

  // ----- Classification -----

  function DetectedIn(matches: Detector, text: string): set<DataCategory> {
    set category | category in PATTERNS && matches(category, text)
  }

  function CategoriesOf(matches: Detector, text: string, declared: set<DataCategory>): set<DataCategory> {
    var found := declared + DetectedIn(matches, text);
    if found == {} then {GeneralContent} else found
  }

  function BasisOf(matches: Detector, text: string, declared: set<DataCategory>): set<Evidence> {
    (set category | category in declared :: Declared(category))
    + (set category | category in DetectedIn(matches, text) :: Detected(category))
    + if declared + DetectedIn(matches, text) == {} then {DefaultGeneral} else {}
  }

  /** `classification` is the level of some category and no category has a higher one. */
  ghost predicate IsHighest(categories: set<DataCategory>, classification: DataClassification) {
    && (exists category :: category in categories && ClassificationOf(category) == classification)
    && forall category :: category in categories ==> Order(ClassificationOf(category)) <= Order(classification)
  }

  /** The only profile that `Classify` can produce. */
  ghost predicate IsProfile(matches: Detector, text: string, declared: set<DataCategory>, profile: DataProfile) {
    && profile.categories == CategoriesOf(matches, text, declared)
    && profile.basis == BasisOf(matches, text, declared)
    && IsHighest(profile.categories, profile.classification)
  }

  method Highest(categories: set<DataCategory>) returns (classification: DataClassification)
    requires categories != {}
    ensures IsHighest(categories, classification)
  {
    var first :| first in categories;
    classification := ClassificationOf(first);
    var rest := categories - {first};
    while rest != {}
      invariant rest <= categories
      invariant exists category :: category in categories - rest && ClassificationOf(category) == classification
      invariant forall category :: category in categories - rest
                                   ==> Order(ClassificationOf(category)) <= Order(classification)
      decreases rest
    {
      var category :| category in rest;
      if Order(ClassificationOf(category)) > Order(classification) {
        classification := ClassificationOf(category);
      }
      rest := rest - {category};
    }
  }

  method Classify(matches: Detector, text: string, declared: set<DataCategory>) returns (profile: DataProfile)
    ensures IsProfile(matches, text, declared, profile)
  {
    var categories := declared;
    var basis := set category | category in declared :: Declared(category);
    for i := 0 to |PATTERNS|
      invariant categories == declared + set category | category in PATTERNS[..i] && matches(category, text)
      invariant basis == (set category | category in declared :: Declared(category))
                         + set category | category in PATTERNS[..i] && matches(category, text) :: Detected(category)
    {
      assert PATTERNS[..i + 1] == PATTERNS[..i] + [PATTERNS[i]];
      if matches(PATTERNS[i], text) {
        categories := categories + {PATTERNS[i]};
        basis := basis + {Detected(PATTERNS[i])};
      }
    }
    assert PATTERNS[..|PATTERNS|] == PATTERNS;
    assert basis == (set category | category in declared :: Declared(category))
                    + set category | category in DetectedIn(matches, text) :: Detected(category);
    if categories == {} {
      categories := {GeneralContent};
      basis := basis + {DefaultGeneral};
    }
    var classification := Highest(categories);
    profile := DataProfile(classification, categories, basis);
  }

  // ----- Policy -----

  predicate Sensitive(profile: DataProfile) {
    profile.classification in {RestrictedPersonal, RegulatedHighImpact}
  }

  predicate Prohibited(context: ProcessingContext) {
    context.operation == WorkflowIntake && context.dataProfile.categories * PROHIBITED_INTAKE != {}
  }

  predicate Leaks(context: ProcessingContext) {
    Sensitive(context.dataProfile) && context.provider !in LOCAL_PROVIDERS
  }

  function OutcomeOf(context: ProcessingContext): PolicyOutcome {
    if Prohibited(context) || Leaks(context) then Deny
    else if Sensitive(context.dataProfile) then PermitWithControls
    else Permit
  }

  function ReasonsOf(context: ProcessingContext): seq<Reason> {
    (if Prohibited(context) then [ProhibitedAtIntake] else [])
    + (if Leaks(context) then [UnapprovedProvider] else [])
    + match OutcomeOf(context)
      case Deny => []
      case PermitWithControls => [ControlsRequired]
      case Permit => [BaselinePermits]
  }

  /** The baseline decision for a context under an enforcement mode. */
  function Baseline(mode: EnforcementMode, context: ProcessingContext): PolicyDecision {
    var outcome := OutcomeOf(context);
    PolicyDecision(
      DecisionId(context, mode, outcome),
      outcome,
      outcome != Deny || mode != Enforce,
      mode,
      context.dataProfile.classification,
      BASE_OBLIGATIONS + if Sensitive(context.dataProfile) then SENSITIVE_OBLIGATIONS else {},
      ReasonsOf(context),
      if Sensitive(context.dataProfile) then Restricted30Days else Standard90Days,
      context.overlayIds)
  }

  /** A policy decision point, as the services that consult it see it. */
  type PolicyEngine = ProcessingContext -> PolicyDecision

  class BaselinePolicyEngine {
    const mode: EnforcementMode

    constructor (mode: EnforcementMode)
      ensures this.mode == mode
    {
      this.mode := mode;
    }

    method Evaluate(context: ProcessingContext) returns (decision: PolicyDecision)
      ensures decision == Baseline(mode, context)
    {
      var sensitive := context.dataProfile.classification in {RestrictedPersonal, RegulatedHighImpact};
      var reasons: seq<Reason> := [];
      var obligations := {AuditDecision, PurposeLimitation};
      var denied := false;
      if context.operation == WorkflowIntake && context.dataProfile.categories * PROHIBITED_INTAKE != {} {
        denied := true;
        reasons := reasons + [ProhibitedAtIntake];
      }
      if sensitive && context.provider !in LOCAL_PROVIDERS {
        denied := true;
        reasons := reasons + [UnapprovedProvider];
      }
      var retention;
      if sensitive {
        obligations := obligations + SENSITIVE_OBLIGATIONS;
        retention := Restricted30Days;
        ControlsAreMany();
      } else {
        retention := Standard90Days;
      }
      var outcome;
      if denied {
        outcome := Deny;
      } else if |obligations| > 2 {
        outcome := PermitWithControls;
        reasons := reasons + [ControlsRequired];
      } else {
        outcome := Permit;
        reasons := reasons + [BaselinePermits];
      }
      decision := PolicyDecision(
        DecisionId(context, mode, outcome), outcome, !denied || mode != Enforce, mode,
        context.dataProfile.classification, obligations, reasons, retention, context.overlayIds);
    }
  }

  /** The test on the number of obligations is a test for the sensitive ones. */
  lemma ControlsAreMany()
    ensures |{AuditDecision, PurposeLimitation} + SENSITIVE_OBLIGATIONS| > 2
  {
    var three := {AuditDecision, PurposeLimitation, DataMinimization};
    assert |three| == 3;
    CardinalityGrows(three, {AuditDecision, PurposeLimitation} + SENSITIVE_OBLIGATIONS);
  }

  lemma CardinalityGrows<T>(a: set<T>, b: set<T>)
    requires a <= b
    ensures |a| <= |b|
  {
    assert b == a + (b - a);
  }

  // ----- What the categories mean, by name -----

  /** Every category but general content has a detection rule. */
  lemma EveryOtherCategoryHasARule(matches: Detector, text: string)
    ensures forall category :: category in DetectedIn(matches, text)
                               <==> category != GeneralContent && matches(category, text)
  {
    assert PATTERNS[0] == HealthInformation && PATTERNS[1] == FinancialInformation && PATTERNS[2] == PaymentCardData;
    assert PATTERNS[3] == Credentials && PATTERNS[4] == BiometricInformation && PATTERNS[5] == ChildrensData;
    assert PATTERNS[6] == EducationRecords && PATTERNS[7] == GovernmentData && PATTERNS[8] == ContactInformation;
    forall category: DataCategory ensures category in PATTERNS <==> category != GeneralContent {
      if category == GeneralContent {
        assert forall i :: 0 <= i < |PATTERNS| ==> PATTERNS[i] != GeneralContent;
      }
    }
  }

  /** The level of a profile, category by category: card and government data are regulated; apart from those, all but
      general content and contact information is restricted; contact information alone is confidential. */
  lemma LevelsByName(matches: Detector, text: string, declared: set<DataCategory>, profile: DataProfile)
    requires IsProfile(matches, text, declared, profile)
    ensures var c := profile.categories;
            && (profile.classification == RegulatedHighImpact <==> PaymentCardData in c || GovernmentData in c)
            && (profile.classification in {RestrictedPersonal, RegulatedHighImpact}
                <==> exists category :: category in c && category !in {GeneralContent, ContactInformation})
            && (profile.classification == Internal <==> c == {GeneralContent})
  {
    var c := profile.categories;
    var top :| top in c && ClassificationOf(top) == profile.classification;
    assert forall category :: category in c ==> Order(ClassificationOf(category)) <= Order(ClassificationOf(top));
    OrdersByName(top);
    assert c == {GeneralContent} <==> c <= {GeneralContent};
  }

  lemma OrdersByName(category: DataCategory)
    ensures Order(ClassificationOf(category)) == 3 <==> category in {PaymentCardData, GovernmentData}
    ensures Order(ClassificationOf(category)) >= 2 <==> category !in {GeneralContent, ContactInformation}
    ensures Order(ClassificationOf(category)) >= 1 <==> category != GeneralContent
  {
  }

  /** The basis tells for each category why it is there. */
  lemma BasisByName(matches: Detector, text: string, declared: set<DataCategory>, profile: DataProfile)
    requires IsProfile(matches, text, declared, profile)
    ensures forall c :: Declared(c) in profile.basis <==> c in declared
    ensures forall c :: Detected(c) in profile.basis <==> c != GeneralContent && matches(c, text)
    ensures DefaultGeneral in profile.basis
            <==> declared == {} && forall c :: c != GeneralContent ==> !matches(c, text)
  {
    EveryOtherCategoryHasARule(matches, text);
    assert declared + DetectedIn(matches, text) == {} <==> declared == {} && DetectedIn(matches, text) == {};
  }

  // ----- What declaring more can and cannot change -----

  /** Two profiles of the same text with nested declarations, carried into the same request for processing. */
  lemma DeclaringMoreNeverWeakens(
    matches: Detector, text: string, fewer: set<DataCategory>, more: set<DataCategory>,
    p: DataProfile, q: DataProfile, mode: EnforcementMode, context: ProcessingContext)
    requires fewer <= more
    requires IsProfile(matches, text, fewer, p) && IsProfile(matches, text, more, q)
    ensures Order(p.classification) <= Order(q.classification)
    ensures var d, e := Baseline(mode, context.(dataProfile := p)), Baseline(mode, context.(dataProfile := q));
            && d.obligations <= e.obligations
            && Strength(d.outcome) <= Strength(e.outcome)
            && (e.executionAllowed ==> d.executionAllowed)
            && (e.retention == Standard90Days ==> d.retention == Standard90Days)
  {
    var witness' :| witness' in p.categories && ClassificationOf(witness') == p.classification;
    if witness' in q.categories {
    } else {
      assert witness' == GeneralContent;
    }
  }

  /** Declaring more keeps every category except the default one, which goes exactly when it was only a default. */
  lemma OnlyTheDefaultCategoryDisappears(
    matches: Detector, text: string, fewer: set<DataCategory>, more: set<DataCategory>)
    requires fewer <= more
    ensures CategoriesOf(matches, text, fewer) - {GeneralContent} <= CategoriesOf(matches, text, more)
    ensures CategoriesOf(matches, text, fewer) <= CategoriesOf(matches, text, more)
            <==> !(fewer + DetectedIn(matches, text) == {} && more != {} && GeneralContent !in more)
  {
    if fewer + DetectedIn(matches, text) == {} {
      assert GeneralContent in CategoriesOf(matches, text, fewer);
      assert more + DetectedIn(matches, text) == more;
    }
  }

  /** The mode decides only whether a denial is enforced. */
  lemma ModeOnlyGatesDenials(a: EnforcementMode, b: EnforcementMode, context: ProcessingContext)
    ensures var d, e := Baseline(a, context), Baseline(b, context);
            && e == d.(mode := b, executionAllowed := e.executionAllowed, decisionId := e.decisionId)
            && (d.executionAllowed <==> (d.outcome == Deny ==> a != Enforce))
            && d.reasons != []
  {
  }

  /** A declared or detected category other than general content and contact information, and nothing else, brings the
      full set of controls, short retention and local processing. */
  lemma SensitiveDataIsControlled(
    matches: Detector, text: string, declared: set<DataCategory>, mode: EnforcementMode, context: ProcessingContext)
    requires IsProfile(matches, text, declared, context.dataProfile)
    ensures var d := Baseline(mode, context);
            var controlled := exists category ::
                                category in declared + DetectedIn(matches, text)
                                && category !in {GeneralContent, ContactInformation};
            && d.obligations == (if controlled
                                 then {AuditDecision, PurposeLimitation, DataMinimization, RedactBeforeExternalProcessing,
                                       LocalProcessingOnly, NoProviderTraining, HumanApprovalForSideEffects,
                                       EnhancedAccessLogging}
                                 else {AuditDecision, PurposeLimitation})
            && (controlled <==> d.retention == Restricted30Days)
            && (controlled ==> d.outcome != Permit)
            && (d.outcome == Permit ==> d.executionAllowed)
            && (controlled && context.provider !in {"local-api", "deterministic-local"} ==> d.outcome == Deny)
  {
    LevelsByName(matches, text, declared, context.dataProfile);
    var found := declared + DetectedIn(matches, text);
    assert forall category :: category in context.dataProfile.categories && category != GeneralContent ==> category in found;
    assert forall category :: category in found ==> category in context.dataProfile.categories;
  }

  /** Why a request is denied, and that nothing else is. */
  lemma DenialsAreExplained(mode: EnforcementMode, context: ProcessingContext)
    ensures var d := Baseline(mode, context);
            && (ProhibitedAtIntake in d.reasons <==>
                  context.operation == WorkflowIntake
                  && (Credentials in context.dataProfile.categories || PaymentCardData in context.dataProfile.categories))
            && (UnapprovedProvider in d.reasons <==>
                  context.dataProfile.classification in {RestrictedPersonal, RegulatedHighImpact}
                  && context.provider !in {"local-api", "deterministic-local"})
            && (d.outcome == Deny <==> ProhibitedAtIntake in d.reasons || UnapprovedProvider in d.reasons)
            && (d.outcome == Permit <==> d.reasons == [BaselinePermits])
            && (d.outcome == PermitWithControls <==> d.reasons == [ControlsRequired])
            && d.classification == context.dataProfile.classification && d.mode == mode
            && d.overlayIds == context.overlayIds
  {
    var reasons := ReasonsOf(context);
    if OutcomeOf(context) == Deny {
      assert reasons[0] == ProhibitedAtIntake || reasons[0] == UnapprovedProvider;
    } else {
      assert reasons == [if OutcomeOf(context) == Permit then BaselinePermits else ControlsRequired];
    }
    var prohibited := context.dataProfile.categories * PROHIBITED_INTAKE;
    assert prohibited != {} <==> Credentials in prohibited || PaymentCardData in prohibited;
  }

  /** Decisions have the same identifier exactly when they were made in the same mode on the same context. */
  lemma IdentifiersIdentify(a: EnforcementMode, b: EnforcementMode, x: ProcessingContext, y: ProcessingContext)
    ensures Baseline(a, x).decisionId == Baseline(b, y).decisionId <==> a == b && x == y
  {
  }

  /** A context re-targeted to the local provider for a later stage is never denied, whatever was stored. */
  lemma LaterStagesAreNeverDenied(mode: EnforcementMode, stored: ProcessingContext, stage: ProcessingOperation)
    requires stage != WorkflowIntake
    ensures Baseline(mode, stored.(operation := stage, provider := DETERMINISTIC_LOCAL)).outcome != Deny
    ensures Baseline(mode, stored.(operation := stage, provider := DETERMINISTIC_LOCAL)).executionAllowed
  {
    assert DETERMINISTIC_LOCAL in LOCAL_PROVIDERS;
  }

  /** With the baseline in force, what passes intake holds neither credentials nor card data, and only then passes. */
  lemma EnforcedIntakeAdmits(context: ProcessingContext)
    requires context.operation == WorkflowIntake && context.provider == LOCAL_API
    ensures Baseline(Enforce, context).executionAllowed
            <==> Credentials !in context.dataProfile.categories && PaymentCardData !in context.dataProfile.categories
  {
    assert LOCAL_API in LOCAL_PROVIDERS;
    if Credentials in context.dataProfile.categories {
      assert Credentials in context.dataProfile.categories * PROHIBITED_INTAKE;
    }
    if PaymentCardData in context.dataProfile.categories {
      assert PaymentCardData in context.dataProfile.categories * PROHIBITED_INTAKE;
    }
  }
}
