/** Agent profiles: their validation, the contract text printed from them for the model,
    and a decoder showing that the text determines the profile. */
module ProfileContract {
  import opened Prelude
  import opened Text

  datatype AgentRole =
    | RequirementsAnalyst | Explorer | Architect | Planner | Coder | Reviewer | SecurityAuditor
    | PerformanceEngineer | Tester | ReleaseManager | Debugger | Researcher | MergeAgent | Coordinator
    | StaffingRouter | Supervisor | ProductManager | UxResearcher | ProductDesigner | DesignSystemEngineer
    | FrontendEngineer | BackendEngineer | ApiDesigner | DatabaseEngineer | QualityEngineer
    | AccessibilityEngineer | PlatformEngineer | SiteReliabilityEngineer | TechnicalWriter
    | LocalizationEngineer | AnalyticsEngineer

  datatype ReasoningLevel = Off | Minimal | Low | Medium | High | Xhigh | Maximal

  datatype AgentProcedureStep = AgentProcedureStep(id: string, action: string, produces: string, stopCondition: string)

  datatype AgentFailureRule = AgentFailureRule(condition: string, action: string, escalation: string)

  datatype AgentModelPolicy = AgentModelPolicy(
    recommendedReasoning: ReasoningLevel,
    targetTurns: U8,
    maxTurns: U8,
    extensionTurns: U8,
    maxStuckRecoveries: U8,
    maxOutputTokens: U32,
    maxToolCalls: U32)

  datatype AgentMemoryPolicy = AgentMemoryPolicy(
    readScopes: seq<string>,
    writeScope: Option<string>,
    writeRules: seq<string>)

  datatype AgentProfile = AgentProfile(
    schemaVersion: U32,
    profileId: string,
    role: AgentRole,
    mission: string,
    nonGoals: seq<string>,
    requiredInputs: seq<string>,
    procedure: seq<AgentProcedureStep>,
    outputContract: seq<string>,
    evidenceRequirements: seq<string>,
    failurePolicy: seq<AgentFailureRule>,
    contextPriorities: seq<string>,
    toolStrategy: seq<string>,
    methodologySources: seq<string>,
    memoryPolicy: AgentMemoryPolicy,
    modelPolicy: AgentModelPolicy,
    completionGate: seq<string>)

  // ---------------------------------------------------------------- validation

  datatype ProfileError = ProfileInvalid | ProcedureInvalid | FailurePolicyInvalid

  const SCHEMA_VERSION: U32 := 1

  predicate Filled(items: seq<string>) {
    items != [] && forall i :: 0 <= i < |items| ==> !Blank(items[i])
  }

  predicate HeaderSound(p: AgentProfile) {
    && p.schemaVersion == SCHEMA_VERSION
    && !Blank(p.profileId) && !Blank(p.mission)
    && Filled(p.nonGoals) && Filled(p.requiredInputs) && Filled(p.outputContract)
    && Filled(p.evidenceRequirements) && Filled(p.contextPriorities) && Filled(p.toolStrategy)
    && Filled(p.methodologySources) && Filled(p.memoryPolicy.readScopes)
    && Filled(p.memoryPolicy.writeRules) && Filled(p.completionGate)
    && |p.procedure| >= 4 && |p.failurePolicy| >= 2
    && 1 <= p.modelPolicy.maxTurns <= 64
    && 1 <= p.modelPolicy.targetTurns <= p.modelPolicy.maxTurns
    && 1 <= p.modelPolicy.extensionTurns <= p.modelPolicy.maxTurns
    && p.modelPolicy.maxStuckRecoveries <= 4
    && 256 <= p.modelPolicy.maxOutputTokens <= 32768
    && p.modelPolicy.maxToolCalls <= 64
  }

  predicate StepSound(s: AgentProcedureStep) {
    !Blank(s.id) && !Blank(s.action) && !Blank(s.produces) && !Blank(s.stopCondition)
  }

  predicate RuleSound(r: AgentFailureRule) {
    !Blank(r.condition) && !Blank(r.action) && !Blank(r.escalation)
  }

  predicate ProcedureSound(steps: seq<AgentProcedureStep>) {
    && (forall i :: 0 <= i < |steps| ==> StepSound(steps[i]))
    && (forall i, j :: 0 <= i < j < |steps| ==> steps[i].id != steps[j].id)
  }

  /** The verdict on a profile: the first of the three groups of rules it breaks. */
  function Verdict(p: AgentProfile): Option<ProfileError> {
    if !HeaderSound(p) then Some(ProfileInvalid)
    else if !ProcedureSound(p.procedure) then Some(ProcedureInvalid)
    else if !(forall i :: 0 <= i < |p.failurePolicy| ==> RuleSound(p.failurePolicy[i])) then Some(FailurePolicyInvalid)
    else None
  }

  /** Nothing is left once the text is trimmed. */
  predicate Empty(text: string) {
    Trim(text) == ""
  }

  ghost predicate Populated(items: seq<string>) {
    |items| > 0 && forall item :: item in items ==> !Empty(item)
  }

  lemma FilledIff(items: seq<string>)
    ensures Filled(items) <==> Populated(items)
  {
    forall i | 0 <= i < |items| ensures items[i] in items && (Empty(items[i]) <==> Blank(items[i])) {
      BlankIsTrimEmpty(items[i]);
    }
  }

  ghost predicate HeaderComplete(p: AgentProfile) {
    && p.schemaVersion == 1 && !Empty(p.profileId) && !Empty(p.mission)
    && Populated(p.nonGoals) && Populated(p.requiredInputs) && Populated(p.outputContract)
    && Populated(p.evidenceRequirements) && Populated(p.contextPriorities) && Populated(p.toolStrategy)
    && Populated(p.methodologySources) && Populated(p.memoryPolicy.readScopes)
    && Populated(p.memoryPolicy.writeRules) && Populated(p.completionGate)
    && |p.procedure| > 3 && |p.failurePolicy| > 1
  }

  predicate LimitsSensible(m: AgentModelPolicy) {
    && 0 < m.targetTurns && m.targetTurns <= m.maxTurns && m.maxTurns <= 64
    && 0 < m.extensionTurns && m.extensionTurns <= m.maxTurns
    && m.maxStuckRecoveries < 5 && m.maxToolCalls < 65 && 256 <= m.maxOutputTokens && m.maxOutputTokens <= 32 * 1024
  }

  lemma HeaderSoundIff(p: AgentProfile)
    ensures HeaderSound(p) <==> HeaderComplete(p) && LimitsSensible(p.modelPolicy)
  {
    BlankIsTrimEmpty(p.profileId);
    BlankIsTrimEmpty(p.mission);
    FilledIff(p.nonGoals);
    FilledIff(p.requiredInputs);
    FilledIff(p.outputContract);
    FilledIff(p.evidenceRequirements);
    FilledIff(p.contextPriorities);
    FilledIff(p.toolStrategy);
    FilledIff(p.methodologySources);
    FilledIff(p.memoryPolicy.readScopes);
    FilledIff(p.memoryPolicy.writeRules);
    FilledIff(p.completionGate);
  }

  ghost predicate ProcedureComplete(steps: seq<AgentProcedureStep>) {
    && (forall s :: s in steps ==> !Empty(s.id) && !Empty(s.action) && !Empty(s.produces) && !Empty(s.stopCondition))
    && (forall i, j :: 0 <= i < |steps| && 0 <= j < |steps| && i != j ==> steps[i].id != steps[j].id)
  }

  lemma StepSoundIff(s: AgentProcedureStep)
    ensures StepSound(s) <==> !Empty(s.id) && !Empty(s.action) && !Empty(s.produces) && !Empty(s.stopCondition)
  {
    BlankIsTrimEmpty(s.id);
    BlankIsTrimEmpty(s.action);
    BlankIsTrimEmpty(s.produces);
    BlankIsTrimEmpty(s.stopCondition);
  }

  lemma ProcedureSoundIff(steps: seq<AgentProcedureStep>)
    ensures ProcedureSound(steps) <==> ProcedureComplete(steps)
  {
    forall i | 0 <= i < |steps|
      ensures steps[i] in steps
      ensures StepSound(steps[i]) <==>
          !Empty(steps[i].id) && !Empty(steps[i].action) && !Empty(steps[i].produces) && !Empty(steps[i].stopCondition)
    {
      StepSoundIff(steps[i]);
    }
  }

  ghost predicate RulesComplete(rules: seq<AgentFailureRule>) {
    forall r :: r in rules ==> !Empty(r.condition) && !Empty(r.action) && !Empty(r.escalation)
  }

  lemma RulesSoundIff(rules: seq<AgentFailureRule>)
    ensures (forall i :: 0 <= i < |rules| ==> RuleSound(rules[i])) <==> RulesComplete(rules)
  {
    forall i | 0 <= i < |rules|
      ensures rules[i] in rules
      ensures RuleSound(rules[i]) <==>
          !Empty(rules[i].condition) && !Empty(rules[i].action) && !Empty(rules[i].escalation)
    {
      BlankIsTrimEmpty(rules[i].condition);
      BlankIsTrimEmpty(rules[i].action);
      BlankIsTrimEmpty(rules[i].escalation);
    }
  }

  /** A profile is accepted exactly if its header is complete, its limits are sensible, its steps are filled
      in and told apart by their ids, and its failure rules are filled in. What is wrong is reported in
      this order. */
  lemma VerdictIff(p: AgentProfile)
    ensures
      var v, header := Verdict(p), HeaderComplete(p) && LimitsSensible(p.modelPolicy);
      var steps, rules := ProcedureComplete(p.procedure), RulesComplete(p.failurePolicy);
      && (v.None? <==> header && steps && rules)
      && (v == Some(ProfileInvalid) <==> !header)
      && (v == Some(ProcedureInvalid) <==> header && !steps)
      && (v == Some(FailurePolicyInvalid) <==> header && steps && !rules)
  {
    HeaderSoundIff(p);
    ProcedureSoundIff(p.procedure);
    RulesSoundIff(p.failurePolicy);
  }

  method Validate(p: AgentProfile) returns (r: Result<(), ProfileError>)
    ensures r == match Verdict(p) case Some(e) => Err(e) case None => Ok(())
  {
    if !HeaderSound(p) {
      return Err(ProfileInvalid);
    }
    var stepIds: set<string> := {};
    for k := 0 to |p.procedure|
      invariant ProcedureSound(p.procedure[..k])
      invariant forall id :: id in stepIds <==> exists i :: 0 <= i < k && p.procedure[i].id == id
    {
      var step := p.procedure[k];
      if !StepSound(step) || step.id in stepIds {
        assert !ProcedureSound(p.procedure);
        return Err(ProcedureInvalid);
      }
      stepIds := stepIds + {step.id};
      assert p.procedure[..k + 1] == p.procedure[..k] + [step];
    }
    assert p.procedure[..|p.procedure|] == p.procedure;
    for k := 0 to |p.failurePolicy|
      invariant forall i :: 0 <= i < k ==> RuleSound(p.failurePolicy[i])
    {
      if !RuleSound(p.failurePolicy[k]) {
        return Err(FailurePolicyInvalid);
      }
    }
    return Ok(());
  }

  // ---------------------------------------------------------------- escaping

  /** Four replacements in turn, the ampersand first. */
  function Escape(value: string): string {
    Replace(Replace(Replace(Replace(value, '&', "&amp;"), '<', "&lt;"), '>', "&gt;"), '"', "&quot;")
  }

  function Entity(c: char): string {
    if c == '&' then "&amp;" else if c == '<' then "&lt;"
    else if c == '>' then "&gt;" else if c == '"' then "&quot;" else [c]
  }

  /** One left-to-right pass that substitutes each character on its own. */
  function Substitute(value: string): string {
    if value == "" then "" else Entity(value[0]) + Substitute(value[1..])
  }

  function Unescape(s: string): string {
    if s == "" then ""
    else if "&amp;" <= s then "&" + Unescape(s[5..])
    else if "&lt;" <= s then "<" + Unescape(s[4..])
    else if "&gt;" <= s then ">" + Unescape(s[4..])
    else if "&quot;" <= s then "\"" + Unescape(s[6..])
    else [s[0]] + Unescape(s[1..])
  }

  /** Text without the last three special characters passes the last three replacements. */
  lemma PlainIsFixed(s: string)
    requires '<' !in s && '>' !in s && '"' !in s
    ensures Replace(Replace(Replace(s, '<', "&lt;"), '>', "&gt;"), '"', "&quot;") == s
  {
    ReplaceAbsent(s, '<', "&lt;");
    ReplaceAbsent(s, '>', "&gt;");
    ReplaceAbsent(s, '"', "&quot;");
  }

  lemma EscapeOne(c: char)
    ensures Escape([c]) == Entity(c)
  {
    if c == '&' {
      ReplaceOne(c, Entity(c));
      PlainIsFixed(Entity(c));
    } else {
      ReplaceAbsent([c], '&', "&amp;");
      if c == '<' {
        assert Escape("<") == "&lt;";
      } else if c == '>' {
        assert Escape(">") == "&gt;";
      } else if c == '"' {
        assert Escape("\"") == "&quot;";
      } else {
        PlainIsFixed([c]);
      }
    }
  }

  lemma EscapeConcat(a: string, b: string)
    ensures Escape(a + b) == Escape(a) + Escape(b)
  {
    ReplaceConcat(a, b, '&', "&amp;");
    var a1, b1 := Replace(a, '&', "&amp;"), Replace(b, '&', "&amp;");
    ReplaceConcat(a1, b1, '<', "&lt;");
    var a2, b2 := Replace(a1, '<', "&lt;"), Replace(b1, '<', "&lt;");
    ReplaceConcat(a2, b2, '>', "&gt;");
    ReplaceConcat(Replace(a2, '>', "&gt;"), Replace(b2, '>', "&gt;"), '"', "&quot;");
  }

  /** The order of the four replacements is harmless: no inserted entity is replaced again. */
  lemma {:induction false} EscapeIsOnePass(value: string)
    ensures Escape(value) == Substitute(value)
  {
    if value != "" {
      assert value == [value[0]] + value[1..];
      EscapeConcat([value[0]], value[1..]);
      EscapeOne(value[0]);
      EscapeIsOnePass(value[1..]);
    }
  }

  lemma {:induction false} SubstituteClean(value: string)
    ensures '<' !in Substitute(value) && '>' !in Substitute(value) && '"' !in Substitute(value)
  {
    if value != "" {
      SubstituteClean(value[1..]);
    }
  }

  lemma UnescapeEntity(c: char, rest: string)
    ensures Unescape(Entity(c) + rest) == [c] + Unescape(rest)
  {
    var s := Entity(c) + rest;
    assert s[|Entity(c)|..] == rest;
    assert s[..|Entity(c)|] == Entity(c);
    if c == '&' || c == '<' || c == '>' || c == '"' {
      assert s[1] == Entity(c)[1];
      assert s[0] == '&';
    } else {
      assert s[0] == c;
    }
  }

  lemma {:induction false} UnescapeInverts(value: string)
    ensures Unescape(Escape(value)) == value
  {
    EscapeIsOnePass(value);
    if value != "" {
      EscapeIsOnePass(value[1..]);
      UnescapeInverts(value[1..]);
      UnescapeEntity(value[0], Substitute(value[1..]));
    }
  }

  /** Escaped text can stand between tags and inside quotes, and loses nothing. */
  lemma EscapeClean(value: string)
    ensures '<' !in Escape(value) && '>' !in Escape(value) && '"' !in Escape(value)
    ensures Unescape(Escape(value)) == value
  {
    EscapeIsOnePass(value);
    SubstituteClean(value);
    UnescapeInverts(value);
  }

  // ---------------------------------------------------------------- names of the enumerations

  function RoleName(role: AgentRole): string {
    match role
    case RequirementsAnalyst => "RequirementsAnalyst"
    case Explorer => "Explorer"
    case Architect => "Architect"
    case Planner => "Planner"
    case Coder => "Coder"
    case Reviewer => "Reviewer"
    case SecurityAuditor => "SecurityAuditor"
    case PerformanceEngineer => "PerformanceEngineer"
    case Tester => "Tester"
    case ReleaseManager => "ReleaseManager"
    case Debugger => "Debugger"
    case Researcher => "Researcher"
    case MergeAgent => "MergeAgent"
    case Coordinator => "Coordinator"
    case StaffingRouter => "StaffingRouter"
    case Supervisor => "Supervisor"
    case ProductManager => "ProductManager"
    case UxResearcher => "UxResearcher"
    case ProductDesigner => "ProductDesigner"
    case DesignSystemEngineer => "DesignSystemEngineer"
    case FrontendEngineer => "FrontendEngineer"
    case BackendEngineer => "BackendEngineer"
    case ApiDesigner => "ApiDesigner"
    case DatabaseEngineer => "DatabaseEngineer"
    case QualityEngineer => "QualityEngineer"
    case AccessibilityEngineer => "AccessibilityEngineer"
    case PlatformEngineer => "PlatformEngineer"
    case SiteReliabilityEngineer => "SiteReliabilityEngineer"
    case TechnicalWriter => "TechnicalWriter"
    case LocalizationEngineer => "LocalizationEngineer"
    case AnalyticsEngineer => "AnalyticsEngineer"
  }

  /** The length and the first letter of a role's name already tell the roles apart. */
  function RoleInitial(role: AgentRole): (nat, char) {
    match role
    case RequirementsAnalyst => (19, 'R')
    case Explorer => (8, 'E')
    case Architect => (9, 'A')
    case Planner => (7, 'P')
    case Coder => (5, 'C')
    case Reviewer => (8, 'R')
    case SecurityAuditor => (15, 'S')
    case PerformanceEngineer => (19, 'P')
    case Tester => (6, 'T')
    case ReleaseManager => (14, 'R')
    case Debugger => (8, 'D')
    case Researcher => (10, 'R')
    case MergeAgent => (10, 'M')
    case Coordinator => (11, 'C')
    case StaffingRouter => (14, 'S')
    case Supervisor => (10, 'S')
    case ProductManager => (14, 'P')
    case UxResearcher => (12, 'U')
    case ProductDesigner => (15, 'P')
    case DesignSystemEngineer => (20, 'D')
    case FrontendEngineer => (16, 'F')
    case BackendEngineer => (15, 'B')
    case ApiDesigner => (11, 'A')
    case DatabaseEngineer => (16, 'D')
    case QualityEngineer => (15, 'Q')
    case AccessibilityEngineer => (21, 'A')
    case PlatformEngineer => (16, 'P')
    case SiteReliabilityEngineer => (23, 'S')
    case TechnicalWriter => (15, 'T')
    case LocalizationEngineer => (20, 'L')
    case AnalyticsEngineer => (17, 'A')
  }

  lemma InitialOfName(role: AgentRole)
    ensures (|RoleName(role)|, RoleName(role)[0]) == RoleInitial(role)
  {
  }

  lemma InitialsDiffer(a: AgentRole, b: AgentRole)
    requires RoleInitial(a) == RoleInitial(b)
    ensures a == b
  {
  }

  lemma RoleNamesDiffer(a: AgentRole, b: AgentRole)
    requires RoleName(a) == RoleName(b)
    ensures a == b
  {
    InitialOfName(a);
    InitialOfName(b);
    InitialsDiffer(a, b);
  }

  /** The roles of the full-stack product team. */
  predicate Fullstack(role: AgentRole) {
    match role
    case ProductManager | UxResearcher | ProductDesigner | DesignSystemEngineer | FrontendEngineer
       | BackendEngineer | ApiDesigner | DatabaseEngineer | QualityEngineer | AccessibilityEngineer
       | PlatformEngineer | SiteReliabilityEngineer | TechnicalWriter | LocalizationEngineer | AnalyticsEngineer => true
    case _ => false
  }

  lemma FullstackNameClean(role: AgentRole)
    requires Fullstack(role)
    ensures '"' !in RoleName(role)
  {
    match role
    case ProductManager => assert '"' !in "ProductManager";
    case UxResearcher => assert '"' !in "UxResearcher";
    case ProductDesigner => assert '"' !in "ProductDesigner";
    case DesignSystemEngineer => assert '"' !in "DesignSystemEngineer";
    case FrontendEngineer => assert '"' !in "FrontendEngineer";
    case BackendEngineer => assert '"' !in "BackendEngineer";
    case ApiDesigner => assert '"' !in "ApiDesigner";
    case DatabaseEngineer => assert '"' !in "DatabaseEngineer";
    case QualityEngineer => assert '"' !in "QualityEngineer";
    case AccessibilityEngineer => assert '"' !in "AccessibilityEngineer";
    case PlatformEngineer => assert '"' !in "PlatformEngineer";
    case SiteReliabilityEngineer => assert '"' !in "SiteReliabilityEngineer";
    case TechnicalWriter => assert '"' !in "TechnicalWriter";
    case LocalizationEngineer => assert '"' !in "LocalizationEngineer";
    case AnalyticsEngineer => assert '"' !in "AnalyticsEngineer";
    case _ =>
  }

  lemma RoleNameClean(role: AgentRole)
    ensures '"' !in RoleName(role)
  {
    match role
    case RequirementsAnalyst => assert '"' !in "RequirementsAnalyst";
    case Explorer => assert '"' !in "Explorer";
    case Architect => assert '"' !in "Architect";
    case Planner => assert '"' !in "Planner";
    case Coder => assert '"' !in "Coder";
    case Reviewer => assert '"' !in "Reviewer";
    case SecurityAuditor => assert '"' !in "SecurityAuditor";
    case PerformanceEngineer => assert '"' !in "PerformanceEngineer";
    case Tester => assert '"' !in "Tester";
    case ReleaseManager => assert '"' !in "ReleaseManager";
    case Debugger => assert '"' !in "Debugger";
    case Researcher => assert '"' !in "Researcher";
    case MergeAgent => assert '"' !in "MergeAgent";
    case Coordinator => assert '"' !in "Coordinator";
    case StaffingRouter => assert '"' !in "StaffingRouter";
    case Supervisor => assert '"' !in "Supervisor";
    case _ => FullstackNameClean(role);
  }

  function ReasoningName(level: ReasoningLevel): string {
    match level
    case Off => "Off"
    case Minimal => "Minimal"
    case Low => "Low"
    case Medium => "Medium"
    case High => "High"
    case Xhigh => "Xhigh"
    case Maximal => "Max"
  }

  lemma ReasoningNameClean(level: ReasoningLevel)
    ensures '"' !in ReasoningName(level)
  {
  }

  // ---------------------------------------------------------------- the contract text

  function Attribute(name: string, value: string): string {
    " " + name + "=\"" + value + "\""
  }

  function Element(tag: string, value: string): string {
    "<" + tag + ">" + Escape(value) + "</" + tag + ">"
  }

  function Items(values: seq<string>): string {
    if values == [] then "" else Element("item", values[0]) + Items(values[1..])
  }

  function Listing(tag: string, values: seq<string>): string {
    "<" + tag + ">" + Items(values) + "</" + tag + ">"
  }

  function Step(s: AgentProcedureStep): string {
    "<step" + Attribute("id", Escape(s.id)) + ">" + Element("action", s.action)
    + Element("produces", s.produces) + Element("stop", s.stopCondition) + "</step>"
  }

  function Steps(steps: seq<AgentProcedureStep>): string {
    if steps == [] then "" else Step(steps[0]) + Steps(steps[1..])
  }

  function Rule(r: AgentFailureRule): string {
    "<rule>" + Element("condition", r.condition) + Element("action", r.action)
    + Element("escalation", r.escalation) + "</rule>"
  }

  function Rules(rules: seq<AgentFailureRule>): string {
    if rules == [] then "" else Rule(rules[0]) + Rules(rules[1..])
  }

  function Opening(schemaVersion: U32, profileId: string, role: AgentRole): string {
    "<agent-profile" + Attribute("schema", Decimal(schemaVersion)) + Attribute("id", Escape(profileId))
    + Attribute("role", RoleName(role)) + ">"
  }

  function Memory(m: AgentMemoryPolicy): string {
    "<memory-policy" + Attribute("write-scope", Escape(m.writeScope.GetOr("none"))) + ">"
    + Listing("read-scopes", m.readScopes) + Listing("write-rules", m.writeRules) + "</memory-policy>"
  }

  function TurnLimits(m: AgentModelPolicy): string {
    Attribute("target-turns", Decimal(m.targetTurns)) + Attribute("max-turns", Decimal(m.maxTurns))
    + Attribute("extension-turns", Decimal(m.extensionTurns))
  }

  function OtherLimits(m: AgentModelPolicy): string {
    Attribute("max-stuck-recoveries", Decimal(m.maxStuckRecoveries))
    + Attribute("max-output-tokens", Decimal(m.maxOutputTokens))
    + Attribute("max-tool-calls", Decimal(m.maxToolCalls))
  }

  function ModelPolicy(m: AgentModelPolicy): string {
    "<model-policy" + Attribute("recommended-reasoning", ReasoningName(m.recommendedReasoning))
    + TurnLimits(m) + OtherLimits(m) + " />"
  }

  /** The mission and what precedes the procedure. */
  function FrontText(p: AgentProfile, rest: string): string {
    Opening(p.schemaVersion, p.profileId, p.role) + (Element("mission", p.mission)
    + (Listing("non-goals", p.nonGoals) + (Listing("required-inputs", p.requiredInputs) + rest)))
  }

  /** From the procedure to the failure policy. */
  function MiddleText(p: AgentProfile, rest: string): string {
    ("<procedure>" + Steps(p.procedure) + "</procedure>") + (Listing("output-contract", p.outputContract)
    + (Listing("evidence-requirements", p.evidenceRequirements)
    + (("<failure-policy>" + Rules(p.failurePolicy) + "</failure-policy>") + rest)))
  }

  /** What follows the failure policy. */
  function BackText(p: AgentProfile, rest: string): string {
    Listing("context-priorities", p.contextPriorities) + (Listing("tool-strategy", p.toolStrategy)
    + (Listing("methodology-sources", p.methodologySources) + (Memory(p.memoryPolicy)
    + (ModelPolicy(p.modelPolicy) + (Listing("completion-gate", p.completionGate) + rest)))))
  }

  function RenderContract(p: AgentProfile): string {
    FrontText(p, MiddleText(p, BackText(p, "</agent-profile>")))
  }
}
