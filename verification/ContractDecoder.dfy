/** A reader for the contract text, written as an independent check on the printer: what
    it reads back is the profile that was printed. */
module ContractDecoder {
  import opened Prelude
  import opened Text
  import opened ProfileContract

  /** What was read, and the text that follows it. */
  type Read<T> = Option<(T, string)>

  function ReadAttribute(name: string, s: string): (r: Read<string>)
    ensures r.Some? ==> |r.value.1| < |s|
  {
    var s1 :- Expect(" " + name + "=\"", s);
    var (value, s2) := Upto('"', s1);
    UptoShrinks('"', s1);
    var s3 :- Expect("\"", s2);
    Some((value, s3))
  }

  function ReadElement(tag: string, s: string): (r: Read<string>)
    ensures r.Some? ==> |r.value.1| < |s|
  {
    var s1 :- Expect("<" + tag + ">", s);
    var (text, s2) := Upto('<', s1);
    UptoShrinks('<', s1);
    var s3 :- Expect("</" + tag + ">", s2);
    Some((Unescape(text), s3))
  }

  function ReadItems(s: string): Read<seq<string>>
    decreases |s|
  {
    if !("<item>" <= s) then Some(([], s))
    else
      var (value, s1) :- ReadElement("item", s);
      var (values, s2) :- ReadItems(s1);
      Some(([value] + values, s2))
  }

  function ReadListing(tag: string, s: string): Read<seq<string>> {
    var s1 :- Expect("<" + tag + ">", s);
    var (values, s2) :- ReadItems(s1);
    var s3 :- Expect("</" + tag + ">", s2);
    Some((values, s3))
  }

  function ReadStep(s: string): (r: Read<AgentProcedureStep>)
    ensures r.Some? ==> |r.value.1| < |s|
  {
    var s1 :- Expect("<step", s);
    var (id, s2) :- ReadAttribute("id", s1);
    var s3 :- Expect(">", s2);
    var (action, s4) :- ReadElement("action", s3);
    var (produces, s5) :- ReadElement("produces", s4);
    var (stop, s6) :- ReadElement("stop", s5);
    var s7 :- Expect("</step>", s6);
    Some((AgentProcedureStep(Unescape(id), action, produces, stop), s7))
  }

  function ReadSteps(s: string): Read<seq<AgentProcedureStep>>
    decreases |s|
  {
    if !("<step" <= s) then Some(([], s))
    else
      var (step, s1) :- ReadStep(s);
      var (steps, s2) :- ReadSteps(s1);
      Some(([step] + steps, s2))
  }

  function ReadRule(s: string): (r: Read<AgentFailureRule>)
    ensures r.Some? ==> |r.value.1| < |s|
  {
    var s1 :- Expect("<rule>", s);
    var (condition, s2) :- ReadElement("condition", s1);
    var (action, s3) :- ReadElement("action", s2);
    var (escalation, s4) :- ReadElement("escalation", s3);
    var s5 :- Expect("</rule>", s4);
    Some((AgentFailureRule(condition, action, escalation), s5))
  }

  function ReadRules(s: string): Read<seq<AgentFailureRule>>
    decreases |s|
  {
    if !("<rule>" <= s) then Some(([], s))
    else
      var (rule, s1) :- ReadRule(s);
      var (rules, s2) :- ReadRules(s1);
      Some(([rule] + rules, s2))
  }

  function ReadNumber(name: string, limit: nat, s: string): Read<nat> {
    var (text, s1) :- ReadAttribute(name, s);
    var n :- ParseDecimal(text);
    if n <= limit then Some((n, s1)) else None
  }

  function RoleNamed(name: string): Option<AgentRole> {
    if exists role :: RoleName(role) == name
    then
      assert forall a, b :: RoleName(a) == RoleName(b) ==> a == b by {
        forall a, b | RoleName(a) == RoleName(b) ensures a == b { RoleNamesDiffer(a, b); }
      }
      var role :| RoleName(role) == name;
      Some(role)
    else None
  }

  function ReasoningNamed(name: string): Option<ReasoningLevel> {
    if exists level :: ReasoningName(level) == name
    then
      var level :| ReasoningName(level) == name;
      Some(level)
    else None
  }

  function ReadOpening(s: string): Read<(U32, string, AgentRole)> {
    var s1 :- Expect("<agent-profile", s);
    var (schema, s2) :- ReadNumber("schema", U32_MAX, s1);
    var (id, s3) :- ReadAttribute("id", s2);
    var (name, s4) :- ReadAttribute("role", s3);
    var s5 :- Expect(">", s4);
    var role :- RoleNamed(name);
    Some(((schema, Unescape(id), role), s5))
  }

  function ReadMemory(s: string): Read<AgentMemoryPolicy> {
    var s1 :- Expect("<memory-policy", s);
    var (scope, s2) :- ReadAttribute("write-scope", s1);
    var s3 :- Expect(">", s2);
    var (scopes, s4) :- ReadListing("read-scopes", s3);
    var (rules, s5) :- ReadListing("write-rules", s4);
    var s6 :- Expect("</memory-policy>", s5);
    Some((AgentMemoryPolicy(scopes, Some(Unescape(scope)), rules), s6))
  }

  function ReadTurnLimits(s: string): Read<(U8, U8, U8)> {
    var (target, s1) :- ReadNumber("target-turns", U8_MAX, s);
    var (limit, s2) :- ReadNumber("max-turns", U8_MAX, s1);
    var (extension, s3) :- ReadNumber("extension-turns", U8_MAX, s2);
    Some(((target, limit, extension), s3))
  }

  function ReadOtherLimits(s: string): Read<(U8, U32, U32)> {
    var (stuck, s1) :- ReadNumber("max-stuck-recoveries", U8_MAX, s);
    var (output, s2) :- ReadNumber("max-output-tokens", U32_MAX, s1);
    var (calls, s3) :- ReadNumber("max-tool-calls", U32_MAX, s2);
    Some(((stuck, output, calls), s3))
  }

  function ReadModelPolicy(s: string): Read<AgentModelPolicy> {
    var s1 :- Expect("<model-policy", s);
    var (name, s2) :- ReadAttribute("recommended-reasoning", s1);
    var (turns, s3) :- ReadTurnLimits(s2);
    var (others, s4) :- ReadOtherLimits(s3);
    var s5 :- Expect(" />", s4);
    var level :- ReasoningNamed(name);
    Some((AgentModelPolicy(level, turns.0, turns.1, turns.2, others.0, others.1, others.2), s5))
  }

  function ReadProcedure(s: string): Read<seq<AgentProcedureStep>> {
    var s1 :- Expect("<procedure>", s);
    var (steps, s2) :- ReadSteps(s1);
    var s3 :- Expect("</procedure>", s2);
    Some((steps, s3))
  }

  function ReadFailurePolicy(s: string): Read<seq<AgentFailureRule>> {
    var s1 :- Expect("<failure-policy>", s);
    var (rules, s2) :- ReadRules(s1);
    var s3 :- Expect("</failure-policy>", s2);
    Some((rules, s3))
  }

  /** What stands before the procedure. */
  datatype Front = Front(
    schema: U32, id: string, role: AgentRole, mission: string, nonGoals: seq<string>, requiredInputs: seq<string>)

  /** What stands from the procedure to the failure policy. */
  datatype Middle = Middle(
    procedure: seq<AgentProcedureStep>, outputContract: seq<string>, evidence: seq<string>,
    failurePolicy: seq<AgentFailureRule>)

  /** What stands after the failure policy. */
  datatype Back = Back(
    priorities: seq<string>, tools: seq<string>, sources: seq<string>, memory: AgentMemoryPolicy,
    model: AgentModelPolicy, gate: seq<string>)

  function ReadFront(s: string): Read<Front> {
    var (opening, s1) :- ReadOpening(s);
    var (mission, s2) :- ReadElement("mission", s1);
    var (nonGoals, s3) :- ReadListing("non-goals", s2);
    var (requiredInputs, s4) :- ReadListing("required-inputs", s3);
    Some((Front(opening.0, opening.1, opening.2, mission, nonGoals, requiredInputs), s4))
  }

  function ReadMiddle(s: string): Read<Middle> {
    var (procedure, s1) :- ReadProcedure(s);
    var (outputContract, s2) :- ReadListing("output-contract", s1);
    var (evidence, s3) :- ReadListing("evidence-requirements", s2);
    var (failurePolicy, s4) :- ReadFailurePolicy(s3);
    Some((Middle(procedure, outputContract, evidence, failurePolicy), s4))
  }

  function ReadBack(s: string): Read<Back> {
    var (priorities, s1) :- ReadListing("context-priorities", s);
    var (tools, s2) :- ReadListing("tool-strategy", s1);
    var (sources, s3) :- ReadListing("methodology-sources", s2);
    var (memory, s4) :- ReadMemory(s3);
    var (model, s5) :- ReadModelPolicy(s4);
    var (gate, s6) :- ReadListing("completion-gate", s5);
    Some((Back(priorities, tools, sources, memory, model, gate), s6))
  }

  function DecodeContract(s: string): Option<AgentProfile> {
    var (front, s1) :- ReadFront(s);
    var (middle, s2) :- ReadMiddle(s1);
    var (back, s3) :- ReadBack(s2);
    if s3 != "</agent-profile>" then None
    else Some(AgentProfile(front.schema, front.id, front.role, front.mission, front.nonGoals, front.requiredInputs,
                           middle.procedure, middle.outputContract, middle.evidence, middle.failurePolicy,
                           back.priorities, back.tools, back.sources, back.memory, back.model, back.gate))
  }

  // ---------------------------------------------------------------- reading undoes printing

  lemma AttributeReads(name: string, value: string, rest: string)
    requires '"' !in value
    ensures ReadAttribute(name, Attribute(name, value) + rest) == Some((value, rest))
  {
    var open := " " + name + "=\"";
    var tail := "\"" + rest;
    assert Attribute(name, value) + rest == open + (value + tail);
    ExpectReads(open, value + tail);
    UptoReads('"', value, tail);
    ExpectReads("\"", rest);
  }

  lemma NumberReads(name: string, limit: nat, n: nat, rest: string)
    requires n <= limit
    ensures ReadNumber(name, limit, Attribute(name, Decimal(n)) + rest) == Some((n, rest))
  {
    DecimalRoundTrip(n);
    AttributeReads(name, Decimal(n), rest);
  }

  lemma ElementReads(tag: string, value: string, rest: string)
    ensures ReadElement(tag, Element(tag, value) + rest) == Some((value, rest))
  {
    var open, close := "<" + tag + ">", "</" + tag + ">";
    EscapeClean(value);
    assert Element(tag, value) + rest == open + (Escape(value) + (close + rest));
    ExpectReads(open, Escape(value) + (close + rest));
    UptoReads('<', Escape(value), close + rest);
    ExpectReads(close, rest);
  }

  lemma ItemThenItems(first: string, more: seq<string>, text: string, tail: string, rest: string)
    requires "<item>" <= text && ReadElement("item", text) == Some((first, tail))
    requires ReadItems(tail) == Some((more, rest))
    ensures ReadItems(text) == Some(([first] + more, rest))
  {
  }

  lemma {:induction false} ItemsRead(values: seq<string>, rest: string)
    requires !("<item>" <= rest)
    ensures ReadItems(Items(values) + rest) == Some((values, rest))
  {
    if values == [] {
      assert Items(values) + rest == rest;
    } else {
      var more := Items(values[1..]) + rest;
      Regroup2(Element("item", values[0]), Items(values[1..]), rest);
      assert (Element("item", values[0]) + more)[..6] == "<item>";
      ElementReads("item", values[0], more);
      ItemsRead(values[1..], rest);
      ItemThenItems(values[0], values[1..], Element("item", values[0]) + more, more, rest);
      assert [values[0]] + values[1..] == values;
    }
  }

  lemma ListingReads(tag: string, values: seq<string>, rest: string)
    ensures ReadListing(tag, Listing(tag, values) + rest) == Some((values, rest))
  {
    var open, close := "<" + tag + ">", "</" + tag + ">";
    assert Listing(tag, values) + rest == open + (Items(values) + (close + rest));
    ExpectReads(open, Items(values) + (close + rest));
    assert (close + rest)[1] == '/';
    ItemsRead(values, close + rest);
    ExpectReads(close, rest);
  }

  lemma StepReads(s: AgentProcedureStep, rest: string)
    ensures ReadStep(Step(s) + rest) == Some((s, rest))
    ensures "<step" <= Step(s) + rest
  {
    var t5 := "</step>" + rest;
    var t4 := Element("stop", s.stopCondition) + t5;
    var t3 := Element("produces", s.produces) + t4;
    var t2 := Element("action", s.action) + t3;
    var t1 := Attribute("id", Escape(s.id)) + (">" + t2);
    Regroup7("<step", Attribute("id", Escape(s.id)), ">", Element("action", s.action),
             Element("produces", s.produces), Element("stop", s.stopCondition), "</step>", rest);
    EscapeClean(s.id);
    ExpectReads("<step", t1);
    AttributeReads("id", Escape(s.id), ">" + t2);
    ExpectReads(">", t2);
    ElementReads("action", s.action, t3);
    ElementReads("produces", s.produces, t4);
    ElementReads("stop", s.stopCondition, t5);
    ExpectReads("</step>", rest);
  }

  lemma StepThenSteps(first: AgentProcedureStep, more: seq<AgentProcedureStep>, text: string, tail: string,
      rest: string)
    requires "<step" <= text && ReadStep(text) == Some((first, tail)) && ReadSteps(tail) == Some((more, rest))
    ensures ReadSteps(text) == Some(([first] + more, rest))
  {
  }

  lemma {:induction false} StepsRead(steps: seq<AgentProcedureStep>, rest: string)
    requires !("<step" <= rest)
    ensures ReadSteps(Steps(steps) + rest) == Some((steps, rest))
  {
    if steps == [] {
      assert Steps(steps) + rest == rest;
    } else {
      var more := Steps(steps[1..]) + rest;
      Regroup2(Step(steps[0]), Steps(steps[1..]), rest);
      StepReads(steps[0], more);
      StepsRead(steps[1..], rest);
      StepThenSteps(steps[0], steps[1..], Step(steps[0]) + more, more, rest);
      assert [steps[0]] + steps[1..] == steps;
    }
  }

  lemma RuleReads(r: AgentFailureRule, rest: string)
    ensures ReadRule(Rule(r) + rest) == Some((r, rest))
    ensures "<rule>" <= Rule(r) + rest
  {
    var t4 := "</rule>" + rest;
    var t3 := Element("escalation", r.escalation) + t4;
    var t2 := Element("action", r.action) + t3;
    var t1 := Element("condition", r.condition) + t2;
    Regroup5("<rule>", Element("condition", r.condition), Element("action", r.action),
             Element("escalation", r.escalation), "</rule>", rest);
    ExpectReads("<rule>", t1);
    ElementReads("condition", r.condition, t2);
    ElementReads("action", r.action, t3);
    ElementReads("escalation", r.escalation, t4);
    ExpectReads("</rule>", rest);
  }

  lemma RuleThenRules(first: AgentFailureRule, more: seq<AgentFailureRule>, text: string, tail: string, rest: string)
    requires "<rule>" <= text && ReadRule(text) == Some((first, tail)) && ReadRules(tail) == Some((more, rest))
    ensures ReadRules(text) == Some(([first] + more, rest))
  {
  }

  lemma {:induction false} RulesRead(rules: seq<AgentFailureRule>, rest: string)
    requires !("<rule>" <= rest)
    ensures ReadRules(Rules(rules) + rest) == Some((rules, rest))
  {
    if rules == [] {
      assert Rules(rules) + rest == rest;
    } else {
      var more := Rules(rules[1..]) + rest;
      Regroup2(Rule(rules[0]), Rules(rules[1..]), rest);
      RuleReads(rules[0], more);
      RulesRead(rules[1..], rest);
      RuleThenRules(rules[0], rules[1..], Rule(rules[0]) + more, more, rest);
      assert [rules[0]] + rules[1..] == rules;
    }
  }

  lemma ProcedureReads(steps: seq<AgentProcedureStep>, rest: string)
    ensures ReadProcedure("<procedure>" + Steps(steps) + "</procedure>" + rest) == Some((steps, rest))
  {
    var tail := "</procedure>" + rest;
    Regroup3("<procedure>", Steps(steps), "</procedure>", rest);
    ExpectReads("<procedure>", Steps(steps) + tail);
    assert tail[1] == '/';
    StepsRead(steps, tail);
    ExpectReads("</procedure>", rest);
  }

  lemma FailurePolicyReads(rules: seq<AgentFailureRule>, rest: string)
    ensures ReadFailurePolicy("<failure-policy>" + Rules(rules) + "</failure-policy>" + rest) == Some((rules, rest))
  {
    var tail := "</failure-policy>" + rest;
    Regroup3("<failure-policy>", Rules(rules), "</failure-policy>", rest);
    ExpectReads("<failure-policy>", Rules(rules) + tail);
    assert tail[1] == '/';
    RulesRead(rules, tail);
    ExpectReads("</failure-policy>", rest);
  }

  lemma OpeningReads(schema: U32, id: string, role: AgentRole, rest: string)
    ensures ReadOpening(Opening(schema, id, role) + rest) == Some(((schema, id, role), rest))
  {
    var t4 := ">" + rest;
    var t3 := Attribute("role", RoleName(role)) + t4;
    var t2 := Attribute("id", Escape(id)) + t3;
    var t1 := Attribute("schema", Decimal(schema)) + t2;
    Regroup5("<agent-profile", Attribute("schema", Decimal(schema)), Attribute("id", Escape(id)),
             Attribute("role", RoleName(role)), ">", rest);
    ExpectReads("<agent-profile", t1);
    NumberReads("schema", U32_MAX, schema, t2);
    EscapeClean(id);
    AttributeReads("id", Escape(id), t3);
    RoleNameClean(role);
    AttributeReads("role", RoleName(role), t4);
    ExpectReads(">", rest);
    RoleNamedReads(role);
  }

  lemma RoleNamedReads(role: AgentRole)
    ensures RoleNamed(RoleName(role)) == Some(role)
  {
    var found := RoleNamed(RoleName(role));
    assert found.Some?;
    RoleNamesDiffer(found.value, role);
  }

  lemma ReasoningNamedReads(level: ReasoningLevel)
    ensures ReasoningNamed(ReasoningName(level)) == Some(level)
  {
  }

  lemma MemoryReads(m: AgentMemoryPolicy, rest: string)
    ensures ReadMemory(Memory(m) + rest) == Some((m.(writeScope := Some(m.writeScope.GetOr("none"))), rest))
  {
    var scope := m.writeScope.GetOr("none");
    var t5 := "</memory-policy>" + rest;
    var t4 := Listing("write-rules", m.writeRules) + t5;
    var t3 := Listing("read-scopes", m.readScopes) + t4;
    var t1 := Attribute("write-scope", Escape(scope)) + (">" + t3);
    Regroup6("<memory-policy", Attribute("write-scope", Escape(scope)), ">",
             Listing("read-scopes", m.readScopes), Listing("write-rules", m.writeRules), "</memory-policy>", rest);
    ExpectReads("<memory-policy", t1);
    EscapeClean(scope);
    AttributeReads("write-scope", Escape(scope), ">" + t3);
    ExpectReads(">", t3);
    ListingReads("read-scopes", m.readScopes, t4);
    ListingReads("write-rules", m.writeRules, t5);
    ExpectReads("</memory-policy>", rest);
  }

  lemma TurnLimitsRead(m: AgentModelPolicy, rest: string)
    ensures ReadTurnLimits(TurnLimits(m) + rest) == Some(((m.targetTurns, m.maxTurns, m.extensionTurns), rest))
  {
    var t2 := Attribute("extension-turns", Decimal(m.extensionTurns)) + rest;
    var t1 := Attribute("max-turns", Decimal(m.maxTurns)) + t2;
    Regroup3(Attribute("target-turns", Decimal(m.targetTurns)), Attribute("max-turns", Decimal(m.maxTurns)),
             Attribute("extension-turns", Decimal(m.extensionTurns)), rest);
    NumberReads("target-turns", U8_MAX, m.targetTurns, t1);
    NumberReads("max-turns", U8_MAX, m.maxTurns, t2);
    NumberReads("extension-turns", U8_MAX, m.extensionTurns, rest);
  }

  lemma OtherLimitsRead(m: AgentModelPolicy, rest: string)
    ensures ReadOtherLimits(OtherLimits(m) + rest)
         == Some(((m.maxStuckRecoveries, m.maxOutputTokens, m.maxToolCalls), rest))
  {
    var t2 := Attribute("max-tool-calls", Decimal(m.maxToolCalls)) + rest;
    var t1 := Attribute("max-output-tokens", Decimal(m.maxOutputTokens)) + t2;
    Regroup3(Attribute("max-stuck-recoveries", Decimal(m.maxStuckRecoveries)),
             Attribute("max-output-tokens", Decimal(m.maxOutputTokens)),
             Attribute("max-tool-calls", Decimal(m.maxToolCalls)), rest);
    NumberReads("max-stuck-recoveries", U8_MAX, m.maxStuckRecoveries, t1);
    NumberReads("max-output-tokens", U32_MAX, m.maxOutputTokens, t2);
    NumberReads("max-tool-calls", U32_MAX, m.maxToolCalls, rest);
  }

  lemma ModelPolicyReads(m: AgentModelPolicy, rest: string)
    ensures ReadModelPolicy(ModelPolicy(m) + rest) == Some((m, rest))
  {
    var name := ReasoningName(m.recommendedReasoning);
    var t4 := " />" + rest;
    var t3 := OtherLimits(m) + t4;
    var t2 := TurnLimits(m) + t3;
    var t1 := Attribute("recommended-reasoning", name) + t2;
    Regroup5("<model-policy", Attribute("recommended-reasoning", name), TurnLimits(m), OtherLimits(m), " />", rest);
    ExpectReads("<model-policy", t1);
    ReasoningNameClean(m.recommendedReasoning);
    AttributeReads("recommended-reasoning", name, t2);
    TurnLimitsRead(m, t3);
    OtherLimitsRead(m, t4);
    ExpectReads(" />", rest);
    ReasoningNamedReads(m.recommendedReasoning);
  }

  // ---------------------------------------------------------------- the whole contract

  /** A profile as the text can tell it: an absent write scope reads as the scope "none". */
  function Normalised(p: AgentProfile): AgentProfile {
    p.(memoryPolicy := p.memoryPolicy.(writeScope := Some(p.memoryPolicy.writeScope.GetOr("none"))))
  }

  lemma FrontReads(p: AgentProfile, rest: string)
    ensures ReadFront(FrontText(p, rest))
         == Some((Front(p.schemaVersion, p.profileId, p.role, p.mission, p.nonGoals, p.requiredInputs), rest))
  {
    var t3 := Listing("required-inputs", p.requiredInputs) + rest;
    var t2 := Listing("non-goals", p.nonGoals) + t3;
    OpeningReads(p.schemaVersion, p.profileId, p.role, Element("mission", p.mission) + t2);
    ElementReads("mission", p.mission, t2);
    ListingReads("non-goals", p.nonGoals, t3);
    ListingReads("required-inputs", p.requiredInputs, rest);
  }

  lemma MiddleReads(p: AgentProfile, rest: string)
    ensures ReadMiddle(MiddleText(p, rest))
         == Some((Middle(p.procedure, p.outputContract, p.evidenceRequirements, p.failurePolicy), rest))
  {
    var t3 := "<failure-policy>" + Rules(p.failurePolicy) + "</failure-policy>" + rest;
    var t2 := Listing("evidence-requirements", p.evidenceRequirements) + t3;
    ProcedureReads(p.procedure, Listing("output-contract", p.outputContract) + t2);
    ListingReads("output-contract", p.outputContract, t2);
    ListingReads("evidence-requirements", p.evidenceRequirements, t3);
    FailurePolicyReads(p.failurePolicy, rest);
  }

  lemma BackReads(p: AgentProfile, rest: string)
    ensures ReadBack(BackText(p, rest))
         == Some((Back(p.contextPriorities, p.toolStrategy, p.methodologySources, Normalised(p).memoryPolicy,
                       p.modelPolicy, p.completionGate), rest))
  {
    var t5 := Listing("completion-gate", p.completionGate) + rest;
    var t4 := ModelPolicy(p.modelPolicy) + t5;
    var t3 := Memory(p.memoryPolicy) + t4;
    var t2 := Listing("methodology-sources", p.methodologySources) + t3;
    ListingReads("context-priorities", p.contextPriorities, Listing("tool-strategy", p.toolStrategy) + t2);
    ListingReads("tool-strategy", p.toolStrategy, t2);
    ListingReads("methodology-sources", p.methodologySources, t3);
    MemoryReads(p.memoryPolicy, t4);
    ModelPolicyReads(p.modelPolicy, t5);
    ListingReads("completion-gate", p.completionGate, rest);
  }

  lemma PartsDecode(p: AgentProfile, text: string, afterFront: string, afterMiddle: string, close: string)
    requires close == "</agent-profile>"
    requires ReadFront(text)
          == Some((Front(p.schemaVersion, p.profileId, p.role, p.mission, p.nonGoals, p.requiredInputs), afterFront))
    requires ReadMiddle(afterFront)
          == Some((Middle(p.procedure, p.outputContract, p.evidenceRequirements, p.failurePolicy), afterMiddle))
    requires ReadBack(afterMiddle)
          == Some((Back(p.contextPriorities, p.toolStrategy, p.methodologySources, Normalised(p).memoryPolicy,
                        p.modelPolicy, p.completionGate), close))
    ensures DecodeContract(text) == Some(Normalised(p))
  {
  }
}

/** What the contract text tells about the profile it was printed from. */
module ContractRoundTrip {
  import opened Prelude
  import opened ProfileContract
  import opened ContractDecoder

  lemma TextDecodes(p: AgentProfile, text: string, afterFront: string, afterMiddle: string, close: string)
    requires text == FrontText(p, afterFront)
    requires afterFront == MiddleText(p, afterMiddle)
    requires afterMiddle == BackText(p, close)
    requires close == "</agent-profile>"
    ensures DecodeContract(text) == Some(Normalised(p))
  {
    FrontReads(p, afterFront);
    MiddleReads(p, afterMiddle);
    BackReads(p, close);
    PartsDecode(p, text, afterFront, afterMiddle, close);
  }

  /** Every field of every profile can be read back from its contract. */
  lemma ContractDecodes(p: AgentProfile)
    ensures DecodeContract(RenderContract(p)) == Some(Normalised(p))
  {
    var back := BackText(p, "</agent-profile>");
    TextDecodes(p, RenderContract(p), MiddleText(p, back), back, "</agent-profile>");
  }

  lemma AlikeMeansSame(p: AgentProfile, q: AgentProfile)
    requires RenderContract(p) == RenderContract(q)
    ensures Normalised(p) == Normalised(q)
  {
    ContractDecodes(p);
    ContractDecodes(q);
  }

  lemma SamePrintsAlike(p: AgentProfile, q: AgentProfile)
    requires Normalised(p) == Normalised(q)
    ensures RenderContract(p) == RenderContract(q)
  {
  }

  /** Two profiles print alike exactly when they differ at most in an absent write scope
      against the scope "none". */
  lemma ContractsAgreeExactly(p: AgentProfile, q: AgentProfile)
    ensures RenderContract(p) == RenderContract(q) <==> Normalised(p) == Normalised(q)
  {
    if RenderContract(p) == RenderContract(q) {
      AlikeMeansSame(p, q);
    } else if Normalised(p) == Normalised(q) {
      SamePrintsAlike(p, q);
    }
  }
}
