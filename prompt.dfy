/**
 * The system prompt composer (runtime/agentic/prompt.py): ten sections in a fixed order,
 * each a list of lines joined by newlines, the empty ones dropped and the rest joined by
 * newlines. Headings and every line built from the caller's values (role, tier, numbers,
 * tool names, role rules) are exact; the fixed guidance sentences are `Phrase`s whose
 * wording is supplied by a `Wording`.
 */
module Prompt {
  import opened Wrappers
  import opened Strs
  import opened Json
  import Tools

  /** The fixed sentences of the prompt. A phrase that stands for several fixed lines
      stands for those lines joined by newlines. */
  datatype Phrase =
    | SystemName | TribuneIntro | CenturionIntro | LegionaryIntro | OtherIntro
    | BudgetNote
    | WorkspaceLine | ArtifactsLine | ResultFileLine | InboxLine
    | SafetyRules
    | ToolBlurb(tool: Tools.ToolId) | NoDescription | NoTools
    | TribuneGuide | CenturionGuide | ChooseRole
    | ExitNote
    | FirstIteration | FinalIteration | MiddleIteration
    | UniversalRules | SpawnerRules | FocusedRules

  type Wording = Phrase -> string

  /** One line of a section: text the composer builds, then optionally a fixed sentence. */
  datatype Piece = Piece(text: string, tail: Option<Phrase>)

  function T(s: string): Piece { Piece(s, None) }
  function S(p: Phrase): Piece { Piece("", Some(p)) }

  function Render(p: Piece, say: Wording): string
  {
    p.text + (if p.tail.Some? then say(p.tail.value) else "")
  }

  function RenderAll(ps: seq<Piece>, say: Wording): (r: seq<string>)
    ensures |r| == |ps| && forall k :: 0 <= k < |ps| ==> r[k] == Render(ps[k], say)
  {
    if ps == [] then [] else [Render(ps[0], say)] + RenderAll(ps[1..], say)
  }

  /** A section's text: its lines joined by newlines; "" for a section with no lines. */
  function SectionText(ps: seq<Piece>, say: Wording): string
  {
    Join(RenderAll(ps, say), "\n")
  }

  /** A section that is there starts with a non-empty heading of the composer's own. */
  predicate Headed(ps: seq<Piece>)
  {
    ps != [] ==> ps[0].text != ""
  }

  /** A headed section's text is empty exactly when the section has no lines; so dropping
      empty texts drops exactly the absent sections. */
  lemma SectionTextEmpty(ps: seq<Piece>, say: Wording)
    requires Headed(ps)
    ensures SectionText(ps, say) == "" <==> ps == []
  {
    if ps != [] {
      JoinStartsWithFirst(RenderAll(ps, say), "\n");
      assert |Render(ps[0], say)| > 0;
    }
  }

  // ---------------------------------------------------------------------------------------
  // Who is a spawner
  // ---------------------------------------------------------------------------------------

  /** Tribunes and centurions that were given spawn_task plan and delegate. */
  predicate IsSpawner(tier: string, toolNames: seq<string>)
  {
    (tier == "tribune" || tier == "centurion") && "spawn_task" in toolNames
  }

  /** Everything else gets the focused prompt. */
  predicate IsFocused(tier: string, toolNames: seq<string>)
  {
    tier == "legionary" || !IsSpawner(tier, toolNames)
  }

  /** Focused is exactly not a spawner: a legionary is never a spawner. */
  lemma FocusedIffNotSpawner(tier: string, toolNames: seq<string>)
    ensures IsFocused(tier, toolNames) <==> !IsSpawner(tier, toolNames)
  {
    if tier == "legionary" {
      assert tier[0] == 'l';
      assert "tribune"[0] == 't' && "centurion"[0] == 'c';
    }
  }

  // ---------------------------------------------------------------------------------------
  // The sections
  // ---------------------------------------------------------------------------------------

  function IntroFor(tier: string): Phrase
  {
    if tier == "tribune" then TribuneIntro
    else if tier == "centurion" then CenturionIntro
    else if tier == "legionary" then LegionaryIntro
    else OtherIntro
  }

  /** `_identity_section`. */
  function IdentitySection(role: string, tier: string): (r: seq<Piece>)
    ensures Headed(r) && r != []
  {
    [Piece("You are **" + role + "** (" + tier + ")", Some(SystemName)), T(""), S(IntroFor(tier))]
  }

  /** Python's `f"{n:,}"`: the digits grouped by commas, after the sign. */
  function Thousands(n: int): string
  {
    if n < 0 then "-" + GroupThousands(NatToString(-n)) else GroupThousands(NatToString(n))
  }

  /** Removing the commas from a grouped number gives its plain decimal rendering. */
  lemma ThousandsDigits(n: int)
    ensures DropCommas(Thousands(n)) == IntToString(n)
  {
    var m: nat := if n < 0 then -n else n;
    assert ',' !in NatToString(m);
    GroupThousandsDigits(NatToString(m));
    if n < 0 {
      DropCommasAppend("-", GroupThousands(NatToString(m)));
      DropCommasNoComma("-");
    }
  }

  /** `if x:` on an optional number or text. */
  predicate SetInt(x: Option<int>) { x.Some? && x.value != 0 }
  predicate SetText(x: Option<string>) { x.Some? && x.value != "" }

  function TimeoutLine(seconds: int): string
  {
    "- **Timeout:** " + IntToString(seconds / 60) + "m. Plan accordingly."
  }

  /** `_constraints_section`: the budget, token limit, timeout (in whole minutes; `//`
      floors, as `/` does here for a positive divisor) and iteration count that are set. */
  function ConstraintsSection(budgetTokens: Option<int>, budgetUsd: Option<string>, timeoutSeconds: Option<int>,
                              iteration: int, maxIterations: int): (r: seq<Piece>)
    ensures Headed(r)
  {
    var lines :=
      [T("\n## Constraints")] +
      (if SetText(budgetUsd) then [Piece("- **Budget:** $" + budgetUsd.value, Some(BudgetNote))] else []) +
      (if SetInt(budgetTokens) then [T("- **Token limit:** " + Thousands(budgetTokens.value) + " tokens.")] else []) +
      (if SetInt(timeoutSeconds) then [T(TimeoutLine(timeoutSeconds.value))] else []) +
      (if maxIterations > 1 then [T("- **Iterations:** " + IntToString(iteration) + "/" + IntToString(maxIterations) + ".")] else []);
    if |lines| == 1 then [] else lines
  }

  /** `_filesystem_section`. */
  function FilesystemSection(isSpawner: bool): (r: seq<Piece>)
    ensures Headed(r) && r != []
  {
    [T("\n## Filesystem"), S(WorkspaceLine), S(ArtifactsLine), S(ResultFileLine)] + (if isSpawner then [S(InboxLine)] else [])
  }

  /** `_safety_section`. */
  function SafetySection(): (r: seq<Piece>)
    ensures Headed(r) && r != []
  {
    [T("\n## Safety"), S(SafetyRules)]
  }

  /** The tool a name belongs to, if it is one of the seven. */
  function ToolNamed(name: string): (r: Option<Tools.ToolId>)
    ensures r.Some? ==> Tools.Name(r.value) == name
  {
    if name == Tools.Name(Tools.ReadFile) then Some(Tools.ReadFile)
    else if name == Tools.Name(Tools.WriteFile) then Some(Tools.WriteFile)
    else if name == Tools.Name(Tools.SpawnTask) then Some(Tools.SpawnTask)
    else if name == Tools.Name(Tools.CheckStatus) then Some(Tools.CheckStatus)
    else if name == Tools.Name(Tools.GetResult) then Some(Tools.GetResult)
    else if name == Tools.Name(Tools.CancelTask) then Some(Tools.CancelTask)
    else if name == Tools.Name(Tools.RunShell) then Some(Tools.RunShell)
    else None
  }

  function ToolLine(name: string): Piece
  {
    var t := ToolNamed(name);
    Piece("- **" + name + "**: ", Some(if t.Some? then ToolBlurb(t.value) else NoDescription))
  }

  function ToolLines(names: seq<string>): (r: seq<Piece>)
    ensures |r| == |names| && forall k :: 0 <= k < |names| ==> r[k] == ToolLine(names[k])
  {
    if names == [] then [] else [ToolLine(names[0])] + ToolLines(names[1..])
  }

  /** `_tool_section`: one line per tool name, in order. */
  function ToolSection(toolNames: seq<string>): (r: seq<Piece>)
    ensures Headed(r) && r != []
  {
    [T("\n## Tools")] + ToolLines(toolNames) + (if toolNames == [] then [S(NoTools)] else [])
  }

  function RoleLine(r: Json, show: Json -> string): Piece
  {
    T("- **" + Str(Field(r, "name", JStr("unknown")), show) + "** (" + Str(Field(r, "tierAffinity", JStr("")), show) + "): " +
      Str(Field(r, "description", JStr("")), show))
  }

  function RoleLines(roles: seq<Json>, show: Json -> string): (r: seq<Piece>)
    ensures |r| == |roles| && forall k :: 0 <= k < |roles| ==> r[k] == RoleLine(roles[k], show)
  {
    if roles == [] then [] else [RoleLine(roles[0], show)] + RoleLines(roles[1..], show)
  }

  /** `_delegation_section`: the tribune's or the centurion's guide, then the available
      roles when there are any. */
  function DelegationSection(tier: string, availableRoles: Option<seq<Json>>, show: Json -> string): (r: seq<Piece>)
    ensures Headed(r) && r != []
  {
    [T("\n## Delegation"), S(if tier == "tribune" then TribuneGuide else CenturionGuide)] +
    (if availableRoles.Some? && availableRoles.value != [] then
       [T("\n**Available roles:**")] + RoleLines(availableRoles.value, show) + [S(ChooseRole)]
     else [])
  }

  /** `_exit_criteria_section`. */
  function ExitCriteriaSection(exitCriteria: string): (r: seq<Piece>)
    ensures Headed(r)
    ensures r == [] <==> exitCriteria == ""
  {
    if exitCriteria == "" then [] else [T("\n## Exit Criteria"), T("You are done when: " + exitCriteria), S(ExitNote)]
  }

  /** `_iteration_section`: the first, final or a middle iteration's guidance. */
  function IterationSection(iteration: int, maxIterations: int): (r: seq<Piece>)
    ensures Headed(r)
    ensures r == [] <==> maxIterations <= 1
  {
    if maxIterations <= 1 then []
    else
      [T("\n## Iteration " + IntToString(iteration) + "/" + IntToString(maxIterations)),
       S(if iteration == 1 then FirstIteration else if iteration >= maxIterations then FinalIteration else MiddleIteration)]
  }

  function Bullets(items: seq<string>): (r: seq<Piece>)
    ensures |r| == |items| && forall k :: 0 <= k < |items| ==> r[k] == T("- " + items[k])
  {
    if items == [] then [] else [T("- " + items[0])] + Bullets(items[1..])
  }

  predicate SetList(x: Option<seq<string>>) { x.Some? && x.value != [] }

  /** `_role_context_section`. */
  function RoleContextSection(role: string, description: string, rules: Option<seq<string>>,
                              antiPatterns: Option<seq<string>>): (r: seq<Piece>)
    ensures Headed(r)
  {
    if !SetList(rules) && !SetList(antiPatterns) && description == "" then []
    else
      [T("\n## Your Role: " + role)] +
      (if description != "" then [T(description)] else []) +
      (if SetList(rules) then [T("\n**Rules:**")] + Bullets(rules.value) else []) +
      (if SetList(antiPatterns) then [T("\n**Avoid:**")] + Bullets(antiPatterns.value) else [])
  }

  /** `_rules_section`: the two universal rules, then the spawner's or the focused agent's. */
  function RulesSection(tier: string, isSpawner: bool): (r: seq<Piece>)
    ensures Headed(r) && r != []
  {
    [T("\n## Rules"), S(UniversalRules), S(if isSpawner then SpawnerRules else FocusedRules)]
  }

  // ---------------------------------------------------------------------------------------
  // build_system_prompt
  // ---------------------------------------------------------------------------------------

  /** The sections of the prompt, in the order they are listed. */
  datatype Kind = Identity | Constraints | Filesystem | Safety | ToolList | Delegation | Iteration | ExitCriteria | RoleContext | Rules

  datatype PromptSection = PromptSection(kind: Kind, lines: seq<Piece>)

  /** The ten sections' lines, by name. */
  datatype Layout = Layout(
    identity: seq<Piece>, constraints: seq<Piece>, filesystem: seq<Piece>, safety: seq<Piece>, tools: seq<Piece>,
    delegation: seq<Piece>, iteration: seq<Piece>, exitCriteria: seq<Piece>, roleContext: seq<Piece>, rules: seq<Piece>)

  /** The sections in their listed order. */
  function InOrder(l: Layout): (r: seq<PromptSection>)
    ensures |r| == 10
  {
    [PromptSection(Identity, l.identity), PromptSection(Constraints, l.constraints),
     PromptSection(Filesystem, l.filesystem), PromptSection(Safety, l.safety), PromptSection(ToolList, l.tools),
     PromptSection(Delegation, l.delegation), PromptSection(Iteration, l.iteration),
     PromptSection(ExitCriteria, l.exitCriteria), PromptSection(RoleContext, l.roleContext), PromptSection(Rules, l.rules)]
  }

  /** Every section of the layout starts with its heading. */
  predicate AllHeaded(l: Layout)
  {
    Headed(l.identity) && Headed(l.constraints) && Headed(l.filesystem) && Headed(l.safety) && Headed(l.tools) &&
    Headed(l.delegation) && Headed(l.iteration) && Headed(l.exitCriteria) && Headed(l.roleContext) && Headed(l.rules)
  }

  /** The arguments of `build_system_prompt`; optional ones are None when not given. */
  datatype Request = Request(
    role: string, tier: string, capabilities: seq<string>, toolNames: seq<string>,
    roleDescription: string, roleRules: Option<seq<string>>, roleAntiPatterns: Option<seq<string>>,
    availableRoles: Option<seq<Json>>, exitCriteria: string, iteration: int, maxIterations: int,
    budgetTokens: Option<int>, budgetUsd: Option<string>, timeoutSeconds: Option<int>)

  /** The listed sections; delegation only for spawners and iteration only for the full
      prompt, as empty sections otherwise. */
  function Sections(q: Request, show: Json -> string): (l: Layout)
    ensures AllHeaded(l)
  {
    var spawner := IsSpawner(q.tier, q.toolNames);
    Layout(
      IdentitySection(q.role, q.tier),
      ConstraintsSection(q.budgetTokens, q.budgetUsd, q.timeoutSeconds, q.iteration, q.maxIterations),
      FilesystemSection(spawner),
      SafetySection(),
      ToolSection(q.toolNames),
      if spawner then DelegationSection(q.tier, q.availableRoles, show) else [],
      if !IsFocused(q.tier, q.toolNames) then IterationSection(q.iteration, q.maxIterations) else [],
      ExitCriteriaSection(q.exitCriteria),
      RoleContextSection(q.role, q.roleDescription, q.roleRules, q.roleAntiPatterns),
      RulesSection(q.tier, spawner))
  }

  function SectionTexts(ss: seq<PromptSection>, say: Wording): (r: seq<string>)
    ensures |r| == |ss| && forall k :: 0 <= k < |ss| ==> r[k] == SectionText(ss[k].lines, say)
  {
    if ss == [] then [] else [SectionText(ss[0].lines, say)] + SectionTexts(ss[1..], say)
  }

  /** `s for s in sections if s`. */
  function NonEmpty(texts: seq<string>): (r: seq<string>)
    ensures forall t :: t in r <==> t in texts && t != ""
  {
    if texts == [] then []
    else if texts[0] == "" then NonEmpty(texts[1..])
    else [texts[0]] + NonEmpty(texts[1..])
  }

  /** The prompt a layout gives: the non-empty section texts joined by newlines. */
  function Compose(l: Layout, say: Wording): string
  {
    Join(NonEmpty(SectionTexts(InOrder(l), say)), "\n")
  }

  /** `build_system_prompt`. */
  function BuildSystemPrompt(q: Request, say: Wording, show: Json -> string): string
  {
    Compose(Sections(q, show), say)
  }

  // ---------------------------------------------------------------------------------------
  // Properties
  // ---------------------------------------------------------------------------------------

  /** The sections that are there, in order. */
  function Present(ss: seq<PromptSection>): (r: seq<PromptSection>)
    ensures forall s :: s in r <==> s in ss && s.lines != []
  {
    if ss == [] then []
    else if ss[0].lines == [] then Present(ss[1..])
    else [ss[0]] + Present(ss[1..])
  }

  /** Dropping the empty texts is dropping the absent sections. */
  lemma {:induction false} NonEmptyIsPresent(ss: seq<PromptSection>, say: Wording)
    requires forall k :: 0 <= k < |ss| ==> Headed(ss[k].lines)
    ensures NonEmpty(SectionTexts(ss, say)) == SectionTexts(Present(ss), say)
  {
    if ss != [] {
      SectionTextEmpty(ss[0].lines, say);
      assert SectionTexts(ss, say)[1..] == SectionTexts(ss[1..], say);
      NonEmptyIsPresent(ss[1..], say);
    }
  }

  /** The prompt is the texts of the present sections, in their listed order, joined by
      newlines. */
  lemma PromptIsPresentSections(l: Layout, say: Wording)
    requires AllHeaded(l)
    ensures Compose(l, say) == Join(SectionTexts(Present(InOrder(l)), say), "\n")
  {
    InOrderHeaded(l);
    NonEmptyIsPresent(InOrder(l), say);
  }

  lemma InOrderHeaded(l: Layout)
    requires AllHeaded(l)
    ensures forall k :: 0 <= k < |InOrder(l)| ==> Headed(InOrder(l)[k].lines)
  {
  }

  /** When the last section is there, it is the last present section. */
  lemma {:induction false} PresentEndsWithLast(ss: seq<PromptSection>)
    requires ss != [] && ss[|ss| - 1].lines != []
    ensures Present(ss) != [] && Present(ss)[|Present(ss)| - 1] == ss[|ss| - 1]
  {
    if |ss| > 1 {
      assert ss[1..][|ss[1..]| - 1] == ss[|ss| - 1];
      PresentEndsWithLast(ss[1..]);
      var rest := Present(ss[1..]);
      if ss[0].lines == [] {
        assert Present(ss) == rest;
      } else {
        assert Present(ss) == [ss[0]] + rest;
        assert Present(ss)[|Present(ss)| - 1] == rest[|rest| - 1];
      }
    } else {
      assert Present(ss) == [ss[0]] + Present([]);
    }
  }

  /** With the rules there, the last present section is the rules. */
  lemma RulesLastInLayout(l: Layout)
    requires l.rules != []
    ensures var p := Present(InOrder(l)); p != [] && p[|p| - 1] == PromptSection(Rules, l.rules)
  {
    var ss := InOrder(l);
    assert ss[|ss| - 1] == PromptSection(Rules, l.rules);
    PresentEndsWithLast(ss);
  }

  /** The sections come in their fixed order, so Rules is listed once, last. */
  lemma SectionOrder(l: Layout)
    ensures var ss := InOrder(l);
            ss[0].kind == Identity && ss[1].kind == Constraints && ss[2].kind == Filesystem && ss[3].kind == Safety &&
            ss[4].kind == ToolList && ss[5].kind == Delegation && ss[6].kind == Iteration &&
            ss[7].kind == ExitCriteria && ss[8].kind == RoleContext && ss[9].kind == Rules
  {}

  /** ... and the prompt then ends with the rules section's text. */
  lemma PromptEndsWithRules(l: Layout, say: Wording)
    requires AllHeaded(l) && l.rules != []
    ensures EndsWith(Compose(l, say), SectionText(l.rules, say))
  {
    var ss := InOrder(l);
    RulesLastInLayout(l);
    PromptIsPresentSections(l, say);
    var texts := SectionTexts(Present(ss), say);
    assert texts[|texts| - 1] == SectionText(l.rules, say);
    JoinEndsWithLast(texts, "\n");
  }

  /** The rules section is always there, so it is the last section of every prompt and
      the prompt ends with its text. */
  lemma RulesLast(q: Request, say: Wording, show: Json -> string)
    ensures var l := Sections(q, show); var p := Present(InOrder(l));
            p != [] && p[|p| - 1] == PromptSection(Rules, l.rules)
    ensures EndsWith(BuildSystemPrompt(q, say, show), SectionText(Sections(q, show).rules, say))
  {
    var l := Sections(q, show);
    assert l.rules != [];
    RulesLastInLayout(l);
    PromptEndsWithRules(l, say);
  }

  /** Identity, filesystem, safety, tools and rules are always there. */
  lemma AlwaysPresent(q: Request, show: Json -> string)
    ensures var l := Sections(q, show);
            l.identity != [] && l.filesystem != [] && l.safety != [] && l.tools != [] && l.rules != []
  {}

  /** The delegation section is there exactly for spawners. */
  lemma DelegationIffSpawner(q: Request, show: Json -> string)
    ensures Sections(q, show).delegation != [] <==> IsSpawner(q.tier, q.toolNames)
  {}

  /** The iteration section is there exactly for the full prompt of a multi-iteration task. */
  lemma IterationIffFullAndIterating(q: Request, show: Json -> string)
    ensures Sections(q, show).iteration != [] <==> !IsFocused(q.tier, q.toolNames) && q.maxIterations > 1
  {}

  /** The constraints section is absent exactly when no budget, no timeout and at most one
      iteration are given. */
  lemma ConstraintsEmptyIff(budgetTokens: Option<int>, budgetUsd: Option<string>, timeoutSeconds: Option<int>,
                            iteration: int, maxIterations: int)
    ensures ConstraintsSection(budgetTokens, budgetUsd, timeoutSeconds, iteration, maxIterations) == [] <==>
            !SetText(budgetUsd) && !SetInt(budgetTokens) && !SetInt(timeoutSeconds) && maxIterations <= 1
  {}

  /** A set timeout is shown in whole minutes, and a set token limit with its digits
      grouped by commas. */
  lemma ConstraintLines(budgetTokens: Option<int>, budgetUsd: Option<string>, timeoutSeconds: Option<int>,
                        iteration: int, maxIterations: int)
    ensures SetInt(timeoutSeconds) ==>
              T(TimeoutLine(timeoutSeconds.value)) in ConstraintsSection(budgetTokens, budgetUsd, timeoutSeconds, iteration, maxIterations)
    ensures SetInt(budgetTokens) ==>
              T("- **Token limit:** " + Thousands(budgetTokens.value) + " tokens.") in
                ConstraintsSection(budgetTokens, budgetUsd, timeoutSeconds, iteration, maxIterations)
  {}

  /** The timeout is shown as the whole minutes below it, rounding down as Python's `//`
      does, negative timeouts included. */
  lemma TimeoutMinutes(seconds: int, m: int)
    requires 60 * m <= seconds < 60 * (m + 1)
    ensures TimeoutLine(seconds) == "- **Timeout:** " + IntToString(m) + "m. Plan accordingly."
  {
    assert seconds / 60 == m;
  }

  /** A phrase that points at /inbox/. */
  predicate MentionsInbox(p: Piece)
  {
    p.tail == Some(InboxLine) || p.tail == Some(FinalIteration) || p.tail == Some(MiddleIteration)
  }

  lemma ToolSectionNoInbox(toolNames: seq<string>, p: Piece)
    requires MentionsInbox(p)
    ensures p !in ToolSection(toolNames)
  {
    var lines := ToolLines(toolNames);
    forall x | x in lines ensures !MentionsInbox(x) {
      var k :| 0 <= k < |lines| && lines[k] == x;
    }
  }

  lemma ConstraintsNoInbox(budgetTokens: Option<int>, budgetUsd: Option<string>, timeoutSeconds: Option<int>,
                           iteration: int, maxIterations: int, p: Piece)
    requires MentionsInbox(p)
    ensures p !in ConstraintsSection(budgetTokens, budgetUsd, timeoutSeconds, iteration, maxIterations)
  {}

  lemma DelegationNoInbox(tier: string, roles: Option<seq<Json>>, show: Json -> string, p: Piece)
    requires MentionsInbox(p)
    ensures p !in DelegationSection(tier, roles, show)
  {
    var guide := S(if tier == "tribune" then TribuneGuide else CenturionGuide);
    if roles.Some? && roles.value != [] {
      var ls := RoleLines(roles.value, show);
      forall k | 0 <= k < |ls| ensures ls[k] != p { assert ls[k].tail == None; }
      NotInParts(p, [T("\n## Delegation"), guide], [T("\n**Available roles:**")], ls, [S(ChooseRole)]);
    } else {
      assert DelegationSection(tier, roles, show) == [T("\n## Delegation"), guide];
    }
  }

  lemma NotInParts<T>(p: T, a: seq<T>, b: seq<T>, c: seq<T>, d: seq<T>)
    requires p !in a && p !in b && p !in c && p !in d
    ensures p !in a + ((b + c) + d)
  {
  }

  lemma RoleContextNoInbox(role: string, description: string, rules: Option<seq<string>>,
                           antiPatterns: Option<seq<string>>, p: Piece)
    requires MentionsInbox(p)
    ensures p !in RoleContextSection(role, description, rules, antiPatterns)
  {
    var d: seq<Piece> := if description != "" then [T(description)] else [];
    var rs: seq<Piece> := if SetList(rules) then [T("\n**Rules:**")] + Bullets(rules.value) else [];
    var ap: seq<Piece> := if SetList(antiPatterns) then [T("\n**Avoid:**")] + Bullets(antiPatterns.value) else [];
    if SetList(rules) { BulletsNoInbox(rules.value, p); }
    if SetList(antiPatterns) { BulletsNoInbox(antiPatterns.value, p); }
    assert p !in [T("\n## Your Role: " + role)] && p !in d && p !in rs && p !in ap;
    NotInLeft(p, [T("\n## Your Role: " + role)], d, rs, ap);
  }

  lemma NotInLeft<T>(p: T, a: seq<T>, b: seq<T>, c: seq<T>, d: seq<T>)
    requires p !in a && p !in b && p !in c && p !in d
    ensures p !in ((a + b) + c) + d
  {
  }

  /** A bullet list is plain text. */
  lemma BulletsNoInbox(items: seq<string>, p: Piece)
    requires MentionsInbox(p)
    ensures p !in Bullets(items)
  {
    var r := Bullets(items);
    forall k | 0 <= k < |r| ensures r[k] != p { assert r[k].tail == None; }
  }

  /** Only the filesystem and iteration sections can point at /inbox/. */
  lemma InboxPhrasesPlaced(q: Request, show: Json -> string, p: Piece)
    requires MentionsInbox(p)
    ensures var l := Sections(q, show);
            p !in l.identity && p !in l.constraints && p !in l.safety && p !in l.tools &&
            p !in l.delegation && p !in l.exitCriteria && p !in l.roleContext && p !in l.rules
  {
    ToolSectionNoInbox(q.toolNames, p);
    ConstraintsNoInbox(q.budgetTokens, q.budgetUsd, q.timeoutSeconds, q.iteration, q.maxIterations, p);
    DelegationNoInbox(q.tier, q.availableRoles, show, p);
    RoleContextNoInbox(q.role, q.roleDescription, q.roleRules, q.roleAntiPatterns, p);
  }

  /** Only a spawner's prompt points at /inbox/: the filesystem's inbox line and the
      iteration guidance that checks the inbox are in no one else's. */
  lemma InboxOnlyForSpawners(q: Request, show: Json -> string, s: PromptSection, p: Piece)
    requires s in InOrder(Sections(q, show)) && p in s.lines && MentionsInbox(p)
    ensures IsSpawner(q.tier, q.toolNames)
  {
    InboxPhrasesPlaced(q, show, p);
    FocusedIffNotSpawner(q.tier, q.toolNames);
  }

  /** The filesystem section lists the inbox exactly for spawners. */
  lemma InboxLineIffSpawner(isSpawner: bool)
    ensures S(InboxLine) in FilesystemSection(isSpawner) <==> isSpawner
  {
    if isSpawner {
      assert FilesystemSection(isSpawner)[4] == S(InboxLine);
    }
  }

  /** The role context is absent exactly when there is no description, no rule and no
      anti-pattern. */
  lemma RoleContextEmptyIff(role: string, description: string, rules: Option<seq<string>>, antiPatterns: Option<seq<string>>)
    ensures RoleContextSection(role, description, rules, antiPatterns) == [] <==>
            !SetList(rules) && !SetList(antiPatterns) && description == ""
  {}

  /** Every role rule and anti-pattern is listed as a bullet of the role context. */
  lemma RoleRulesListed(role: string, description: string, rules: Option<seq<string>>, antiPatterns: Option<seq<string>>)
    ensures SetList(rules) ==> forall x :: x in rules.value ==> T("- " + x) in RoleContextSection(role, description, rules, antiPatterns)
    ensures SetList(antiPatterns) ==>
              forall x :: x in antiPatterns.value ==> T("- " + x) in RoleContextSection(role, description, rules, antiPatterns)
  {
    var r := RoleContextSection(role, description, rules, antiPatterns);
    if SetList(rules) {
      forall x | x in rules.value ensures T("- " + x) in r {
        var k :| 0 <= k < |rules.value| && rules.value[k] == x;
        assert T("- " + x) == Bullets(rules.value)[k];
      }
    }
    if SetList(antiPatterns) {
      forall x | x in antiPatterns.value ensures T("- " + x) in r {
        var k :| 0 <= k < |antiPatterns.value| && antiPatterns.value[k] == x;
        assert T("- " + x) == Bullets(antiPatterns.value)[k];
      }
    }
  }

  /** Every listed tool name gets its line, with its own description when it is one of the
      seven tools and the fallback otherwise. */
  lemma ToolsListed(toolNames: seq<string>, name: string)
    requires name in toolNames
    ensures ToolLine(name) in ToolSection(toolNames)
    ensures ToolLine(name).tail == Some(if ToolNamed(name).Some? then ToolBlurb(ToolNamed(name).value) else NoDescription)
  {
    var k :| 0 <= k < |toolNames| && toolNames[k] == name;
    assert ToolSection(toolNames)[k + 1] == ToolLine(name);
  }
}
