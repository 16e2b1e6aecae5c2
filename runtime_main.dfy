/**
 * The agentic runtime's entry point (runtime/agentic/main.py): reading the inbox, the
 * first conversation, the resume text a reincarnated agent starts from, and the result
 * and usage files it leaves in the outbox. The filesystem is `Checkpoint.Disk`; the child
 * results directory is given as its listing, each file with its decoded content or None
 * when it cannot be read.
 */
module RuntimeMain {
  import opened Wrappers
  import opened Strs
  import opened Json
  import Checkpoint
  import AgentLoop

  const TaskFile := "/inbox/task.json"
  const ResultFile := "/outbox/result.json"
  const UsageFile := "/outbox/usage.json"
  const StateFile := "/memory/state.json"

  // ---------------------------------------------------------------------------------------
  // load_child_results
  // ---------------------------------------------------------------------------------------

  /** A file in the child results directory: its name, and its decoded JSON when it could
      be opened and parsed. */
  datatype DirEntry = DirEntry(name: string, content: Option<Json>)

  const JsonSuffix := ".json"

  /** The results kept from a listing: readable `*.json` files, keyed by the name without
      the suffix, in listing order. No directory gives no results. */
  function ChildResults(listing: Option<seq<DirEntry>>): (r: seq<(string, Json)>)
    ensures listing.None? ==> r == []
    ensures listing.Some? ==> |r| <= |listing.value|
  {
    if listing.None? then []
    else KeptResults(listing.value)
  }

  function KeptResults(entries: seq<DirEntry>): (r: seq<(string, Json)>)
    ensures |r| <= |entries|
  {
    if entries == [] then []
    else
      var e := entries[|entries| - 1];
      KeptResults(entries[..|entries| - 1]) +
      (if EndsWith(e.name, JsonSuffix) && e.content.Some? then [(e.name[..|e.name| - |JsonSuffix|], e.content.value)] else [])
  }

  /** A child's result is kept exactly when a readable file named after it with the
      suffix is in the directory. */
  lemma {:induction false} KeptResultsMembers(entries: seq<DirEntry>, name: string, result: Json)
    ensures (name, result) in KeptResults(entries) <==>
            exists e :: e in entries && e.name == name + JsonSuffix && e.content == Some(result)
  {
    if entries != [] {
      var init := entries[..|entries| - 1];
      var e := entries[|entries| - 1];
      KeptResultsMembers(init, name, result);
      assert entries == init + [e];
      if e.name == name + JsonSuffix {
        assert e.name[..|e.name| - |JsonSuffix|] == name;
      }
      if EndsWith(e.name, JsonSuffix) && e.name[..|e.name| - |JsonSuffix|] == name {
        assert e.name == e.name[..|e.name| - |JsonSuffix|] + e.name[|e.name| - |JsonSuffix|..];
      }
      if exists d :: d in entries && d.name == name + JsonSuffix && d.content == Some(result) {
        var d :| d in entries && d.name == name + JsonSuffix && d.content == Some(result);
        if d != e {
          assert d in init;
        }
      }
    }
  }

  /** `load_child_results`. */
  method LoadChildResults(listing: Option<seq<DirEntry>>) returns (results: seq<(string, Json)>)
    ensures results == ChildResults(listing)
  {
    results := [];
    if listing.None? {
      return;
    }
    var entries := listing.value;
    for i := 0 to |entries|
      invariant results == KeptResults(entries[..i])
    {
      assert entries[..i + 1][..i] == entries[..i];
      var e := entries[i];
      if !EndsWith(e.name, JsonSuffix) {
        continue;
      }
      if e.content.Some? {
        results := results + [(e.name[..|e.name| - |JsonSuffix|], e.content.value)];
      }
    }
    assert entries[..|entries|] == entries;
  }

  // ---------------------------------------------------------------------------------------
  // _build_resume_context
  // ---------------------------------------------------------------------------------------

  const Header := "You are resuming from a previous run. Here is your saved state:\n"
  const Footer := "\n\nContinue your work. Review the new child results and decide what to do next."
  const PlanHeading := "## Plan\n"
  const DecisionsHeading := "## Previous Decisions\n"
  const ContextHeading := "\n## Accumulated Context\n"
  const ChildrenHeading := "\n## New Child Results (since your last run)"
  const CompletedHeading := "\n## Previously Completed Children"

  /** The sections of the resume text, in the order they are written. */
  datatype Section = Opening | PlanSection | DecisionsSection | ContextSection | ChildrenSection | CompletedSection | Closing

  function Rank(s: Section): nat
  {
    match s
    case Opening => 0
    case PlanSection => 1
    case DecisionsSection => 2
    case ContextSection => 3
    case ChildrenSection => 4
    case CompletedSection => 5
    case Closing => 6
  }

  /** One line of the resume text (one element of the source's `parts`), with the section
      it belongs to. */
  datatype Line = Line(section: Section, text: string)

  /** Every line of `lines` belongs to section `s`. */
  predicate Within(lines: seq<Line>, s: Section)
  {
    forall k :: 0 <= k < |lines| ==> lines[k].section == s
  }

  function PlanPart(cp: Dict, show: Json -> string): (r: seq<Line>)
    ensures Within(r, PlanSection) && |r| <= 1
    ensures r != [] <==> Truthy(Get(cp, "plan", JNull))
  {
    var plan := Get(cp, "plan", JNull);
    if Truthy(plan) then
      [Line(PlanSection, PlanHeading + "Phases: " + Str(Field(plan, "phases", JArr([])), show) + "\nCurrent phase: " +
                         Str(Field(plan, "currentPhase", JInt(0)), show) + "\n")]
    else []
  }

  /** One "- d" line per decision, in order. */
  function DecisionLines(ds: seq<Json>, show: Json -> string): (r: seq<string>)
    ensures |r| == |ds|
    ensures forall k :: 0 <= k < |ds| ==> r[k] == "- " + Str(ds[k], show)
  {
    if ds == [] then [] else ["- " + Str(ds[0], show)] + DecisionLines(ds[1..], show)
  }

  function DecisionsPart(cp: Dict, show: Json -> string): (r: seq<Line>)
    ensures Within(r, DecisionsSection) && |r| <= 1
    ensures r != [] <==> Truthy(Get(cp, "decisions", JNull))
  {
    var ds := Get(cp, "decisions", JNull);
    if Truthy(ds) then [Line(DecisionsSection, DecisionsHeading + Join(DecisionLines(Items(ds), show), "\n"))] else []
  }

  function ContextPart(cp: Dict, show: Json -> string): (r: seq<Line>)
    ensures Within(r, ContextSection) && |r| <= 1
    ensures r != [] <==> Truthy(Get(cp, "accumulatedContext", JNull))
  {
    var acc := Get(cp, "accumulatedContext", JNull);
    if Truthy(acc) then [Line(ContextSection, ContextHeading + Str(acc, show))] else []
  }

  /** The body of a child's block: its summary, else its output, else "No output". */
  function ChildSummary(result: Json): (r: Json)
    ensures result.JObj? && "summary" in result.fields ==> r == result.fields["summary"]
    ensures result.JObj? && "summary" !in result.fields && "output" in result.fields ==> r == result.fields["output"]
    ensures !(result.JObj? && ("summary" in result.fields || "output" in result.fields)) ==> r == JStr("No output")
  {
    Field(result, "summary", Field(result, "output", JStr("No output")))
  }

  function ChildBlock(child: (string, Json), show: Json -> string): string
  {
    "\n### " + child.0 + " (" + Str(Field(child.1, "status", JStr("unknown")), show) + ")\n" + Str(ChildSummary(child.1), show)
  }

  function ChildBlocks(children: seq<(string, Json)>, show: Json -> string): (r: seq<Line>)
    ensures |r| == |children|
    ensures forall k :: 0 <= k < |children| ==> r[k] == Line(ChildrenSection, ChildBlock(children[k], show))
  {
    if children == [] then [] else [Line(ChildrenSection, ChildBlock(children[0], show))] + ChildBlocks(children[1..], show)
  }

  function ChildrenPart(children: seq<(string, Json)>, show: Json -> string): (r: seq<Line>)
    ensures Within(r, ChildrenSection)
    ensures r != [] <==> children != []
    ensures children != [] ==> r == [Line(ChildrenSection, ChildrenHeading)] + ChildBlocks(children, show)
  {
    if children != [] then [Line(ChildrenSection, ChildrenHeading)] + ChildBlocks(children, show) else []
  }

  function CompletedLine(entry: Json, show: Json -> string): string
  {
    "- " + Str(Field(entry, "name", JStr("unknown")), show) + ": " + Str(Field(entry, "status", JStr("unknown")), show)
  }

  function CompletedLines(entries: seq<Json>, show: Json -> string): (r: seq<Line>)
    ensures |r| == |entries|
    ensures forall k :: 0 <= k < |entries| ==> r[k] == Line(CompletedSection, CompletedLine(entries[k], show))
  {
    if entries == [] then [] else [Line(CompletedSection, CompletedLine(entries[0], show))] + CompletedLines(entries[1..], show)
  }

  function CompletedPart(cp: Dict, show: Json -> string): (r: seq<Line>)
    ensures Within(r, CompletedSection)
    ensures r != [] <==> Truthy(Get(cp, "completedChildren", JNull))
    ensures Truthy(Get(cp, "completedChildren", JNull)) ==>
              r == [Line(CompletedSection, CompletedHeading)] + CompletedLines(Items(Get(cp, "completedChildren", JNull)), show)
  {
    var cc := Get(cp, "completedChildren", JNull);
    if Truthy(cc) then [Line(CompletedSection, CompletedHeading)] + CompletedLines(Items(cc), show) else []
  }

  /** The lines of the resume text, in order. */
  function ResumeLines(cp: Dict, children: seq<(string, Json)>, show: Json -> string): seq<Line>
  {
    [Line(Opening, Header)] + PlanPart(cp, show) + DecisionsPart(cp, show) + ContextPart(cp, show) +
    ChildrenPart(children, show) + CompletedPart(cp, show) + [Line(Closing, Footer)]
  }

  function LineTexts(lines: seq<Line>): (r: seq<string>)
    ensures |r| == |lines| && forall k :: 0 <= k < |lines| ==> r[k] == lines[k].text
  {
    if lines == [] then [] else [lines[0].text] + LineTexts(lines[1..])
  }

  /** `_build_resume_context`: the lines joined by newlines. */
  function ResumeContext(cp: Dict, children: seq<(string, Json)>, show: Json -> string): string
  {
    Join(LineTexts(ResumeLines(cp, children, show)), "\n")
  }

  /** The resume text always opens with the resuming header and closes with the
      instruction to continue. */
  lemma ResumeFrame(cp: Dict, children: seq<(string, Json)>, show: Json -> string)
    ensures StartsWith(ResumeContext(cp, children, show), Header)
    ensures EndsWith(ResumeContext(cp, children, show), Footer)
  {
    var parts := LineTexts(ResumeLines(cp, children, show));
    JoinStartsWithFirst(parts, "\n");
    JoinEndsWithLast(parts, "\n");
  }

  /** How many lines the resume text has: header and footer, one per truthy section among
      plan, decisions and context, and a heading plus one line per child result and per
      completed child, when there are any. */
  lemma ResumeLineCount(cp: Dict, children: seq<(string, Json)>, show: Json -> string)
    ensures |ResumeLines(cp, children, show)| ==
            2 + (if Truthy(Get(cp, "plan", JNull)) then 1 else 0) +
            (if Truthy(Get(cp, "decisions", JNull)) then 1 else 0) +
            (if Truthy(Get(cp, "accumulatedContext", JNull)) then 1 else 0) +
            (if children != [] then 1 + |children| else 0) +
            (if Truthy(Get(cp, "completedChildren", JNull)) then 1 + |Items(Get(cp, "completedChildren", JNull))| else 0)
  {}

  predicate HasSection(lines: seq<Line>, s: Section)
  {
    exists k :: 0 <= k < |lines| && lines[k].section == s
  }

  /** A part whose lines all belong to `t` holds a line of `s` iff it is non-empty and `s` is `t`. */
  lemma WithinHas(lines: seq<Line>, t: Section, s: Section)
    requires Within(lines, t)
    ensures HasSection(lines, s) <==> lines != [] && s == t
  {
    if lines != [] && s == t {
      assert lines[0].section == s;
    }
  }

  lemma SectionOfConcat(a: seq<Line>, b: seq<Line>, s: Section)
    ensures HasSection(a + b, s) <==> HasSection(a, s) || HasSection(b, s)
  {
    if HasSection(a + b, s) {
      var k :| 0 <= k < |a + b| && (a + b)[k].section == s;
      if k >= |a| {
        assert b[k - |a|].section == s;
      } else {
        assert a[k].section == s;
      }
    }
    if HasSection(a, s) {
      var k :| 0 <= k < |a| && a[k].section == s;
      assert (a + b)[k] == a[k];
    }
    if HasSection(b, s) {
      var k :| 0 <= k < |b| && b[k].section == s;
      assert (a + b)[|a| + k] == b[k];
    }
  }

  /** Each optional section is present exactly when its source is there: plan, decisions
      and context when the checkpoint's field is truthy, child results when there are
      any, completed children when the checkpoint lists them (truthily). */
  lemma SectionsIffPresent(cp: Dict, children: seq<(string, Json)>, show: Json -> string)
    ensures var lines := ResumeLines(cp, children, show);
            (HasSection(lines, PlanSection) <==> Truthy(Get(cp, "plan", JNull))) &&
            (HasSection(lines, DecisionsSection) <==> Truthy(Get(cp, "decisions", JNull))) &&
            (HasSection(lines, ContextSection) <==> Truthy(Get(cp, "accumulatedContext", JNull))) &&
            (HasSection(lines, ChildrenSection) <==> children != []) &&
            (HasSection(lines, CompletedSection) <==> Truthy(Get(cp, "completedChildren", JNull)))
  {
    var o := [Line(Opening, Header)];
    var p := PlanPart(cp, show);
    var d := DecisionsPart(cp, show);
    var c := ContextPart(cp, show);
    var ch := ChildrenPart(children, show);
    var cc := CompletedPart(cp, show);
    var z := [Line(Closing, Footer)];
    assert ResumeLines(cp, children, show) == o + p + d + c + ch + cc + z;
    forall s: Section | s != Opening && s != Closing
      ensures HasSection(ResumeLines(cp, children, show), s) <==>
              (s == PlanSection && p != []) || (s == DecisionsSection && d != []) || (s == ContextSection && c != []) ||
              (s == ChildrenSection && ch != []) || (s == CompletedSection && cc != [])
    {
      SectionOfConcat(o + p + d + c + ch + cc, z, s);
      SectionOfConcat(o + p + d + c + ch, cc, s);
      SectionOfConcat(o + p + d + c, ch, s);
      SectionOfConcat(o + p + d, c, s);
      SectionOfConcat(o + p, d, s);
      SectionOfConcat(o, p, s);
      WithinHas(o, Opening, s);
      WithinHas(p, PlanSection, s);
      WithinHas(d, DecisionsSection, s);
      WithinHas(c, ContextSection, s);
      WithinHas(ch, ChildrenSection, s);
      WithinHas(cc, CompletedSection, s);
      WithinHas(z, Closing, s);
    }
  }

  /** The sections of `lines` never go back to an earlier one. */
  predicate Ordered(lines: seq<Line>)
  {
    forall i, j :: 0 <= i <= j < |lines| ==> Rank(lines[i].section) <= Rank(lines[j].section)
  }

  /** Appending a part of section `s` to lines no later than `s` keeps them in order. */
  lemma AppendPart(a: seq<Line>, b: seq<Line>, s: Section)
    requires Ordered(a) && Within(b, s)
    requires forall k :: 0 <= k < |a| ==> Rank(a[k].section) <= Rank(s)
    ensures Ordered(a + b)
    ensures forall k :: 0 <= k < |a + b| ==> Rank((a + b)[k].section) <= Rank(s)
  {}

  /** Seven parts, each within its own section and given in the sections' order, form
      ordered lines. */
  lemma OrderedParts(o: seq<Line>, p: seq<Line>, d: seq<Line>, c: seq<Line>, ch: seq<Line>, cc: seq<Line>, z: seq<Line>)
    requires Within(o, Opening) && Within(p, PlanSection) && Within(d, DecisionsSection) && Within(c, ContextSection)
    requires Within(ch, ChildrenSection) && Within(cc, CompletedSection) && Within(z, Closing)
    ensures Ordered(o + p + d + c + ch + cc + z)
  {
    AppendPart(o, p, PlanSection);
    AppendPart(o + p, d, DecisionsSection);
    AppendPart(o + p + d, c, ContextSection);
    AppendPart(o + p + d + c, ch, ChildrenSection);
    AppendPart(o + p + d + c + ch, cc, CompletedSection);
    AppendPart(o + p + d + c + ch + cc, z, Closing);
  }

  /** The sections come in their fixed order: plan, decisions, context, child results,
      then completed children, between the opening and the closing line. */
  lemma SectionsInOrder(cp: Dict, children: seq<(string, Json)>, show: Json -> string)
    ensures Ordered(ResumeLines(cp, children, show))
  {
    OrderedParts([Line(Opening, Header)], PlanPart(cp, show), DecisionsPart(cp, show), ContextPart(cp, show),
                 ChildrenPart(children, show), CompletedPart(cp, show), [Line(Closing, Footer)]);
  }

  /** A line of one of the seven parts is a line of the whole. */
  lemma InParts(x: Line, o: seq<Line>, p: seq<Line>, d: seq<Line>, c: seq<Line>, ch: seq<Line>, cc: seq<Line>, z: seq<Line>)
    requires x in ch || x in cc
    ensures x in o + p + d + c + ch + cc + z
  {
    var whole := o + p + d + c + ch + cc + z;
    if x in ch {
      var k :| 0 <= k < |ch| && ch[k] == x;
      assert whole[|o + p + d + c| + k] == x;
    } else {
      var k :| 0 <= k < |cc| && cc[k] == x;
      assert whole[|o + p + d + c + ch| + k] == x;
    }
  }

  /** Every child result has its block in the resume lines. */
  lemma ChildBlocksListed(cp: Dict, children: seq<(string, Json)>, show: Json -> string, k: int)
    requires 0 <= k < |children|
    ensures Line(ChildrenSection, ChildBlock(children[k], show)) in ResumeLines(cp, children, show)
  {
    var part := ChildrenPart(children, show);
    assert part[k + 1] == Line(ChildrenSection, ChildBlock(children[k], show));
    InParts(part[k + 1], [Line(Opening, Header)], PlanPart(cp, show), DecisionsPart(cp, show), ContextPart(cp, show),
            part, CompletedPart(cp, show), [Line(Closing, Footer)]);
  }

  /** Every completed child has its line in the resume lines. */
  lemma CompletedListed(cp: Dict, children: seq<(string, Json)>, show: Json -> string, e: Json)
    requires Truthy(Get(cp, "completedChildren", JNull)) && e in Items(Get(cp, "completedChildren", JNull))
    ensures Line(CompletedSection, CompletedLine(e, show)) in ResumeLines(cp, children, show)
  {
    var items := Items(Get(cp, "completedChildren", JNull));
    var part := CompletedPart(cp, show);
    var k :| 0 <= k < |items| && items[k] == e;
    assert part[k + 1] == Line(CompletedSection, CompletedLine(e, show));
    InParts(part[k + 1], [Line(Opening, Header)], PlanPart(cp, show), DecisionsPart(cp, show), ContextPart(cp, show),
            ChildrenPart(children, show), part, [Line(Closing, Footer)]);
  }

  /** Every child result has its block, and every completed child its line, in their
      orders; the two are not merged, so a child on both lists is reported twice, once in
      each section. */
  lemma ChildrenAllListed(cp: Dict, children: seq<(string, Json)>, show: Json -> string)
    ensures forall k :: 0 <= k < |children| ==> Line(ChildrenSection, ChildBlock(children[k], show)) in ResumeLines(cp, children, show)
    ensures Truthy(Get(cp, "completedChildren", JNull)) ==>
              forall e :: e in Items(Get(cp, "completedChildren", JNull)) ==>
                Line(CompletedSection, CompletedLine(e, show)) in ResumeLines(cp, children, show)
  {
    forall k | 0 <= k < |children| ensures Line(ChildrenSection, ChildBlock(children[k], show)) in ResumeLines(cp, children, show) {
      ChildBlocksListed(cp, children, show, k);
    }
    if Truthy(Get(cp, "completedChildren", JNull)) {
      forall e | e in Items(Get(cp, "completedChildren", JNull))
        ensures Line(CompletedSection, CompletedLine(e, show)) in ResumeLines(cp, children, show)
      {
        CompletedListed(cp, children, show, e);
      }
    }
  }

  // ---------------------------------------------------------------------------------------
  // The first conversation
  // ---------------------------------------------------------------------------------------

  /** How start-up ends: `die` with a task id and message, or the loop's first conversation
      for the task name it runs under. */
  datatype Launch = Died(taskId: string, message: string) | Started(taskName: string, messages: seq<Dict>)

  /** `task.get("taskId") or HORTATOR_TASK_NAME or task.get("prompt", "unknown")[:40]`. */
  function TaskId(task: Dict, envTaskName: Option<string>, show: Json -> string): (r: string)
    ensures Truthy(Get(task, "taskId", JNull)) ==> r == Str(task["taskId"], show)
    ensures !Truthy(Get(task, "taskId", JNull)) && envTaskName.Some? && envTaskName.value != "" ==>
              r == envTaskName.value
    ensures !Truthy(Get(task, "taskId", JNull)) && (envTaskName.None? || envTaskName.value == "") ==>
              (("prompt" !in task ==> r == "unknown") &&
               ("prompt" in task && task["prompt"].JStr? ==> PromptPrefix(r, task["prompt"].s)))
  {
    var t := Get(task, "taskId", JNull);
    if Truthy(t) then Str(t, show)
    else if envTaskName.Some? && envTaskName.value != "" then envTaskName.value
    else FirstForty(Get(task, "prompt", JStr("unknown")), show)
  }

  /** `r` is what `[:40]` leaves of the prompt `s`: its first 40 characters, or all of it
      when it is shorter. */
  predicate PromptPrefix(r: string, s: string)
  {
    r <= s && |r| <= 40 && (|s| <= 40 ==> r == s) && (|s| > 40 ==> |r| == 40)
  }

  /** `value[:40]` of a string or a list, shown as `str()` shows it. */
  function FirstForty(p: Json, show: Json -> string): string
  {
    match p
    case JStr(s) => s[..if |s| < 40 then |s| else 40]
    case JArr(xs) => show(JArr(xs[..if |xs| < 40 then |xs| else 40]))
    case _ => Str(p, show)
  }

  function Message(role: string, content: Json): Dict
  {
    map["role" := JStr(role), "content" := content]
  }

  /** The system turn, then the resume text when a checkpoint was loaded and the prompt
      otherwise. */
  function InitialMessages(systemPrompt: string, checkpoint: Option<Dict>, children: seq<(string, Json)>, prompt: Json,
                           show: Json -> string): (r: seq<Dict>)
    ensures |r| == 2 && r[0] == Message("system", JStr(systemPrompt))
    ensures checkpoint.Some? && checkpoint.value != map[] ==> r[1] == Message("user", JStr(ResumeContext(checkpoint.value, children, show)))
    ensures checkpoint.None? || checkpoint.value == map[] ==> r[1] == Message("user", prompt)
  {
    [Message("system", JStr(systemPrompt)),
     if checkpoint.Some? && checkpoint.value != map[] then Message("user", JStr(ResumeContext(checkpoint.value, children, show)))
     else Message("user", prompt)]
  }

  /** `main` up to the loop: a missing task file or an empty prompt dies; otherwise the
      task runs under HORTATOR_TASK_NAME when that is set, and under the task id if not. */
  function StartUp(task: Option<Dict>, envTaskName: Option<string>, systemPrompt: string, checkpoint: Option<Dict>,
                   children: seq<(string, Json)>, show: Json -> string): (l: Launch)
    ensures task.None? ==> l == Died("unknown", "task.json not found at " + TaskFile)
    ensures task.Some? ==> (l.Died? <==> !Truthy(Get(task.value, "prompt", JStr(""))))
    ensures l.Died? && task.Some? ==> l.taskId == TaskId(task.value, envTaskName, show)
  {
    if task.None? then Died("unknown", "task.json not found at " + TaskFile)
    else
      var id := TaskId(task.value, envTaskName, show);
      var prompt := Get(task.value, "prompt", JStr(""));
      if !Truthy(prompt) then Died(id, "Empty prompt in task.json")
      else Started(if envTaskName.Some? then envTaskName.value else id,
                   InitialMessages(systemPrompt, checkpoint, children, prompt, show))
  }

  /** An empty (or missing) prompt always dies; a non-empty one always starts with exactly
      two turns: the system prompt, then the resume text exactly when a checkpoint was
      loaded, and the prompt itself otherwise. */
  lemma StartUpOutcomes(task: Dict, envTaskName: Option<string>, systemPrompt: string, checkpoint: Option<Dict>,
                        children: seq<(string, Json)>, show: Json -> string)
    ensures var l := StartUp(Some(task), envTaskName, systemPrompt, checkpoint, children, show);
            var prompt := Get(task, "prompt", JStr(""));
            (!Truthy(prompt) <==> l == Died(TaskId(task, envTaskName, show), "Empty prompt in task.json")) &&
            (Truthy(prompt) ==>
               l.Started? && |l.messages| == 2 &&
               l.messages[0] == Message("system", JStr(systemPrompt)) &&
               l.messages[1]["role"] == JStr("user") &&
               (checkpoint.Some? && checkpoint.value != map[] ==>
                  l.messages[1]["content"] == JStr(ResumeContext(checkpoint.value, children, show))) &&
               (checkpoint.None? ==> l.messages[1]["content"] == prompt) &&
               (envTaskName.Some? ==> l.taskName == envTaskName.value) &&
               (envTaskName.None? ==> l.taskName == TaskId(task, envTaskName, show)))
  {}

  /** A checkpoint that loads is never empty (it holds its version), so a loaded one always
      selects the resume text. */
  lemma LoadedCheckpointIsNonEmpty(files: map<string, string>, parse: Checkpoint.Parser, readOk: bool)
    ensures Checkpoint.LoadCheckpoint(files, StateFile, parse, readOk).Some? ==>
              "version" in Checkpoint.LoadCheckpoint(files, StateFile, parse, readOk).value &&
              Checkpoint.LoadCheckpoint(files, StateFile, parse, readOk).value != map[]
  {}

  /** The loop keeps the first two turns in place: however it ends, its conversation
      starts with the system turn and the user turn start-up built. */
  lemma LoopKeepsFirstTurns(l: Launch, files: map<string, string>, w: AgentLoop.Oracles)
    requires l.Started?
    ensures l.messages <= AgentLoop.Run(AgentLoop.Start(l.messages, files), 0, w).1.messages
  {
    AgentLoop.RunGrows(AgentLoop.Start(l.messages, files), 0, w);
  }

  // ---------------------------------------------------------------------------------------
  // write_result and die
  // ---------------------------------------------------------------------------------------

  /** result.json's object. */
  function ResultDoc(taskId: string, status: string, summary: string, tokensIn: int, tokensOut: int, duration: int,
                     artifacts: seq<string>): Dict
  {
    map["taskId" := JStr(taskId), "status" := JStr(status), "summary" := JStr(summary),
        "artifacts" := JArr(Texts(artifacts)),
        "decisions" := JInt(0),
        "tokensUsed" := JObj(map["input" := JInt(tokensIn), "output" := JInt(tokensOut)]),
        "duration" := JInt(duration)]
  }

  /** usage.json's object. */
  function UsageDoc(tokensIn: int, tokensOut: int): Dict
  {
    map["input" := JInt(tokensIn), "output" := JInt(tokensOut), "total" := JInt(tokensIn + tokensOut)]
  }

  /** `write_result`: result.json (indented) and usage.json are overwritten and nothing
      else changes. The duration is the whole seconds since start, read from the clock
      by the caller. */
  method WriteResult(disk: Checkpoint.Disk, taskId: string, status: string, summary: string, tokensIn: int, tokensOut: int,
                     duration: int, artifacts: seq<string>, dump: Checkpoint.Dumper, dumpIndented: Checkpoint.Dumper)
    modifies disk
    ensures disk.files == old(disk.files)[ResultFile := dumpIndented(JObj(ResultDoc(taskId, status, summary, tokensIn, tokensOut, duration, artifacts)))]
                                         [UsageFile := dump(JObj(UsageDoc(tokensIn, tokensOut)))]
  {
    var result := ResultDoc(taskId, status, summary, tokensIn, tokensOut, duration, artifacts);
    disk.files := disk.files[ResultFile := dumpIndented(JObj(result))];
    disk.files := disk.files[UsageFile := dump(JObj(map["input" := JInt(tokensIn), "output" := JInt(tokensOut),
                                                            "total" := JInt(tokensIn + tokensOut)]))];
  }

  /** `die`: a failed result with no tokens, no artifacts and zero duration, written
      without indentation, and exit status 1. */
  method Die(disk: Checkpoint.Disk, taskId: string, msg: string, dump: Checkpoint.Dumper) returns (exitCode: int)
    modifies disk
    ensures exitCode == 1
    ensures disk.files == old(disk.files)[ResultFile := dump(JObj(ResultDoc(taskId, "failed", msg, 0, 0, 0, [])))]
                                         [UsageFile := dump(JObj(UsageDoc(0, 0)))]
  {
    var result := map["taskId" := JStr(taskId), "status" := JStr("failed"), "summary" := JStr(msg),
                      "artifacts" := JArr([]), "decisions" := JInt(0),
                      "tokensUsed" := JObj(map["input" := JInt(0), "output" := JInt(0)]), "duration" := JInt(0)];
    assert result == ResultDoc(taskId, "failed", msg, 0, 0, 0, []);
    disk.files := disk.files[ResultFile := dump(JObj(result))];
    disk.files := disk.files[UsageFile := dump(JObj(map["input" := JInt(0), "output" := JInt(0), "total" := JInt(0)]))];
    return 1;
  }

  /** The result and usage files agree: the usage total is input plus output, the same
      counts result.json reports, and a death reports zero of each. */
  lemma ResultAndUsageAgree(taskId: string, status: string, summary: string, tokensIn: int, tokensOut: int, duration: int,
                            artifacts: seq<string>)
    ensures var r := ResultDoc(taskId, status, summary, tokensIn, tokensOut, duration, artifacts);
            var u := UsageDoc(tokensIn, tokensOut);
            r["tokensUsed"].fields["input"] == u["input"] && r["tokensUsed"].fields["output"] == u["output"] &&
            u["total"] == JInt(tokensIn + tokensOut) && |r["artifacts"].items| == |artifacts|
    ensures UsageDoc(0, 0)["total"] == JInt(0)
  {}

  /** What the runtime writes after the loop: the loop's result under the task's name. */
  method Finish(disk: Checkpoint.Disk, taskName: string, r: AgentLoop.LoopResult, duration: int,
                dump: Checkpoint.Dumper, dumpIndented: Checkpoint.Dumper)
    modifies disk
    ensures disk.files == old(disk.files)[ResultFile := dumpIndented(JObj(ResultDoc(taskName, r.status, r.output, r.tokensIn,
                                                                                    r.tokensOut, duration, r.artifacts)))]
                                         [UsageFile := dump(JObj(UsageDoc(r.tokensIn, r.tokensOut)))]
  {
    WriteResult(disk, taskName, r.status, r.output, r.tokensIn, r.tokensOut, duration, r.artifacts, dump, dumpIndented);
  }
}
