// The context assembler: `build_conversation_context`, which renders the
// uploaded files and the error log into the text that opens the first
// request of a debugging session.

module Context {
  import opened Text

  /** The five upload slots, in the order their sections are rendered. */
  datatype Slot = Agents | Tasks | Tools | Crew | Main

  const SlotOrder: seq<Slot> := [Agents, Tasks, Tools, Crew, Main]

  /** The key under which a slot's content is stored in the session's `files` map. */
  function Key(s: Slot): string {
    match s
    case Agents => "agents"
    case Tasks => "tasks"
    case Tools => "tools"
    case Crew => "crew"
    case Main => "main"
  }

  /** The heading that names a slot's section. */
  function Heading(s: Slot): string {
    match s
    case Agents => "AGENTS.YAML"
    case Tasks => "TASKS.YAML"
    case Tools => "TOOLS.PY"
    case Crew => "CREW.PY"
    case Main => "MAIN.PY"
  }

  /** The language tag of a slot's code fence. */
  function FenceTag(s: Slot): string {
    match s
    case Agents => "yaml"
    case Tasks => "yaml"
    case _ => "python"
  }

  /** The position of a slot in SlotOrder. */
  function Rank(s: Slot): (r: nat)
    ensures r < |SlotOrder| && SlotOrder[r] == s
  {
    match s
    case Agents => 0
    case Tasks => 1
    case Tools => 2
    case Crew => 3
    case Main => 4
  }

  const Header: string := "Here are the uploaded CrewAI system files:\n\n"

  /** One labelled, fenced block. */
  function Section(heading: string, tag: string, body: string): string {
    "## " + heading + "\n```" + tag + "\n" + body + "\n```\n\n"
  }

  function FileSection(s: Slot, content: string): string {
    Section(Heading(s), FenceTag(s), content)
  }

  /** The error log's block: its fence carries no language tag. */
  function LogSection(log: string): string {
    Section("ERROR LOG", "", log)
  }

  /** The sections of `slots`, in that order, each emitted only when its key is in `files`. */
  function Sections(files: map<string, string>, slots: seq<Slot>): string {
    if slots == [] then ""
    else
      SlotPart(files, slots[0]) + Sections(files, slots[1..])
  }

  /** A slot's contribution: its section when its key is present, nothing otherwise. */
  function SlotPart(files: map<string, string>, s: Slot): string {
    if Key(s) in files then FileSection(s, files[Key(s)]) else ""
  }

  /** The sections in the fixed order, slot by slot. */
  lemma SectionsBySlot(files: map<string, string>)
    ensures Sections(files, SlotOrder)
         == SlotPart(files, Agents) + SlotPart(files, Tasks) + SlotPart(files, Tools)
            + SlotPart(files, Crew) + SlotPart(files, Main)
  {
    var main := SlotPart(files, Main);
    var crewMain := SlotPart(files, Crew) + main;
    var rest := SlotPart(files, Tools) + crewMain;
    assert [Main][1..] == [];
    assert Sections(files, [Main]) == main;
    assert [Crew, Main][1..] == [Main];
    assert Sections(files, [Crew, Main]) == crewMain;
    assert [Tools, Crew, Main][1..] == [Crew, Main];
    assert Sections(files, [Tools, Crew, Main]) == rest;
    assert [Tasks, Tools, Crew, Main][1..] == [Tools, Crew, Main];
    assert Sections(files, [Tasks, Tools, Crew, Main]) == SlotPart(files, Tasks) + rest;
    assert SlotOrder[1..] == [Tasks, Tools, Crew, Main];
    AppendAssoc(SlotPart(files, Agents), SlotPart(files, Tasks), SlotPart(files, Tools), SlotPart(files, Crew), main);
  }

  /** The right-nested grouping `Sections` builds, regrouped as the
      left-nested one `SectionsBySlot` states. The five parts are parameters so
      that the caller's proof does not unfold the slot sections themselves. */
  lemma AppendAssoc(a: string, b: string, c: string, d: string, e: string)
    ensures a + (b + (c + (d + e))) == a + b + c + d + e
  {
  }

  /** The error-log block when the log has non-white-space text (its `strip()`
      is not empty, by StripEmptyIffBlank), nothing otherwise. */
  function LogPart(log: string): string {
    if !IsBlank(log) then LogSection(log) else ""
  }

  /** `build_conversation_context()` over the session's `files` and `error_log`. */
  function BuildContext(files: map<string, string>, errorLog: string): string {
    Header + Sections(files, SlotOrder) + LogPart(errorLog)
  }

  // ---------------------------------------------------------------------------
  // An independent description of the layout: the present slots, filtered out
  // of the fixed order, and the concatenation of their sections.

  /** The slots appear in strictly increasing rank: fixed order, no repeats. */
  predicate InOrder(slots: seq<Slot>) {
    forall i, j :: 0 <= i < j < |slots| ==> Rank(slots[i]) < Rank(slots[j])
  }

  /** The slots of `slots` whose key is present in `files`, in their order. */
  function Present(files: map<string, string>, slots: seq<Slot>): seq<Slot> {
    if slots == [] then []
    else (if Key(slots[0]) in files then [slots[0]] else []) + Present(files, slots[1..])
  }

  /** Filtering keeps exactly the present slots of the list. */
  lemma {:induction false} PresentMembers(files: map<string, string>, slots: seq<Slot>)
    ensures forall s :: s in Present(files, slots) <==> s in slots && Key(s) in files
    decreases |slots|
  {
    if slots != [] {
      PresentMembers(files, slots[1..]);
      assert slots == [slots[0]] + slots[1..];
    }
  }

  /** Filtering a list in slot order gives a list in slot order. */
  lemma {:induction false} PresentInOrder(files: map<string, string>, slots: seq<Slot>)
    requires InOrder(slots)
    ensures InOrder(Present(files, slots))
    decreases |slots|
  {
    if slots != [] {
      assert InOrder(slots[1..]);
      PresentInOrder(files, slots[1..]);
      PresentMembers(files, slots[1..]);
      var rest := Present(files, slots[1..]);
      forall x | x in rest ensures Rank(slots[0]) < Rank(x) {
        var j :| 0 <= j < |slots[1..]| && slots[1..][j] == x;
        assert slots[j + 1] == x;
      }
      if Key(slots[0]) in files {
        InOrderCons(slots[0], rest);
      } else {
        assert Present(files, slots) == rest;
      }
    }
  }

  lemma InOrderCons(s: Slot, rest: seq<Slot>)
    requires InOrder(rest)
    requires forall x :: x in rest ==> Rank(s) < Rank(x)
    ensures InOrder([s] + rest)
  {
    var l := [s] + rest;
    forall i, j | 0 <= i < j < |l| ensures Rank(l[i]) < Rank(l[j]) {
      assert l[j] == rest[j - 1];
      if i > 0 {
        assert l[i] == rest[i - 1];
      }
    }
  }

  /** The fixed order lists every slot, each once, by rank. */
  lemma SlotOrderComplete()
    ensures forall s :: s in SlotOrder
    ensures InOrder(SlotOrder)
  {
    forall s ensures s in SlotOrder {
      assert SlotOrder[Rank(s)] == s;
    }
    forall i | 0 <= i < |SlotOrder| ensures Rank(SlotOrder[i]) == i {
    }
  }

  /** The slots whose section the context holds: exactly those uploaded,
      each once, in the fixed order agents, tasks, tools, crew, main. */
  function PresentSlots(files: map<string, string>): (r: seq<Slot>)
    ensures forall s :: s in r <==> Key(s) in files
    ensures InOrder(r)
  {
    SlotOrderComplete();
    PresentMembers(files, SlotOrder);
    PresentInOrder(files, SlotOrder);
    Present(files, SlotOrder)
  }

  /** The concatenated sections of `slots`, all of whose keys must be present. */
  function Concat(files: map<string, string>, slots: seq<Slot>): string
    requires forall s :: s in slots ==> Key(s) in files
  {
    if slots == [] then "" else FileSection(slots[0], files[Key(slots[0])]) + Concat(files, slots[1..])
  }

  lemma {:induction false} SectionsArePresentConcat(files: map<string, string>, slots: seq<Slot>)
    ensures forall s :: s in Present(files, slots) ==> Key(s) in files
    ensures Sections(files, slots) == Concat(files, Present(files, slots))
    decreases |slots|
  {
    PresentMembers(files, slots);
    if slots != [] {
      SectionsArePresentConcat(files, slots[1..]);
      var rest := Present(files, slots[1..]);
      if Key(slots[0]) in files {
        assert ([slots[0]] + rest)[0] == slots[0] && ([slots[0]] + rest)[1..] == rest;
      } else {
        assert [] + rest == rest;
      }
    }
  }

  /** The context is the header, then one section per uploaded slot in the
      fixed order (an absent slot leaves no trace), then the log part. */
  lemma ContextLayout(files: map<string, string>, errorLog: string)
    ensures BuildContext(files, errorLog) == Header + Concat(files, PresentSlots(files)) + LogPart(errorLog)
    ensures Header <= BuildContext(files, errorLog)
  {
    SectionsArePresentConcat(files, SlotOrder);
  }

  /** The error log is appended, as the last section, exactly when it holds a
      character other than white space; otherwise it leaves no trace. */
  lemma LogSectionIffNotBlank(files: map<string, string>, errorLog: string)
    ensures Strip(errorLog) == "" ==> BuildContext(files, errorLog) == BuildContext(files, "")
    ensures Strip(errorLog) != "" ==> BuildContext(files, errorLog) == BuildContext(files, "") + LogSection(errorLog)
  {
    StripEmptyIffBlank(errorLog);
  }

  /** Keys of `files` other than the five slot keys never reach the context. */
  function SlotFiles(files: map<string, string>): (r: map<string, string>)
    ensures forall s :: Key(s) in r <==> Key(s) in files
    ensures forall s :: Key(s) in r ==> r[Key(s)] == files[Key(s)]
  {
    map k | k in files && k in {"agents", "tasks", "tools", "crew", "main"} :: files[k]
  }

  lemma {:induction false} SectionsOnlyReadSlotKeys(files: map<string, string>, slots: seq<Slot>)
    ensures Sections(files, slots) == Sections(SlotFiles(files), slots)
    decreases |slots|
  {
    if slots != [] {
      SectionsOnlyReadSlotKeys(files, slots[1..]);
    }
  }

  lemma OtherKeysIgnored(files: map<string, string>, errorLog: string)
    ensures BuildContext(files, errorLog) == BuildContext(SlotFiles(files), errorLog)
  {
    SectionsOnlyReadSlotKeys(files, SlotOrder);
  }

  /** The four mandatory files without tools.py and with a blank log give
      exactly four sections, in order; an empty file still gets its section. */
  lemma MandatoryOnlyContext(files: map<string, string>, errorLog: string)
    requires Key(Agents) in files && Key(Tasks) in files && Key(Crew) in files && Key(Main) in files
    requires Key(Tools) !in files
    requires IsBlank(errorLog)
    ensures BuildContext(files, errorLog)
         == Header + FileSection(Agents, files[Key(Agents)]) + FileSection(Tasks, files[Key(Tasks)])
                   + FileSection(Crew, files[Key(Crew)]) + FileSection(Main, files[Key(Main)])
  {
    SectionsBySlot(files);
    var a, t, c, m := SlotPart(files, Agents), SlotPart(files, Tasks), SlotPart(files, Crew), SlotPart(files, Main);
    assert SlotPart(files, Tools) == [] && LogPart(errorLog) == [];
    DropEmpty(Header, a, t, c, m);
  }

  /** The grouping `BuildContext` produces when the tools part and the log
      part are empty, with both dropped. Stated on plain parameters so that the
      caller's proof does not unfold the header and section literals. */
  lemma DropEmpty(h: string, a: string, t: string, c: string, m: string)
    ensures h + (a + t + [] + c + m) + [] == h + a + t + c + m
  {
  }
}
