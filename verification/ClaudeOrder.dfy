/**
 A claude thread watched live and the same thread loaded from its transcript file
 show the same exactly when the messages that stream before the file has a line of
 them get their lines in the order they began, before anything else is drawn.

 What is on screen stays there, in its place, whatever comes; and what the file
 draws stays in its place too. So one item out of place is out of place for good.
 */
module ClaudeOrder {

  import opened Basics
  import opened Transcript
  import opened Trees
  import opened Settling
  import opened HistoryPages
  import opened ClaudeAssembly
  import opened ClaudeScreen
  import opened ClaudeDrafts
  import opened ClaudeLines
  import opened ClaudeNames
  import opened PromptNames
  import opened ClaudeShows
  import opened ClaudeLive
  import TranscriptRuns

  // ---------------------------------------------------- what stays on screen

  /** Messages stay what they are, where they are. */
  ghost predicate Keeps(items: seq<Item>, after: seq<Item>) {
    |items| <= |after| &&
      forall i | 0 <= i < |items| ::
        && (items[i].Assistant? ==> after[i].Assistant? && after[i].id == items[i].id)
        && (items[i].User? ==> after[i].User? && after[i].id == items[i].id)
  }

  lemma KeepsOn(a: seq<Item>, b: seq<Item>, c: seq<Item>)
    requires Keeps(a, b) && Keeps(b, c)
    ensures Keeps(a, c)
  {
  }

  lemma EventKeeps(t: State, e: Event)
    ensures Keeps(t.items, Apply(t, e).items)
  {
    var more := TranscriptRuns.EventTop(t, e);
    forall i | 0 <= i < |t.items| ensures TranscriptRuns.SameMessage(Apply(t, e).items[i], t.items[i]) {
    }
  }

  lemma {:induction false} FoldKeeps(t: State, events: seq<Event>)
    ensures Keeps(t.items, Fold(t, events).items)
    decreases |events|
  {
    if events != [] {
      var before := events[..|events| - 1];
      FoldKeeps(t, before);
      EventKeeps(Fold(t, before), events[|events| - 1]);
      KeepsOn(t.items, Fold(t, before).items, Fold(t, events).items);
    }
  }

  lemma OwnKeeps(t: State, step: Step)
    ensures Keeps(t.items, WithOwn(t, step).items)
  {
  }

  lemma {:induction false} ClientKeeps(steps: seq<Step>, k: nat)
    requires k <= |steps|
    ensures Keeps(Client(steps[..k]).items, Client(steps).items)
    decreases |steps|
  {
    if k == |steps| {
      assert steps[..k] == steps;
    } else {
      var before, step := steps[..|steps| - 1], steps[|steps| - 1];
      assert before[..k] == steps[..k];
      ClientKeeps(before, k);
      var own := WithOwn(Client(before), step);
      OwnKeeps(Client(before), step);
      FoldKeeps(own, StepEvents(before, step));
      KeepsOn(Client(before).items, own.items, Client(steps).items);
      KeepsOn(Client(steps[..k]).items, Client(before).items, Client(steps).items);
    }
  }

  // ------------------------------------------------------- one item misplaced

  lemma FirstEarly(t: State, lines: seq<Line>, early: seq<string>, plan: Plan)
    requires Shows(t, lines, early, plan) && early != []
    ensures |Screen(lines)| < |t.items|
    ensures t.items[|Screen(lines)|].Assistant? && t.items[|Screen(lines)|].id == early[0]
  {
    var all := Screen(lines) + Blanks(early);
    assert all[|Screen(lines)|] == Blanks(early)[0];
    assert Like(t.items[|Screen(lines)|], all[|Screen(lines)|], plan);
  }

  /** A prompt of a client's own with nothing to see. */
  predicate HiddenOwn(step: Step) { step.Prompt? && step.mine && UserBlocks(step.blocks) == [] }

  /** What is drawn out of turn takes the place of the message that began first. */
  lemma AnotherNext(early: seq<string>, lines: seq<Line>, step: Step, line: Line)
    requires !Lands(early, lines, step) && !HiddenOwn(step) && StepLines(step, map[]) == [line]
    requires MainOnly(lines + [line]) && MainOnly(lines) && InOrder(lines) && Comes(lines, line)
    ensures early != [] && |Screen(lines)| < |Screen(lines + [line])|
    ensures var next := Screen(lines + [line])[|Screen(lines)|]; !(next.Assistant? && next.id == early[0])
  {
    assert (lines + [line])[|lines|] == line;
    match line {
      case AssistantLine(id, _, _, _) => ScreenOpened(lines, line);
      case OtherLine(entries, _, _) =>
        var i := SomethingDrawn(early, lines, step, line);
        OtherComesNext(lines, line, i);
      case ResultLine =>
    }
  }

  lemma SomethingDrawn(early: seq<string>, lines: seq<Line>, step: Step, line: Line) returns (i: nat)
    requires !Lands(early, lines, step) && !HiddenOwn(step) && StepLines(step, map[]) == [line] && line.OtherLine?
    ensures early != [] && i < |line.entries| && DrawEntry(line.entries[i], map[]) != []
  {
    if step.Printed? {
      var e :| e in line.entries && DrawEntry(e, map[]) != [];
      i :| i < |line.entries| && line.entries[i] == e;
    } else {
      i := 0;
    }
  }

  /** Where the two differ once a step has not landed. */
  lemma Misplaced(before: seq<Step>, step: Step, plan: Plan) returns (n: nat)
    requires Shows(Client(before), Sent(before), EarlyIn(before), plan)
    requires !Lands(EarlyIn(before), Sent(before), step) && !HiddenOwn(step)
    requires Fits(before, plan) && StepFits(before, step, plan)
    requires InOrder(Sent(before)) && InOrder(Sent(before) + StepLines(step, map[]))
    ensures n < |Client(before).items| && Client(before).items[n].Assistant?
    ensures n < |Screen(Sent(before) + StepLines(step, map[]))|
    ensures var next := Screen(Sent(before) + StepLines(step, map[]))[n];
      !(next.Assistant? && next.id == Client(before).items[n].id)
  {
    var line := MissedLine(before, step, plan);
    AnotherNext(EarlyIn(before), Sent(before), step, line);
    FirstEarly(Client(before), Sent(before), EarlyIn(before), plan);
    n := |Screen(Sent(before))|;
  }

  /** From then on they do. */
  lemma OutOfPlace(steps: seq<Step>, k: nat) returns (n: nat)
    requires Complete(steps) && InOrder(Sent(steps)) && k < |steps| && InPlace(steps[..k])
    requires !Lands(EarlyIn(steps[..k]), Sent(steps[..k]), steps[k]) && !HiddenOwn(steps[k])
    ensures n < |Client(steps).items| && n < |Screen(Sent(steps))| && Client(steps).items[n].Assistant?
    ensures var drawn := Screen(Sent(steps))[n]; !(drawn.Assistant? && drawn.id == Client(steps).items[n].id)
  {
    var before, step := StepAt(steps, k + 1);
    AlwaysShown(steps, k);
    n := Misplaced(before, step, ToldBy(steps));
    LinesSnoc(before, step, map[]);
    StillMisplaced(steps, k, n);
  }

  lemma StillMisplaced(steps: seq<Step>, k: nat, n: nat)
    requires Complete(steps) && InOrder(Sent(steps)) && k < |steps|
    requires n < |Client(steps[..k]).items| && Client(steps[..k]).items[n].Assistant?
    requires n < |Screen(Sent(steps[..k + 1]))|
    requires var next := Screen(Sent(steps[..k + 1]))[n];
      !(next.Assistant? && next.id == Client(steps[..k]).items[n].id)
    ensures n < |Client(steps).items| && n < |Screen(Sent(steps))| && Client(steps).items[n].Assistant?
    ensures var drawn := Screen(Sent(steps))[n]; !(drawn.Assistant? && drawn.id == Client(steps).items[n].id)
  {
    ClientKeeps(steps, k);
    ScreenKept(steps, k + 1);
    assert SameItem(Screen(Sent(steps))[n], Screen(Sent(steps[..k + 1]))[n]);
  }

  lemma MissedLine(before: seq<Step>, step: Step, plan: Plan) returns (line: Line)
    requires !Lands(EarlyIn(before), Sent(before), step) && !HiddenOwn(step)
    requires Fits(before, plan) && StepFits(before, step, plan) && InOrder(Sent(before) + StepLines(step, map[]))
    ensures StepLines(step, map[]) == [line] && MainOnly(Sent(before)) && MainOnly(Sent(before) + [line])
    ensures Comes(Sent(before), line)
  {
    line := StepLines(step, map[])[0];
    LineOf(before, step, line, plan);
  }

  lemma ScreenKept(steps: seq<Step>, k: nat)
    requires k <= |steps| && Complete(steps) && InOrder(Sent(steps))
    ensures Extends(Screen(Sent(steps[..k])), Screen(Sent(steps)))
  {
    MainLines(steps, map[], ToldBy(steps));
    FitsBefore(steps, k, ToldBy(steps));
    ScreensExtend(Sent(steps), |Sent(steps[..k])|);
    assert Sent(steps)[..|Sent(steps[..k])|] == Sent(steps[..k]);
  }

  // ------------------------------------------------- a prompt nobody can see

  lemma HiddenShown(t: State, before: seq<Step>, step: Step)
    requires HiddenOwn(step) && step.client != ""
    ensures var items := Fold(WithOwn(t, step), StepEvents(before, step)).items;
      |t.items| < |items| && items[|t.items|].User? && items[|t.items|].id == PromptID(step.client)
  {
    var put := LocalPrompt(t, step.client, step.blocks);
    FoldOne(put, UserMessage(PromptID(step.client), step.blocks, step.client, ""));
    assert LocalEcho(put.items, step.client) == |t.items|;
  }

  lemma HiddenStays(steps: seq<Step>, k: nat) returns (n: nat)
    requires k < |steps| && HiddenOwn(steps[k]) && steps[k].client != ""
    ensures n < |Client(steps).items| && Client(steps).items[n].User?
    ensures Client(steps).items[n].id == PromptID(steps[k].client)
  {
    assert steps[..k + 1] == steps[..k] + [steps[k]];
    n := HiddenNext(steps[..k], steps[k]);
    ClientKeeps(steps, k + 1);
  }

  lemma HiddenNext(before: seq<Step>, step: Step) returns (n: nat)
    requires HiddenOwn(step) && step.client != ""
    ensures var items := Client(before + [step]).items;
      n < |items| && items[n].User? && items[n].id == PromptID(step.client)
  {
    HiddenShown(Client(before), before, step);
    ClientSnoc(before, step);
    n := |Client(before).items|;
  }

  function PromptEntry(step: Step, names: map<string, string>): Event
    requires step.Prompt?
  {
    UserMessage(NameOf(PromptID(step.client), names), step.blocks, "", "")
  }

  /** Its entry is in the file all the same. */
  lemma {:induction false} PromptOnFile(steps: seq<Step>, k: nat, names: map<string, string>)
    requires k < |steps| && steps[k].Prompt?
    ensures PromptEntry(steps[k], names) in History(LinesOf(steps, names))
    decreases |steps|
  {
    var before, step := steps[..|steps| - 1], steps[|steps| - 1];
    assert steps == before + [step];
    LinesSnoc(before, step, names);
    if k == |steps| - 1 {
      PromptWritten(LinesOf(before, names), step, names);
    } else {
      PromptOnFile(before, k, names);
      EntryKept(LinesOf(before, names), step, names, PromptEntry(steps[k], names));
    }
  }

  lemma PromptWritten(lines: seq<Line>, step: Step, names: map<string, string>)
    requires step.Prompt?
    ensures PromptEntry(step, names) in History(lines + StepLines(step, names))
  {
    var line := StepLines(step, names)[0];
    HistoryAdds(lines, line);
    assert line.entries[0] == PromptEntry(step, names) && line.entries[0] in line.entries;
    assert StepLines(step, names) == [line];
  }

  lemma EntryKept(lines: seq<Line>, step: Step, names: map<string, string>, e: Event)
    requires e in History(lines) && !e.AssistantMessage?
    ensures e in History(lines + StepLines(step, names))
  {
    if StepLines(step, names) == [] {
      assert lines + [] == lines;
    } else {
      EntryStays(lines, StepLines(step, names)[0], e);
      assert StepLines(step, names) == [StepLines(step, names)[0]];
    }
  }

  /** A file that says less than the screen of such a prompt. */
  lemma HiddenDiffers(steps: seq<Step>, k: nat, names: map<string, string>)
    requires Complete(steps) && InOrder(LinesOf(steps, names))
    requires k < |steps| && HiddenOwn(steps[k]) && steps[k].client != ""
    ensures Shown(History(LinesOf(steps, names))) != Named(Client(steps), names)
  {
    var lines := LinesOf(steps, names);
    var e := PromptEntry(steps[k], names);
    MainLines(steps, names, ToldBy(steps));
    LinesTidy(lines);
    PromptOnFile(steps, k, names);
    HiddenUser(History(lines), e, ResultsOf(History(lines)));
    var n := HiddenStays(steps, k);
    var named := NamedItems(Client(steps).items, names);
    assert named[n].User? && named[n].id == e.messageID && named[n] in named;
  }

  /** Another item in the place of a message differs from it under any names. */
  lemma NamedDiffers(live: seq<Item>, drawn: seq<Item>, n: nat, names: map<string, string>)
    requires n < |live| && n < |drawn| && live[n].Assistant? && !(drawn[n].Assistant? && drawn[n].id == live[n].id)
    ensures NamedItems(live, names) != NamedItems(drawn, names)
  {
    assert NamedItems(live, names)[n] == live[n];
    assert NamedItems(drawn, names)[n] == NamedItem(drawn[n], names);
  }

  lemma MisplacedDiffers(steps: seq<Step>, k: nat, names: map<string, string>)
    requires Complete(steps) && OfPrompts(names, steps) && InOrder(Sent(steps))
    requires k < |steps| && InPlace(steps[..k])
    requires !Lands(EarlyIn(steps[..k]), Sent(steps[..k]), steps[k]) && !HiddenOwn(steps[k])
    ensures Shown(History(LinesOf(steps, names))) != Named(Client(steps), names)
  {
    var told, file := History(Sent(steps)), History(LinesOf(steps, names));
    var n := OutOfPlace(steps, k);
    NamedDiffers(Client(steps).items, Screen(Sent(steps)), n, names);
    FileNamed(steps, names, ToldBy(steps));
    DrawNamed(told, file, ResultsOf(told), names);
  }

  /** The first step that does not land, if one does not. */
  lemma {:induction false} FirstMissed(steps: seq<Step>) returns (k: nat)
    requires !InPlace(steps)
    ensures k < |steps| && InPlace(steps[..k]) && !Lands(EarlyIn(steps[..k]), Sent(steps[..k]), steps[k])
    decreases |steps|
  {
    var n := |steps| - 1;
    if InPlace(steps[..n]) {
      k := n;
    } else {
      k := FirstMissed(steps[..n]);
      assert steps[..n][..k] == steps[..k];
    }
  }

  lemma MissedDiffers(steps: seq<Step>, names: map<string, string>)
    requires Complete(steps) && OfPrompts(names, steps) && !InPlace(steps)
    requires InOrder(Sent(steps)) && InOrder(LinesOf(steps, names))
    ensures Shown(History(LinesOf(steps, names))) != Named(Client(steps), names)
  {
    var k := FirstMissed(steps);
    var before, step := StepAt(steps, k + 1);
    if HiddenOwn(steps[k]) {
      HiddenDiffers(steps, k, names);
    } else {
      MisplacedDiffers(steps, k, names);
    }
  }

  // ----------------------------------------------------------------- theorem

  /** Once all that was streamed has been told, the transcript a client folded from
      the stream is the one it would load from the file, up to the ids the file has
      the owner's prompts under, exactly if every step has landed. */
  lemma LiveEqualsReplay(steps: seq<Step>, names: map<string, string>)
    requires Complete(steps) && OfPrompts(names, steps)
    requires InOrder(Sent(steps)) && InOrder(LinesOf(steps, names))
    ensures Fold(EMPTY, History(LinesOf(steps, names))) == Named(Client(steps), names) <==> InPlace(steps)
  {
    if InPlace(steps) {
      LandedReplays(steps, names);
    } else {
      MainLines(steps, names, ToldBy(steps));
      FileShows(LinesOf(steps, names));
      MissedDiffers(steps, names);
    }
  }

  // ------------------------------------------------- where the two part ways

  function Bare(id: string, text: string): Line { AssistantLine(id, [TextContent(text)], "u", false) }

  const BOUNDARY := OtherLine([ContextBoundary(None)], "n", false)

  const NOTE := Note("", None, true, "")

  /** A note that comes while a message streams, before its first line, stays after
      the message on screen, and stands before it in the file. */
  lemma NoteOvertaken(id: string, text: string)
    requires id != "" && text != ""
    ensures var steps := [Start(id), Say(0, text), Printed(BOUNDARY), Printed(Bare(id, text))];
      var message := Assistant(id, [Text(text, true)], false);
      && Sent(steps) == [BOUNDARY, Bare(id, text)] && InOrder(Sent(steps)) && MainOnly(Sent(steps))
      && Client(steps).items == [message, NOTE]
      && Fold(EMPTY, History(Sent(steps))).items == [NOTE, message]
  {
    NotedLive(id, text);
    NotedOrder(id, text);
    FileShows([BOUNDARY, Bare(id, text)]);
    NotedFile(id, text);
  }

  /** The run tells all it streams, and the note is what does not land. */
  lemma NoteMisses(id: string, text: string)
    requires id != "" && text != ""
    ensures var steps := [Start(id), Say(0, text), Printed(BOUNDARY), Printed(Bare(id, text))];
      Complete(steps) && !InPlace(steps)
  {
    NoteCompletes(id, text);
    NoteOutOfPlace(id, text);
  }

  lemma NoteCompletes(id: string, text: string)
    requires id != "" && text != ""
    ensures Complete([Start(id), Say(0, text), Printed(BOUNDARY), Printed(Bare(id, text))])
  {
    var steps := [Start(id), Say(0, text), Printed(BOUNDARY), Printed(Bare(id, text))];
    NoteTold(id, text);
    FitsOne(id, text, ToldBy(steps));
    var noted := [Start(id), Say(0, text)] + [Printed(BOUNDARY)];
    FitsSnoc([Start(id), Say(0, text)], Printed(BOUNDARY), ToldBy(steps));
    FitsSnoc(noted, Printed(Bare(id, text)), ToldBy(steps));
    assert steps == noted + [Printed(Bare(id, text))];
  }

  lemma FitsSnoc(before: seq<Step>, step: Step, plan: Plan)
    ensures Fits(before + [step], plan) <==> Fits(before, plan) && StepFits(before, step, plan)
  {
    assert (before + [step])[..|before|] == before;
  }

  lemma NoteTold(id: string, text: string)
    requires id != "" && text != ""
    ensures ToldBy([Start(id), Say(0, text), Printed(BOUNDARY), Printed(Bare(id, text))])(id) == [TextContent(text)]
  {
    NotedLive(id, text);
    BoundaryTells(id);
    ToldSnoc([BOUNDARY], Bare(id, text), id);
    assert [BOUNDARY] + [Bare(id, text)] == [BOUNDARY, Bare(id, text)];
  }

  lemma NoteOutOfPlace(id: string, text: string)
    ensures !InPlace([Start(id), Say(0, text), Printed(BOUNDARY), Printed(Bare(id, text))])
  {
    var steps := [Start(id), Say(0, text), Printed(BOUNDARY), Printed(Bare(id, text))];
    assert steps[..3][..2] == [Start(id), Say(0, text)] && steps[..3][2] == Printed(BOUNDARY);
    EarlyOne(id, text);
    assert BOUNDARY.entries[0] == ContextBoundary(None) && BOUNDARY.entries[0] in BOUNDARY.entries;
    assert !InPlace(steps[..3]);
  }

  lemma EarlyOne(id: string, text: string)
    ensures EarlyIn([Start(id), Say(0, text)]) == [id]
  {
    Started(id);
    EarlySnoc([Start(id)], Say(0, text));
    assert [Start(id)] + [Say(0, text)] == [Start(id), Say(0, text)];
    assert [Start(id)][..0] == [] && EarlyIn([Start(id)]) == [];
    assert [] + [id] == [id];
  }

  lemma NotedLive(id: string, text: string)
    requires id != "" && text != ""
    ensures var steps := [Start(id), Say(0, text), Printed(BOUNDARY), Printed(Bare(id, text))];
      && Sent(steps) == [BOUNDARY, Bare(id, text)]
      && Client(steps).items == [Assistant(id, [Text(text, true)], false), NOTE]
  {
    var noted := [Start(id), Say(0, text)] + [Printed(BOUNDARY)];
    var steps := noted + [Printed(Bare(id, text))];
    assert steps == [Start(id), Say(0, text), Printed(BOUNDARY), Printed(Bare(id, text))];
    Noted(id, text);
    ClientSnoc(noted, Printed(Bare(id, text)));
    LinesSnoc(noted, Printed(Bare(id, text)), map[]);
    BareEvents(id, text);
    FoldOne(Client(noted), AssistantMessage(id, [TextContent(text)], ""));
    BareSettles(Client(noted), id, text);
  }

  lemma Noted(id: string, text: string)
    ensures var noted := [Start(id), Say(0, text)] + [Printed(BOUNDARY)];
      Client(noted) == State([Assistant(id, [Text(text, false)], true), NOTE], {}) && Sent(noted) == [BOUNDARY]
  {
    Begun(id, text);
    BoundaryPublished([Start(id), Say(0, text)]);
    var t := State([Assistant(id, [Text(text, false)], true)], {});
    assert t.items + [NOTE] == [t.items[0], NOTE];
  }

  lemma BoundaryPublished(before: seq<Step>)
    ensures var t := Client(before); Client(before + [Printed(BOUNDARY)]) == State(t.items + [NOTE], t.seen)
    ensures Sent(before + [Printed(BOUNDARY)]) == Sent(before) + [BOUNDARY]
  {
    ClientSnoc(before, Printed(BOUNDARY));
    LinesSnoc(before, Printed(BOUNDARY), map[]);
    assert StepEvents(before, Printed(BOUNDARY)) == [ContextBoundary(None)];
    FoldOne(Client(before), ContextBoundary(None));
    NotePushed(Client(before));
  }

  lemma NotePushed(t: State)
    ensures Apply(t, ContextBoundary(None)) == State(t.items + [NOTE], t.seen)
  {
  }

  /** A message streamed and then told is a complete run, and not before. */
  lemma StreamedThenTold(id: string, text: string)
    requires id != "" && text != ""
    ensures Complete([Start(id), Say(0, text), Printed(Bare(id, text))]) && !Complete([Start(id), Say(0, text)])
    ensures InOrder(Sent([Start(id), Say(0, text), Printed(Bare(id, text))]))
  {
    var steps := [Start(id), Say(0, text)] + [Printed(Bare(id, text))];
    assert steps == [Start(id), Say(0, text), Printed(Bare(id, text))];
    ToldOne(id, text);
    FitsOne(id, text, ToldBy(steps));
    assert steps[..2] == [Start(id), Say(0, text)];
    NotYetTold(id, text);
  }

  lemma ToldOne(id: string, text: string)
    requires id != ""
    ensures var steps := [Start(id), Say(0, text)] + [Printed(Bare(id, text))];
      Sent(steps) == [Bare(id, text)] && InOrder(Sent(steps)) && ToldBy(steps)(id) == [TextContent(text)]
  {
    var begun := [Start(id), Say(0, text)];
    Begun(id, text);
    LinesSnoc(begun, Printed(Bare(id, text)), map[]);
    BareAlone(id, text);
  }

  lemma BareAlone(id: string, text: string)
    requires id != ""
    ensures InOrder([Bare(id, text)]) && Told([Bare(id, text)], id) == [TextContent(text)]
  {
    assert [] + [Bare(id, text)] == [Bare(id, text)];
    assert ToolIDs([TextContent(text)]) == {} && ToolsOf([]) == {} && IdsOf([]) == {} && History([]) == [];
    var none: seq<Line> := [];
    assert Told(none, id) == [] && none[..TurnStart(none)] == none;
    OrderSnoc([], Bare(id, text));
    ToldSnoc([], Bare(id, text), id);
  }

  lemma NotYetTold(id: string, text: string)
    ensures !Complete([Start(id), Say(0, text)])
  {
    var begun := [Start(id), Say(0, text)];
    Begun(id, text);
    assert ToldBy(begun)(id) == [];
    assert begun[..1] == [Start(id)] && Now([Start(id)]) == Streaming(id, map[]);
    assert !StepFits([Start(id)], Say(0, text), ToldBy(begun));
  }

  lemma OneStep(step: Step)
    ensures Client([step]) == Fold(WithOwn(EMPTY, step), StepEvents([], step))
    ensures Sent([step]) == StepLines(step, map[])
  {
    assert [step][..0] == [];
    assert Client([]) == EMPTY && Sent([]) == [];
    assert [] + StepLines(step, map[]) == StepLines(step, map[]);
  }

  lemma Started(id: string)
    ensures Client([Start(id)]) == EMPTY && Sent([Start(id)]) == []
    ensures Now([Start(id)]) == Streaming(id, map[])
  {
    OneStep(Start(id));
  }

  lemma FitsOne(id: string, text: string, plan: Plan)
    requires text != "" && plan(id) == [TextContent(text)]
    ensures Fits([Start(id), Say(0, text)], plan)
  {
    Started(id);
    assert [Start(id)] + [Say(0, text)] == [Start(id), Say(0, text)];
    assert [Start(id), Say(0, text)][..1] == [Start(id)] && [Start(id)][..0] == [];
    assert Told([], id) == [];
    assert StepFits([Start(id)], Say(0, text), plan);
    assert Fits([], plan) && Fits([Start(id)], plan);
  }

  lemma Begun(id: string, text: string)
    ensures var begun := [Start(id), Say(0, text)];
      Client(begun) == State([Assistant(id, [Text(text, false)], true)], {}) && Sent(begun) == []
  {
    Started(id);
    assert [Start(id)] + [Say(0, text)] == [Start(id), Say(0, text)];
    ClientSnoc([Start(id)], Say(0, text));
    LinesSnoc([Start(id)], Say(0, text), map[]);
    FoldOne(EMPTY, TextDelta(id, 0, text, ""));
    FirstDelta(id, text);
  }

  lemma BoundaryAlone()
    ensures InOrder([BOUNDARY]) && History([BOUNDARY]) == [ContextBoundary(None)]
  {
    assert [] + [BOUNDARY] == [BOUNDARY] && History([]) == [];
    assert [ContextBoundary(None)][..0] == [];
    assert FollowAll([], BOUNDARY.entries);
    OrderSnoc([], BOUNDARY);
    HistoryAdds([], BOUNDARY);
  }

  lemma NotedOrder(id: string, text: string)
    requires id != ""
    ensures InOrder([BOUNDARY, Bare(id, text)]) && MainOnly([BOUNDARY, Bare(id, text)])
  {
    assert [BOUNDARY] + [Bare(id, text)] == [BOUNDARY, Bare(id, text)];
    BoundaryAlone();
    assert ToolIDs([TextContent(text)]) == {} && IdsOf([ContextBoundary(None)]) == {};
    BoundaryTells(id);
    OrderSnoc([BOUNDARY], Bare(id, text));
  }

  lemma BoundaryTells(id: string)
    ensures Told([BOUNDARY][..TurnStart([BOUNDARY])], id) == [] && Told([BOUNDARY], id) == []
  {
    NotYetRead([BOUNDARY][..TurnStart([BOUNDARY])], id);
    NotYetRead([BOUNDARY], id);
  }

  lemma BareEvents(id: string, text: string)
    ensures LineEvents([BOUNDARY], Bare(id, text)) == [AssistantMessage(id, [TextContent(text)], "")]
  {
    assert [BOUNDARY][..0] == [];
    assert AssembledAfter([BOUNDARY]) == map[];
    assert [TextContent(text)][..0] == [];
    assert Ends([TextContent(text)]) == [];
    assert [] + [TextContent(text)] == [TextContent(text)];
  }

  lemma BareSettles(t: State, id: string, text: string)
    requires t == State([Assistant(id, [Text(text, false)], true), NOTE], {}) && text != ""
    ensures Apply(t, AssistantMessage(id, [TextContent(text)], "")).items
         == [Assistant(id, [Text(text, true)], false), NOTE]
  {
    var raws := [TextContent(text)];
    assert SettleOne([Text(text, false)], 0, raws[0]) == [Text(text, true)];
    assert SettleFrom([Text(text, true)], 1, raws) == [Text(text, true)];
    assert Settle([Text(text, false)], raws) == [Text(text, true)];
    assert t.items[..1] == [t.items[0]];
    assert AssistantAt(t.items[..1], id) == 0;
    assert AssistantAt(t.items, id) == 0;
    assert t.items[0 := SettleItem(raws)(t.items[0])] == [Assistant(id, [Text(text, true)], false), NOTE];
  }

  lemma NotedFile(id: string, text: string)
    requires id != "" && text != ""
    ensures Shown(History([BOUNDARY, Bare(id, text)])).items == [NOTE, Assistant(id, [Text(text, true)], false)]
  {
    NoteDrawn();
    assert [BOUNDARY] + [Bare(id, text)] == [BOUNDARY, Bare(id, text)];
    assert id !in ReadAll([BOUNDARY]).assistantAt by {
      ReadSnoc([], BOUNDARY);
      assert [] + [BOUNDARY] == [BOUNDARY];
    }
    BareDrawn([BOUNDARY], id, text);
  }

  lemma BareDrawn(before: seq<Line>, id: string, text: string)
    requires id !in ReadAll(before).assistantAt && text != ""
    ensures Screen(before + [Bare(id, text)]) == Screen(before) + [Assistant(id, [Text(text, true)], false)]
  {
    ScreenOpened(before, Bare(id, text));
    assert DrawBlocks([TextContent(text)], ResultsOf(History(before))) == [Text(text, true)];
  }

  lemma NoteDrawn()
    ensures Screen([BOUNDARY]) == [NOTE]
  {
    HistoryAdds([], BOUNDARY);
    assert [] + [BOUNDARY] == [BOUNDARY] && History([]) == [];
    DrawSnoc([], ContextBoundary(None), ResultsOf(History([BOUNDARY])));
  }
}
