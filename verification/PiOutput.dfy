/**
 Cumulative snapshots of a tool's output, sent as deltas and put together again
 on screen.
 */
module PiOutput {
  import opened Basics
  import opened Transcript
  import opened PiStream
  import opened Trees

  // ------------------------------------------------------ snapshots to deltas

  function Last(snapshots: seq<string>): string {
    if snapshots == [] then "" else snapshots[|snapshots| - 1]
  }

  /** What the deltas add up to. */
  function Accumulated(snapshots: seq<string>): string {
    if snapshots == [] then ""
    else
      var before := snapshots[..|snapshots| - 1];
      Accumulated(before) + Delta(Last(before), Last(snapshots))
  }

  ghost predicate EndsWith(text: string, tail: string) {
    |tail| <= |text| && text[|text| - |tail|..] == tail
  }

  /** Every snapshot starts with the one before it. */
  ghost predicate Extending(snapshots: seq<string>) {
    forall i | 0 < i < |snapshots| :: snapshots[i - 1] <= snapshots[i]
  }

  /** The text put together always ends with the latest snapshot, and it is that
      snapshot exactly as long as each one has extended the one before. */
  lemma {:induction false} AccumulatedEndsWithLast(snapshots: seq<string>)
    ensures EndsWith(Accumulated(snapshots), Last(snapshots))
    ensures Accumulated(snapshots) == Last(snapshots) <==> Extending(snapshots)
  {
    if snapshots != [] {
      var before := snapshots[..|snapshots| - 1];
      AccumulatedEndsWithLast(before);
      AppendDelta(Accumulated(before), Last(before), Last(snapshots));
      ExtendingSnoc(snapshots);
    }
  }

  lemma AppendDelta(text: string, previous: string, last: string)
    requires EndsWith(text, previous)
    ensures EndsWith(text + Delta(previous, last), last)
    ensures text + Delta(previous, last) == last <==> text == previous && previous <= last
  {
    if previous <= last {
      var head := text[..|text| - |previous|];
      assert text == head + previous;
      assert previous + last[|previous|..] == last;
      assert head + previous + last[|previous|..] == head + last;
    } else {
      assert text != [];
    }
  }

  lemma ExtendingSnoc(snapshots: seq<string>)
    requires snapshots != []
    ensures Extending(snapshots) <==>
              Extending(snapshots[..|snapshots| - 1]) && Last(snapshots[..|snapshots| - 1]) <= Last(snapshots)
  {
    var before := snapshots[..|snapshots| - 1];
    if Extending(before) && Last(before) <= Last(snapshots) {
      forall i | 0 < i < |snapshots| ensures snapshots[i - 1] <= snapshots[i] {
        if i < |before| {
          assert before[i - 1] <= before[i];
        }
      }
    }
  }

  // --------------------------------------- through the session and the screen

  /** The session and the transcript after a tool's snapshots. */
  function Watch(s: Assembly, t: State, id: string, snapshots: seq<string>): (Assembly, State) {
    if snapshots == [] then (s, t)
    else
      var (before, shown) := Watch(s, t, id, snapshots[..|snapshots| - 1]);
      var (after, events) := OnToolUpdate(before, id, Last(snapshots));
      (after, Fold(shown, events))
  }

  /** A tool on screen with no output yet shows what its deltas add up to. */
  lemma {:induction false} ScreenShowsAccumulated(s: Assembly, t: State, id: string, snapshots: seq<string>)
    requires id != "" && Previous(s, id) == ""
    requires FindTool(t.items, id).Some? && FindTool(t.items, id).value.output == None
    ensures var (after, shown) := Watch(s, t, id, snapshots);
      && Previous(after, id) == Last(snapshots)
      && FindTool(shown.items, id).Some?
      && OrEmpty(FindTool(shown.items, id).value.output) == Accumulated(snapshots)
  {
    if snapshots != [] {
      var before := snapshots[..|snapshots| - 1];
      ScreenShowsAccumulated(s, t, id, before);
      var (mid, shown) := Watch(s, t, id, before);
      var (_, events) := OnToolUpdate(mid, id, Last(snapshots));
      if events == [] {
        assert Fold(shown, events) == shown;
        assert Accumulated(before) + "" == Accumulated(before);
      } else {
        var e := events[0];
        assert events == [e] && events[..0] == [];
        assert Fold(shown, []) == shown;
        FindsOwnId(shown.items, id);
        FoundIsEdited(shown.items, id, EditByEvent(e));
      }
    }
  }

  lemma {:induction false} FindsOwnId(items: seq<Item>, id: string)
    requires FindTool(items, id).Some?
    ensures FindTool(items, id).value.id == id
    decreases items
  {
    if items[0].Assistant? && FindInParts(items[0].parts, id).Some? {
      FindsOwnIdIn(items[0].parts, id);
    } else {
      FindsOwnId(items[1..], id);
    }
  }

  lemma {:induction false} FindsOwnIdIn(parts: seq<UiBlock>, id: string)
    requires FindInParts(parts, id).Some?
    ensures FindInParts(parts, id).value.id == id
    decreases parts
  {
    if parts[0].ToolCall? && parts[0].tool.id == id {
    } else if parts[0].ToolCall? && FindTool(parts[0].tool.children, id).Some? {
      assert (parts[0] decreases to parts[0].tool);
      FindsOwnId(parts[0].tool.children, id);
    } else {
      FindsOwnIdIn(parts[1..], id);
    }
  }

  /** So the output on screen ends with the latest snapshot, and is that
      snapshot exactly as long as none was truncated from the front. */
  lemma OutputFollowsSnapshots(s: Assembly, t: State, id: string, snapshots: seq<string>)
    requires id != "" && Previous(s, id) == ""
    requires FindTool(t.items, id).Some? && FindTool(t.items, id).value.output == None
    ensures FindTool(Watch(s, t, id, snapshots).1.items, id).Some?
    ensures var output := OrEmpty(FindTool(Watch(s, t, id, snapshots).1.items, id).value.output);
      EndsWith(output, Last(snapshots)) && (output == Last(snapshots) <==> Extending(snapshots))
  {
    ScreenShowsAccumulated(s, t, id, snapshots);
    AccumulatedEndsWithLast(snapshots);
  }

  /** A snapshot cut off at the front is put together after what it was cut from. */
  lemma CutSnapshot(s: Assembly, t: State, id: string)
    requires id != "" && Previous(s, id) == ""
    requires FindTool(t.items, id).Some? && FindTool(t.items, id).value.output == None
    ensures var shown := Watch(s, t, id, ["ab", "b"]).1;
      FindTool(shown.items, id).Some? && OrEmpty(FindTool(shown.items, id).value.output) == "abb"
  {
    var both := ["ab", "b"];
    ScreenShowsAccumulated(s, t, id, both);
    assert both[..1] == ["ab"] && ["ab"][..0] == [];
    assert "" + "ab" == "ab" && "ab" + "b" == "abb";
    assert !("ab" <= "b");
    assert Accumulated(["ab"]) == "ab";
    assert Accumulated(both) == "ab" + Delta("ab", "b");
  }
}
