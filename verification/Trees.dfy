/**
 Trees of items side by side, edited and folded.
 */
module Trees {
  import opened Basics
  import opened Transcript

  lemma {:induction false} FindAppend(p: seq<Item>, q: seq<Item>, id: string)
    ensures FindTool(p + q, id) == if FindTool(p, id).Some? then FindTool(p, id) else FindTool(q, id)
  {
    if p == [] {
      assert p + q == q;
    } else {
      assert (p + q)[1..] == p[1..] + q;
      FindAppend(p[1..], q, id);
    }
  }

  lemma {:induction false} EditAppend(p: seq<Item>, q: seq<Item>, id: string, edit: Tool -> Tool)
    requires FindTool(p, id) == None
    ensures EditTool(p + q, id, edit) == p + EditTool(q, id, edit)
  {
    if p == [] {
      assert p + q == q;
    } else {
      assert (p + q)[1..] == p[1..] + q;
      EditAppend(p[1..], q, id, edit);
    }
  }

  lemma {:induction false} EditFirst(p: seq<Item>, q: seq<Item>, id: string, edit: Tool -> Tool)
    requires FindTool(p, id).Some?
    ensures EditTool(p + q, id, edit) == EditTool(p, id, edit) + q
  {
    assert (p + q)[1..] == p[1..] + q;
    if !(p[0].Assistant? && FindInParts(p[0].parts, id).Some?) {
      EditFirst(p[1..], q, id, edit);
    }
  }

  lemma {:induction false} EditNothing(items: seq<Item>, id: string, edit: Tool -> Tool)
    requires FindTool(items, id) == None
    ensures EditTool(items, id, edit) == items
  {
    if items != [] {
      EditNothing(items[1..], id, edit);
    }
  }

  lemma {:induction false} FoundIsEdited(items: seq<Item>, id: string, edit: Tool -> Tool)
    requires FindTool(items, id).Some? && edit(FindTool(items, id).value).id == id
    ensures FindTool(EditTool(items, id, edit), id) == Some(edit(FindTool(items, id).value))
    decreases items
  {
    var r := EditTool(items, id, edit);
    if items[0].Assistant? && FindInParts(items[0].parts, id).Some? {
      FoundIsEditedIn(items[0].parts, id, edit);
    } else {
      assert r[1..] == EditTool(items[1..], id, edit);
      FoundIsEdited(items[1..], id, edit);
    }
  }

  lemma {:induction false} FoundIsEditedIn(parts: seq<UiBlock>, id: string, edit: Tool -> Tool)
    requires FindInParts(parts, id).Some? && edit(FindInParts(parts, id).value).id == id
    ensures FindInParts(EditInParts(parts, id, edit), id) == Some(edit(FindInParts(parts, id).value))
    decreases parts
  {
    var r := EditInParts(parts, id, edit);
    if parts[0].ToolCall? && parts[0].tool.id == id {
    } else if parts[0].ToolCall? && FindTool(parts[0].tool.children, id).Some? {
      assert (parts[0] decreases to parts[0].tool);
      FoundIsEdited(parts[0].tool.children, id, edit);
    } else {
      assert r[1..] == EditInParts(parts[1..], id, edit);
      FoundIsEditedIn(parts[1..], id, edit);
    }
  }

  /** No tool has children, as where there are no subagents. */
  ghost predicate FlatParts(parts: seq<UiBlock>) {
    forall i | 0 <= i < |parts| && parts[i].ToolCall? :: parts[i].tool.children == []
  }

  ghost predicate Flat(items: seq<Item>) {
    forall i | 0 <= i < |items| && items[i].Assistant? :: FlatParts(items[i].parts)
  }

  lemma FlatPush(items: seq<Item>, item: Item)
    requires Flat(items) && (item.Assistant? ==> FlatParts(item.parts))
    ensures Flat(items + [item])
  {
  }

  lemma {:induction false} StopFlat(items: seq<Item>)
    requires Flat(items)
    requires forall i | 0 <= i < |items| && items[i].Assistant? :: !items[i].streaming
    ensures Stop(items) == items
  {
    if items != [] {
      StopFlat(items[1..]);
      if items[0].Assistant? {
        StopFlatParts(items[0].parts);
      }
    }
  }

  lemma {:induction false} StopFlatParts(parts: seq<UiBlock>)
    requires FlatParts(parts)
    ensures StopParts(parts) == parts
  {
    if parts != [] {
      StopFlatParts(parts[1..]);
      assert Stop([]) == [];
    }
  }

  lemma FoldOne(t: State, e: Event)
    ensures Fold(t, [e]) == Apply(t, e)
  {
    assert [e][..0] == [];
    assert Fold(t, []) == t;
  }

  lemma {:induction false} FoldAppend(t: State, a: seq<Event>, b: seq<Event>)
    ensures Fold(t, a + b) == Fold(Fold(t, a), b)
    decreases |b|
  {
    if b == [] {
      assert a + b == a;
    } else {
      assert (a + b)[..|a + b| - 1] == a + b[..|b| - 1];
      FoldAppend(t, a, b[..|b| - 1]);
    }
  }

  /** The first delta of a message opens it. */
  lemma FirstDelta(id: string, text: string)
    ensures Apply(EMPTY, TextDelta(id, 0, text, "")) == State([Assistant(id, [Text(text, false)], true)], {})
  {
    var e := TextDelta(id, 0, text, "");
    assert TextAt([], 0, text) == [Text("" + text, false)] && "" + text == text;
    var items := WithAssistant([], id, true, StreamItem(e));
    assert items == [StreamItem(e)(Assistant(id, [], true))];
  }

  // ------------------------------------------------------- the turn is over

  /** No message streams, at any depth. */
  predicate Still(items: seq<Item>)
    decreases items
  {
    items == [] || ((items[0].Assistant? ==> !items[0].streaming && StillParts(items[0].parts)) && Still(items[1..]))
  }

  predicate StillParts(parts: seq<UiBlock>)
    decreases parts
  {
    parts == [] ||
      ((parts[0].ToolCall? ==> (assert (parts[0] decreases to parts[0].tool); Still(parts[0].tool.children)))
       && StillParts(parts[1..]))
  }

  /** The end of a turn stops every message of the tree, and changes nothing when
      none streams. */
  lemma {:induction false} StopIsStill(items: seq<Item>)
    ensures Still(Stop(items))
    ensures Stop(items) == items <==> Still(items)
    decreases items
  {
    if items != [] {
      var r := Stop(items);
      assert r[1..] == Stop(items[1..]);
      StopIsStill(items[1..]);
      if items[0].Assistant? {
        StopIsStillIn(items[0].parts);
      }
      assert r == items <==> r[0] == items[0] && r[1..] == items[1..];
    }
  }

  lemma {:induction false} StopIsStillIn(parts: seq<UiBlock>)
    ensures StillParts(StopParts(parts))
    ensures StopParts(parts) == parts <==> StillParts(parts)
    decreases parts
  {
    if parts != [] {
      var r := StopParts(parts);
      assert r[1..] == StopParts(parts[1..]);
      StopIsStillIn(parts[1..]);
      if parts[0].ToolCall? {
        assert (parts[0] decreases to parts[0].tool);
        StopIsStill(parts[0].tool.children);
      }
      assert r == parts <==> r[0] == parts[0] && r[1..] == parts[1..];
    }
  }
}
