/**
 The tools of a transcript, those of its subagents included, as one list in document
 order: looking one up finds the first of its id in the list, and an event addressed to
 it changes that one alone.
 */
module ToolTree {

  import opened Basics
  import opened Transcript

  // ---------------------------------------------------------------- the list

  /** A tool without what is below it. */
  function Bare(tool: Tool): Tool { tool.(children := []) }

  /** Every tool, each before those below it. */
  function ToolList(items: seq<Item>): seq<Tool>
    decreases items
  {
    if items == [] then []
    else (if items[0].Assistant? then PartTools(items[0].parts) else []) + ToolList(items[1..])
  }

  function PartTools(parts: seq<UiBlock>): seq<Tool>
    decreases parts
  {
    if parts == [] then []
    else
      (if !parts[0].ToolCall? then []
       else
         assert (parts[0] decreases to parts[0].tool);
         [Bare(parts[0].tool)] + ToolList(parts[0].tool.children))
      + PartTools(parts[1..])
  }

  /** The place of the first of an id, or the length. */
  function First(tools: seq<Tool>, id: string): (k: nat)
    ensures k <= |tools| && (k < |tools| ==> tools[k].id == id)
    ensures forall i | 0 <= i < k :: tools[i].id != id
  {
    if tools == [] || tools[0].id == id then 0 else 1 + First(tools[1..], id)
  }

  lemma FirstJoin(a: seq<Tool>, b: seq<Tool>, id: string)
    ensures First(a + b, id) == if First(a, id) < |a| then First(a, id) else |a| + First(b, id)
  {
    var k := First(a + b, id);
    if First(a, id) < |a| {
      assert (a + b)[First(a, id)].id == id;
      assert k < |a| ==> a[k].id == id;
    } else {
      assert forall i | 0 <= i < |a| :: (a + b)[i].id != id;
      if First(b, id) < |b| {
        assert (a + b)[|a| + First(b, id)].id == id;
      }
      assert k < |a + b| ==> b[k - |a|].id == id;
    }
  }

  // ---------------------------------------------------------------- looking up

  /** What is found is the first of the list, if there is one. */
  ghost predicate FoundIn(found: Option<Tool>, tools: seq<Tool>, id: string) {
    var k := First(tools, id);
    (found.Some? <==> k < |tools|) && (found.Some? ==> Bare(found.value) == tools[k])
  }

  lemma FoundJoin(x: Option<Tool>, a: seq<Tool>, y: Option<Tool>, b: seq<Tool>, id: string)
    requires FoundIn(x, a, id) && FoundIn(y, b, id)
    ensures FoundIn(if x.Some? then x else y, a + b, id)
  {
    FirstJoin(a, b, id);
  }

  lemma {:induction false} FindIsFirst(items: seq<Item>, id: string)
    ensures FoundIn(FindTool(items, id), ToolList(items), id)
    decreases items
  {
    if items != [] {
      FindIsFirst(items[1..], id);
      if items[0].Assistant? {
        FindInIsFirst(items[0].parts, id);
        FoundJoin(FindInParts(items[0].parts, id), PartTools(items[0].parts),
                  FindTool(items[1..], id), ToolList(items[1..]), id);
      } else {
        assert [] + ToolList(items[1..]) == ToolList(items[1..]);
      }
    }
  }

  lemma {:induction false} FindInIsFirst(parts: seq<UiBlock>, id: string)
    ensures FoundIn(FindInParts(parts, id), PartTools(parts), id)
    decreases parts
  {
    if parts != [] {
      FindInIsFirst(parts[1..], id);
      if parts[0].ToolCall? {
        assert (parts[0] decreases to parts[0].tool);
        var tool := parts[0].tool;
        FindIsFirst(tool.children, id);
        HeadFound(tool, id);
        FoundJoin(if tool.id == id then Some(tool) else FindTool(tool.children, id),
                  [Bare(tool)] + ToolList(tool.children), FindInParts(parts[1..], id), PartTools(parts[1..]), id);
      } else {
        assert [] + PartTools(parts[1..]) == PartTools(parts[1..]);
      }
    }
  }

  lemma HeadFound(tool: Tool, id: string)
    requires FoundIn(FindTool(tool.children, id), ToolList(tool.children), id)
    ensures FoundIn(if tool.id == id then Some(tool) else FindTool(tool.children, id),
                    [Bare(tool)] + ToolList(tool.children), id)
  {
    FoundJoin(if tool.id == id then Some(tool) else None, [Bare(tool)],
              FindTool(tool.children, id), ToolList(tool.children), id);
  }

  // ------------------------------------------------------------------ editing

  /** An edit of the tool itself. */
  ghost predicate Plain(edit: Tool -> Tool) {
    forall tool: Tool ::
      edit(tool).id == tool.id && edit(tool).children == tool.children && Bare(edit(tool)) == edit(Bare(tool))
  }

  function EditedAt(tools: seq<Tool>, id: string, edit: Tool -> Tool): seq<Tool> {
    var k := First(tools, id);
    if k < |tools| then tools[k := edit(tools[k])] else tools
  }

  lemma EditedJoin(a: seq<Tool>, b: seq<Tool>, id: string, edit: Tool -> Tool)
    ensures EditedAt(a + b, id, edit)
            == if First(a, id) < |a| then EditedAt(a, id, edit) + b else a + EditedAt(b, id, edit)
  {
    FirstJoin(a, b, id);
  }

  lemma {:induction false} EditIsThere(items: seq<Item>, id: string, edit: Tool -> Tool)
    requires Plain(edit)
    ensures ToolList(EditTool(items, id, edit)) == EditedAt(ToolList(items), id, edit)
    decreases items
  {
    if items != [] {
      var r, rest := EditTool(items, id, edit), ToolList(items[1..]);
      if items[0].Assistant? {
        var own := PartTools(items[0].parts);
        FindInIsFirst(items[0].parts, id);
        EditedJoin(own, rest, id, edit);
        if FindInParts(items[0].parts, id).Some? {
          EditInIsThere(items[0].parts, id, edit);
          assert r[1..] == items[1..];
        } else {
          EditIsThere(items[1..], id, edit);
          assert r[1..] == EditTool(items[1..], id, edit);
        }
      } else {
        EditIsThere(items[1..], id, edit);
        assert r[1..] == EditTool(items[1..], id, edit);
        assert [] + rest == rest && [] + EditedAt(rest, id, edit) == EditedAt(rest, id, edit);
      }
    }
  }

  lemma {:induction false} EditInIsThere(parts: seq<UiBlock>, id: string, edit: Tool -> Tool)
    requires Plain(edit)
    ensures PartTools(EditInParts(parts, id, edit)) == EditedAt(PartTools(parts), id, edit)
    decreases parts
  {
    if parts != [] {
      var r, rest := EditInParts(parts, id, edit), PartTools(parts[1..]);
      if parts[0].ToolCall? {
        assert (parts[0] decreases to parts[0].tool);
        var tool := parts[0].tool;
        var own := [Bare(tool)] + ToolList(tool.children);
        HeadEdited(tool, id, edit);
        EditedJoin(own, rest, id, edit);
        if tool.id == id || FindTool(tool.children, id).Some? {
          assert r[1..] == parts[1..];
        } else {
          EditInIsThere(parts[1..], id, edit);
          assert r[1..] == EditInParts(parts[1..], id, edit);
        }
      } else {
        EditInIsThere(parts[1..], id, edit);
        assert r[1..] == EditInParts(parts[1..], id, edit);
        assert [] + rest == rest && [] + EditedAt(rest, id, edit) == EditedAt(rest, id, edit);
      }
    }
  }

  /** A tool and what is below it, edited. */
  lemma {:induction false} HeadEdited(tool: Tool, id: string, edit: Tool -> Tool)
    requires Plain(edit)
    ensures var own := [Bare(tool)] + ToolList(tool.children);
      && (First(own, id) < |own| <==> tool.id == id || FindTool(tool.children, id).Some?)
      && (tool.id == id ==> [Bare(edit(tool))] + ToolList(edit(tool).children) == EditedAt(own, id, edit))
      && (tool.id != id && FindTool(tool.children, id).Some? ==>
            [Bare(tool)] + ToolList(EditTool(tool.children, id, edit)) == EditedAt(own, id, edit))
    decreases tool
  {
    FindIsFirst(tool.children, id);
    EditIsThere(tool.children, id, edit);
    EditedJoin([Bare(tool)], ToolList(tool.children), id, edit);
    FirstJoin([Bare(tool)], ToolList(tool.children), id);
  }

  // ------------------------------------------------------- what an update does

  predicate Updates(e: Event) { e.ToolInputDelta? || e.ToolUseEnd? || e.ToolOutputDelta? || e.ToolResult? }

  /** What an update makes of its tool: a piece of input or of output goes behind what
      there is, the end of the call gives the input as a whole, and a result is set;
      everything else about the tool stays. */
  ghost predicate Updated(was: Tool, now: Tool, e: Event) {
    match e
    case ToolInputDelta(_, more) =>
      now.partialJson == Some((if was.partialJson.Some? then was.partialJson.value else "") + more)
      && now == was.(partialJson := now.partialJson)
    case ToolUseEnd(_, input) => now == was.(input := input, partialJson := None)
    case ToolOutputDelta(_, text) =>
      now.output == Some((if was.output.Some? then was.output.value else "") + text)
      && now == was.(output := now.output)
    case ToolResult(_, result) => now == was.(result := Some(result))
    case _ => false
  }

  lemma EditsArePlain(e: Event)
    requires Updates(e)
    ensures Plain(EditByEvent(e))
  {
  }

  /** An update changes the first tool of its id, at whatever depth, and no other. */
  lemma UpdateTouchesOne(t: State, e: Event)
    requires Updates(e)
    ensures var was, now, k := ToolList(t.items), ToolList(Apply(t, e).items), First(ToolList(t.items), e.toolUseID);
      && |now| == |was| && (forall i | 0 <= i < |was| && i != k :: now[i] == was[i])
      && (k < |was| ==> Updated(was[k], now[k], e))
    ensures |Apply(t, e).items| == |t.items| && Apply(t, e).seen == t.seen
  {
    EditsArePlain(e);
    EditIsThere(t.items, e.toolUseID, EditByEvent(e));
  }

  // ------------------------------------------------------------------- prose

  /** The texts and thoughts of a transcript, in document order, at any depth. */
  function Prose(items: seq<Item>): seq<UiBlock>
    decreases items
  {
    if items == [] then [] else (if items[0].Assistant? then PartProse(items[0].parts) else []) + Prose(items[1..])
  }

  function PartProse(parts: seq<UiBlock>): seq<UiBlock>
    decreases parts
  {
    if parts == [] then []
    else
      (if !parts[0].ToolCall? then [parts[0]]
       else assert (parts[0] decreases to parts[0].tool); Prose(parts[0].tool.children))
      + PartProse(parts[1..])
  }

  lemma {:induction false} EditKeepsProse(items: seq<Item>, id: string, edit: Tool -> Tool)
    requires Plain(edit)
    ensures Prose(EditTool(items, id, edit)) == Prose(items)
    decreases items
  {
    if items != [] {
      var r := EditTool(items, id, edit);
      if items[0].Assistant? && FindInParts(items[0].parts, id).Some? {
        EditInKeepsProse(items[0].parts, id, edit);
        assert r[1..] == items[1..];
      } else {
        EditKeepsProse(items[1..], id, edit);
        assert r[1..] == EditTool(items[1..], id, edit);
      }
    }
  }

  lemma {:induction false} EditInKeepsProse(parts: seq<UiBlock>, id: string, edit: Tool -> Tool)
    requires Plain(edit)
    ensures PartProse(EditInParts(parts, id, edit)) == PartProse(parts)
    decreases parts
  {
    if parts != [] {
      var r := EditInParts(parts, id, edit);
      if parts[0].ToolCall? && parts[0].tool.id == id {
        assert r[1..] == parts[1..];
      } else if parts[0].ToolCall? && FindTool(parts[0].tool.children, id).Some? {
        assert (parts[0] decreases to parts[0].tool);
        EditKeepsProse(parts[0].tool.children, id, edit);
        assert r[1..] == parts[1..];
      } else {
        EditInKeepsProse(parts[1..], id, edit);
        assert r[1..] == EditInParts(parts[1..], id, edit);
      }
    }
  }

  /** And it changes no word of any message. */
  lemma UpdateKeepsProse(t: State, e: Event)
    requires Updates(e)
    ensures Prose(Apply(t, e).items) == Prose(t.items)
  {
    EditsArePlain(e);
    EditKeepsProse(t.items, e.toolUseID, EditByEvent(e));
  }
}
