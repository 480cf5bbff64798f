/**
 A screen with the owner's prompts under other ids than those they were shown under.
 */
module PromptNames {

  import opened Transcript

  function NameOf(id: string, names: map<string, string>): string { if id in names then names[id] else id }

  function NamedItem(item: Item, names: map<string, string>): Item {
    if item.User? then User(NameOf(item.id, names), item.blocks, item.clientMessageID) else item
  }

  function NamedItems(items: seq<Item>, names: map<string, string>): seq<Item> {
    seq(|items|, i requires 0 <= i < |items| => NamedItem(items[i], names))
  }

  /** The screen, with the owner's prompts under other ids. */
  function Named(t: State, names: map<string, string>): State {
    State(NamedItems(t.items, names), set id | id in t.seen :: NameOf(id, names))
  }

  lemma ItemsJoin(a: seq<Item>, b: seq<Item>, names: map<string, string>)
    ensures NamedItems(a + b, names) == NamedItems(a, names) + NamedItems(b, names)
  {
  }
}
