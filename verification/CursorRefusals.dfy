/**
 Which cursors a client may send, and what each asks for.
 */
module CursorRefusals {

  import opened Basics
  import opened Cursor
  import opened Directory

  predicate Letter(c: char) { 'A' <= c <= 'Z' || 'a' <= c <= 'z' || '0' <= c <= '9' || c == '-' || c == '_' }

  predicate LineEnd(c: char) { c == '\n' || c == '\r' }

  /** How many characters count. */
  function Length(text: string): nat {
    if text == "" then 0 else (if LineEnd(text[0]) then 0 else 1) + Length(text[1..])
  }

  lemma LetterReads(c: char)
    ensures CharSextet(c).Some? <==> Letter(c)
  {
  }

  lemma {:induction false} ReadsLetters(text: string)
    ensures Read(text).Some? <==> forall c <- text :: Letter(c) || LineEnd(c)
    ensures Read(text).Some? ==> |Read(text).value| == Length(text)
  {
    if text != "" {
      ReadsLetters(text[1..]);
      LetterReads(text[0]);
      assert text == [text[0]] + text[1..];
    }
  }

  lemma {:induction false} PaddingOff(cursor: string)
    ensures var text := TrimRight(cursor);
      && text <= cursor && (text == "" || text[|text| - 1] != '=')
      && forall i | |text| <= i < |cursor| :: cursor[i] == '='
  {
    if cursor != "" && cursor[|cursor| - 1] == '=' {
      PaddingOff(cursor[..|cursor| - 1]);
    }
  }

  lemma {:induction false} CutsAtFirst(raw: seq<byte>)
    ensures Cut(raw).None? <==> 124 !in raw
    ensures Cut(raw).Some? ==> 124 !in Cut(raw).value.0 && raw == Cut(raw).value.0 + [124] + Cut(raw).value.1
  {
    if raw != [] {
      CutsAtFirst(raw[1..]);
      assert raw == [raw[0]] + raw[1..];
      if raw[0] == 124 {
        assert [] + [raw[0]] + raw[1..] == raw;
      } else if Cut(raw[1..]).Some? {
        var (stamp, id) := Cut(raw[1..]).value;
        assert raw == ([raw[0]] + stamp) + [124] + id;
      }
    }
  }

  /** Whether a text, its padding off, is base64url with a bar in what it says. */
  ghost predicate Readable(text: string) {
    && (forall c <- text :: Letter(c) || LineEnd(c)) && Length(text) % 4 != 1
    && Decode64(text).Some? && 124 in Decode64(text).value
  }

  /** The empty cursor alone asks for the first page. Any other is refused exactly if,
      its padding off, it is not readable; and if it is, what it says before the first bar
      is the stamp and what it says after it the id, whatever that is. */
  lemma WhatIsAsked(cursor: string) returns (text: string)
    ensures text <= cursor && (text == "" || text[|text| - 1] != '=')
    ensures forall i | |text| <= i < |cursor| :: cursor[i] == '='
    ensures Asked(cursor) == From(None) <==> cursor == ""
    ensures cursor != "" ==> (Asked(cursor) == Refused <==> !Readable(text))
    ensures Asked(cursor).From? && cursor != "" ==>
              exists stamp ::
                && 124 !in stamp && Decode64(text) == Some(stamp + [124] + Asked(cursor).cursor.value.id)
                && ParseStamp(stamp) == Some(Asked(cursor).cursor.value.at)
  {
    text := TrimRight(cursor);
    PaddingOff(cursor);
    ReadsLetters(text);
    if Decode64(text).Some? {
      CutsAtFirst(Decode64(text).value);
    }
  }
}
