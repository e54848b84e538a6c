/** The learning-track page (`handleTrilhasPage`): an in-memory list of track names,
    extended through a prompt and rendered as cards. */
module Tracks {
  import opened Wrappers

  /** The characters `String.prototype.trim` removes: ECMAScript's WhiteSpace (tab,
      vertical tab, form feed, space, no-break space, zero-width no-break space and the
      other space separators) and LineTerminator (line feed, carriage return, line and
      paragraph separators). */
  predicate IsWhitespace(c: char) {
    || c == '\t' || c == '\n' || c == '\U{000B}' || c == '\U{000C}' || c == '\r' || c == ' '
    || c == '\U{00A0}' || c == '\U{1680}' || ('\U{2000}' <= c <= '\U{200A}')
    || c == '\U{2028}' || c == '\U{2029}' || c == '\U{202F}' || c == '\U{205F}'
    || c == '\U{3000}' || c == '\U{FEFF}'
  }

  /** A string made only of whitespace (the empty string included). */
  predicate Blank(s: string) {
    forall k :: 0 <= k < |s| ==> IsWhitespace(s[k])
  }

  /** Drops leading whitespace: the result is a suffix of the input, everything dropped
      is whitespace, and the result does not start with whitespace. */
  function TrimStart(s: string): (r: string)
    ensures |r| <= |s| && r == s[|s| - |r|..]
    ensures forall k :: 0 <= k < |s| - |r| ==> IsWhitespace(s[k])
    ensures r != [] ==> !IsWhitespace(r[0])
  {
    if s != [] && IsWhitespace(s[0]) then TrimStart(s[1..]) else s
  }

  /** Drops trailing whitespace: the result is a prefix of the input, everything dropped
      is whitespace, and the result does not end with whitespace. */
  function TrimEnd(s: string): (r: string)
    ensures |r| <= |s| && r == s[..|r|]
    ensures forall k :: |r| <= k < |s| ==> IsWhitespace(s[k])
    ensures r != [] ==> !IsWhitespace(r[|r| - 1])
  {
    if s != [] && IsWhitespace(s[|s| - 1]) then TrimEnd(s[..|s| - 1]) else s
  }

  /** `s.trim()`: the slice of `s` left after removing whitespace at both ends. */
  function Trim(s: string): (r: string)
    ensures var i := |s| - |TrimStart(s)|;
      && i + |r| <= |s|
      && r == s[i..i + |r|]
      && (forall k :: 0 <= k < i ==> IsWhitespace(s[k]))
      && (forall k :: i + |r| <= k < |s| ==> IsWhitespace(s[k]))
    ensures r != [] ==> !IsWhitespace(r[0]) && !IsWhitespace(r[|r| - 1])
  {
    TrimEnd(TrimStart(s))
  }

  /** `s.trim() !== ""` exactly when `s` has a character that is not whitespace. */
  lemma TrimEmptyIffBlank(s: string)
    ensures Trim(s) == [] <==> Blank(s)
  {
  }

  /** A string with no whitespace at either end is its own trim. */
  lemma TrimOfTrimmed(s: string)
    requires s != [] ==> !IsWhitespace(s[0]) && !IsWhitespace(s[|s| - 1])
    ensures Trim(s) == s
  {
  }

  /** Trimming twice is trimming once. */
  lemma TrimIdempotent(s: string)
    ensures Trim(Trim(s)) == Trim(s)
  {
  }

  /** A name the list can hold: non-empty and already trimmed. */
  predicate IsTrackName(name: string) {
    name != [] && Trim(name) == name
  }

  /** The name the add-track handler appends for a prompt result, if any: nothing for a
      cancelled prompt (`null`), an empty answer or an all-whitespace answer; otherwise
      the trimmed answer. */
  function AcceptedName(answer: Option<string>): (name: Option<string>)
    ensures name.Some? <==> answer.Some? && !Blank(answer.value)
    ensures name.Some? ==> name.value == Trim(answer.value) && IsTrackName(name.value)
  {
    match answer
    case None => None
    case Some(s) =>
      TrimEmptyIffBlank(s);
      if s != "" && Trim(s) != "" then
        TrimIdempotent(s);
        Some(Trim(s))
      else
        None
  }

  /** The message shown while no track exists. */
  const EmptyMessage: string := "Nenhuma trilha criada ainda."

  /** The caption of each card's button. */
  const OpenCaption: string := "Abrir"

  /** One rendered track card: its heading and its button caption. */
  datatype TrackCard = TrackCard(heading: string, button: string)

  /** What the list element shows: the placeholder, or the cards. */
  datatype ListView = Placeholder(message: string) | Cards(cards: seq<TrackCard>)

  /** `trilhas.map(t => card)`: one card per name, in list order. */
  function RenderCards(names: seq<string>): (cards: seq<TrackCard>)
    ensures |cards| == |names|
    ensures forall k :: 0 <= k < |names| ==> cards[k] == TrackCard(names[k], OpenCaption)
  {
    if names == [] then [] else [TrackCard(names[0], OpenCaption)] + RenderCards(names[1..])
  }

  /** `renderTrilhas`: the placeholder for an empty list, the cards otherwise. */
  function RenderList(names: seq<string>): (view: ListView)
    ensures view.Placeholder? <==> names == []
    ensures view.Placeholder? ==> view.message == EmptyMessage
    ensures view.Cards? ==>
      && |view.cards| == |names|
      && forall k :: 0 <= k < |names| ==> view.cards[k] == TrackCard(names[k], OpenCaption)
  {
    if |names| == 0 then Placeholder(EmptyMessage) else Cards(RenderCards(names))
  }

  /** Appending a name re-renders as the old cards followed by one new card. */
  lemma RenderAppend(names: seq<string>, name: string)
    ensures RenderList(names + [name]) ==
      Cards(RenderCards(names) + [TrackCard(name, OpenCaption)])
  {
  }

  /** Every name in the list is a valid track name. */
  predicate AllTrackNames(names: seq<string>) {
    forall k :: 0 <= k < |names| ==> IsTrackName(names[k])
  }

  /** Appending a valid name keeps every name valid. */
  lemma AppendTrackName(names: seq<string>, name: string)
    requires AllTrackNames(names) && IsTrackName(name)
    ensures AllTrackNames(names + [name])
  {
  }

  /** The track list controller: the names and the rendered list. */
  class TrackList {
    var trilhas: seq<string>
    var view: ListView

    /** The view always shows the current names, and every name is non-empty and trimmed. */
    ghost predicate Valid()
      reads this
    {
      && view == RenderList(trilhas)
      && AllTrackNames(trilhas)
    }

    /** Page load: no tracks, so the placeholder. */
    constructor ()
      ensures Valid()
      ensures trilhas == [] && view == Placeholder(EmptyMessage)
    {
      trilhas := [];
      view := RenderList([]);
    }

    /** The new-track button, given the prompt's result: an accepted name is appended at
        the end and the list re-rendered; otherwise nothing changes. */
    method AddTrack(answer: Option<string>)
      requires Valid()
      modifies this
      ensures Valid()
      ensures AcceptedName(answer).Some? ==> trilhas == old(trilhas) + [AcceptedName(answer).value]
      ensures AcceptedName(answer).None? ==> trilhas == old(trilhas) && view == old(view)
    {
      var accepted := AcceptedName(answer);
      if accepted.Some? {
        var name := accepted.value;
        AppendTrackName(trilhas, name);
        trilhas := trilhas + [name];
        view := RenderList(trilhas);
      }
    }
  }
}
