/** The trading diary of src/components/Diary.tsx: the new-entry form and
    its guard, the comma-separated tag parsing, the mood styling and the
    mood counts. Storing the entry is an input (`success`). */
module Diary {
  import opened Wrappers
  import opened Strings
  import opened Seqs

  // ---------------------------------------------------------------------
  // Tags.
  // ---------------------------------------------------------------------

  /** `parts.map(tag => tag.trim())`. */
  function TrimEach(parts: seq<string>): (r: seq<string>)
    ensures |r| == |parts|
    ensures forall i :: 0 <= i < |parts| ==> r[i] == Trim(parts[i])
  {
    seq(|parts|, i requires 0 <= i < |parts| => Trim(parts[i]))
  }

  function NonEmpty(s: string): bool
  {
    s != []
  }

  /** `tags.split(',').map(tag => tag.trim()).filter(Boolean)`. */
  function ParseTags(text: string): seq<string>
  {
    Filter(TrimEach(Split(text, ',')), NonEmpty)
  }

  /** Not empty, and no white space at either end. */
  predicate IsTag(t: string)
  {
    t != [] && !IsSpace(t[0]) && !IsSpace(t[|t| - 1])
  }

  /** Every parsed tag is a proper tag. */
  lemma TagsAreTrimmed(text: string)
    ensures forall i :: 0 <= i < |ParseTags(text)| ==> IsTag(ParseTags(text)[i])
  {
    PiecesAreTrimmed(Split(text, ','));
  }

  lemma PiecesAreTrimmed(parts: seq<string>)
    ensures forall i :: 0 <= i < |Filter(TrimEach(parts), NonEmpty)| ==> IsTag(Filter(TrimEach(parts), NonEmpty)[i])
  {
    var pieces := TrimEach(parts);
    var tags := Filter(pieces, NonEmpty);
    forall i | 0 <= i < |tags| ensures IsTag(tags[i]) {
      assert tags[i] in pieces && NonEmpty(tags[i]);
    }
  }

  /** Some piece of `parts` trims to `tag`. */
  predicate TrimsTo(parts: seq<string>, tag: string)
  {
    exists i :: 0 <= i < |parts| && Trim(parts[i]) == tag
  }

  /** A tag is parsed exactly when it is not empty and some comma-separated
      piece trims to it. */
  lemma ParsedTagIff(text: string, tag: string)
    ensures tag in ParseTags(text) <==> tag != [] && TrimsTo(Split(text, ','), tag)
  {
    TagsOfPieces(Split(text, ','), tag);
  }

  lemma TagsOfPieces(parts: seq<string>, tag: string)
    ensures tag in Filter(TrimEach(parts), NonEmpty) <==> tag != [] && TrimsTo(parts, tag)
  {
    var pieces := TrimEach(parts);
    var tags := Filter(pieces, NonEmpty);
    if tag in tags {
      var k :| 0 <= k < |tags| && tags[k] == tag;
      var i :| 0 <= i < |pieces| && pieces[i] == tag;
      assert Trim(parts[i]) == tag;
    }
    if tag != [] && TrimsTo(parts, tag) {
      var i :| 0 <= i < |parts| && Trim(parts[i]) == tag;
      assert pieces[i] == tag && NonEmpty(pieces[i]);
    }
  }

  /** How `Split` treats a first character. */
  lemma SplitCons(c: char, s: string, sep: char)
    ensures Split([c] + s, sep) ==
      if c == sep then [[]] + Split(s, sep) else [[c] + Split(s, sep)[0]] + Split(s, sep)[1..]
  {
    assert ([c] + s)[1..] == s;
  }

  /** Splitting at an added comma splits each side separately. */
  lemma {:induction false} SplitAtComma(a: string, b: string)
    ensures Split(a + [','] + b, ',') == Split(a, ',') + Split(b, ',')
    decreases |a|
  {
    if a == [] {
      assert a + [','] + b == [','] + b;
      SplitCons(',', b, ',');
    } else {
      var c, tail := a[0], a[1..];
      assert a == [c] + tail;
      assert a + [','] + b == [c] + (tail + [','] + b);
      SplitAtComma(tail, b);
      SplitCons(c, tail, ',');
      SplitCons(c, tail + [','] + b, ',');
    }
  }

  lemma TrimEachConcat(a: seq<string>, b: seq<string>)
    ensures TrimEach(a + b) == TrimEach(a) + TrimEach(b)
  {
  }

  /** The tags of two comma-joined inputs are the tags of the first followed
      by those of the second: parsing keeps the typed order. */
  lemma ParseTagsKeepsOrder(a: string, b: string)
    ensures ParseTags(a + [','] + b) == ParseTags(a) + ParseTags(b)
  {
    SplitAtComma(a, b);
    TrimEachConcat(Split(a, ','), Split(b, ','));
    FilterConcat(TrimEach(Split(a, ',')), TrimEach(Split(b, ',')), NonEmpty);
  }

  // ---------------------------------------------------------------------
  // The form.
  // ---------------------------------------------------------------------

  datatype Draft = Draft(title: string, content: string, mood: string, tags: string)

  const EmptyDraft: Draft := Draft("", "", "neutral", "")

  /** What `addEntry` is called with. */
  datatype Submission = Submission(title: string, content: string, mood: string, tags: seq<string>)

  /** `handleAddEntry`'s guard: both title and content have something left
      after trimming. */
  function CanSubmit(d: Draft): (b: bool)
    ensures b <==> !IsBlank(d.title) && !IsBlank(d.content)
  {
    !TrimsToEmpty(d.title) && !TrimsToEmpty(d.content)
  }

  function SubmissionOf(d: Draft): (s: Submission)
    ensures s.title == d.title && s.content == d.content && s.mood == d.mood
    ensures s.tags == ParseTags(d.tags)
  {
    Submission(d.title, d.content, d.mood, ParseTags(d.tags))
  }

  class DiaryForm {
    var draft: Draft
    var showForm: bool

    constructor()
      ensures draft == EmptyDraft && !showForm
    {
      draft := EmptyDraft;
      showForm := false;
    }

    method Edit(d: Draft)
      modifies this
      ensures draft == d && showForm == old(showForm)
    {
      draft := d;
    }

    method SetShowForm(show: bool)
      modifies this
      ensures showForm == show && draft == old(draft)
    {
      showForm := show;
    }

    /** `handleAddEntry`: a blank title or content submits nothing; a stored
        entry resets and hides the form; a failed one leaves it as it was. */
    method HandleAddEntry(success: bool) returns (submitted: Option<Submission>)
      modifies this
      ensures !CanSubmit(old(draft)) ==> submitted == None
      ensures CanSubmit(old(draft)) ==> submitted == Some(SubmissionOf(old(draft)))
      ensures CanSubmit(old(draft)) && success ==> draft == EmptyDraft && !showForm
      ensures !(CanSubmit(old(draft)) && success) ==> draft == old(draft) && showForm == old(showForm)
    {
      if !CanSubmit(draft) {
        return None;
      }
      submitted := Some(SubmissionOf(draft));
      if success {
        draft := EmptyDraft;
        showForm := false;
      }
    }
  }

  // ---------------------------------------------------------------------
  // Moods.
  // ---------------------------------------------------------------------

  /** The three styles the `switch` statements pick between. */
  datatype MoodStyle = BullishStyle | BearishStyle | NeutralStyle

  /** 'bullish' and 'bearish' have their own style; any other value and a
      missing mood share the neutral one. */
  function StyleOf(mood: Option<string>): (r: MoodStyle)
    ensures r == BullishStyle <==> mood == Some("bullish")
    ensures r == BearishStyle <==> mood == Some("bearish")
    ensures r == NeutralStyle <==> mood != Some("bullish") && mood != Some("bearish")
  {
    if mood == Some("bullish") then BullishStyle
    else if mood == Some("bearish") then BearishStyle
    else NeutralStyle
  }

  datatype MoodIcon = TrendingUp | TrendingDown | CalendarIcon

  /** `getMoodIcon`: the icon and its colour class. */
  function MoodIconOf(mood: Option<string>): (MoodIcon, string)
  {
    match StyleOf(mood)
    case BullishStyle => (TrendingUp, "h-4 w-4 text-green-400")
    case BearishStyle => (TrendingDown, "h-4 w-4 text-red-400")
    case NeutralStyle => (CalendarIcon, "h-4 w-4 text-blue-400")
  }

  /** `getMoodColor`. */
  function MoodColor(mood: Option<string>): string
  {
    match StyleOf(mood)
    case BullishStyle => "border-green-400/30 bg-green-400/5"
    case BearishStyle => "border-red-400/30 bg-red-400/5"
    case NeutralStyle => "border-blue-400/30 bg-blue-400/5"
  }

  /** Icon and colour agree: up and green, down and red, calendar and
      blue otherwise. */
  lemma MoodStylesAgree(mood: Option<string>)
    ensures MoodIconOf(mood).0 == TrendingUp <==> mood == Some("bullish")
    ensures MoodIconOf(mood).0 == TrendingDown <==> mood == Some("bearish")
    ensures MoodIconOf(mood).0 == CalendarIcon <==> MoodColor(mood) == "border-blue-400/30 bg-blue-400/5"
  {
  }

  // ---------------------------------------------------------------------
  // Counts.
  // ---------------------------------------------------------------------

  datatype Entry = Entry(title: string, content: string, mood: Option<string>, tags: seq<string>)

  predicate IsBullish(e: Entry) { e.mood == Some("bullish") }
  predicate IsBearish(e: Entry) { e.mood == Some("bearish") }

  function BullishDays(entries: seq<Entry>): nat { Count(entries, IsBullish) }
  function BearishDays(entries: seq<Entry>): nat { Count(entries, IsBearish) }

  /** The bullish and bearish counts together never exceed the total. */
  lemma MoodCountsBounded(entries: seq<Entry>)
    ensures BullishDays(entries) + BearishDays(entries) <= |entries|
  {
    DisjointCounts(entries, IsBullish, IsBearish);
  }
}
