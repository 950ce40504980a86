/** The daily mood tracker (`src/pages/Tracker.tsx`): the entry form, its
    tag toggles, saving an entry and the colour band of a mood score. */
module Tracker {
  import opened Seqs
  import opened Schema

  /** The tags the form offers. */
  const MoodTags: seq<string> := [
    "work", "family", "friends", "exercise", "sleep", "weather",
    "stress", "anxiety", "gratitude", "achievement", "health", "relationships"
  ]

  lemma MoodTagsDistinct()
    ensures NoDup(MoodTags) && |MoodTags| == 12
  {
  }

  // ---- Tag toggles ----------------------------------------------------

  /** The selection after `toggleTag(tag)`: a selected tag is taken out, any
      other is appended. */
  function Toggled(tags: seq<string>, tag: string): (r: seq<string>)
    ensures tag in r <==> tag !in tags
    ensures forall i :: 0 <= i < |tags| && tags[i] != tag ==> tags[i] in r
    ensures forall i :: 0 <= i < |r| && r[i] != tag ==> r[i] in tags
    ensures tag !in tags ==> r == tags + [tag]
  {
    if tag in tags then Remove(tags, tag) else tags + [tag]
  }

  /** A duplicate-free selection stays duplicate-free, and toggling an
      unselected tag twice gives back the selection. */
  lemma ToggleLaws(tags: seq<string>, tag: string)
    ensures NoDup(tags) ==> NoDup(Toggled(tags, tag))
    ensures tag !in tags ==> Toggled(Toggled(tags, tag), tag) == tags
  {
    if tag in tags {
      RemoveLaws(tags, [], tag);
    } else {
      if NoDup(tags) {
        AppendNoDup(tags, tag);
      }
      RemoveAppended(tags, tag);
    }
  }

  /** Toggling a selected tag of a duplicate-free selection shortens it by
      one; toggling an unselected one lengthens it by one. */
  lemma ToggleSize(tags: seq<string>, tag: string)
    requires NoDup(tags)
    ensures |Toggled(tags, tag)| == |tags| + (if tag in tags then -1 else 1)
  {
    if tag in tags {
      var i :| 0 <= i < |tags| && tags[i] == tag;
      var p := IsNot(tag);
      assert tags == (tags[..i] + [tags[i]]) + tags[i + 1..];
      FilterConcat(p, tags[..i] + [tags[i]], tags[i + 1..]);
      FilterConcat(p, tags[..i], [tags[i]]);
      FilterAll(p, tags[..i]);
      FilterAll(p, tags[i + 1..]);
      assert Filter(p, [tags[i]]) == [];
    }
  }

  // ---- Colour bands ---------------------------------------------------

  datatype Band = Red | Orange | Yellow | Green

  /** `getMoodColor(score)`, as the band its class name names. */
  function MoodBand(score: int): Band {
    if score >= 8 then Green
    else if score >= 6 then Yellow
    else if score >= 4 then Orange
    else Red
  }

  /** The Tailwind class of a band. */
  function BandClass(b: Band): string {
    match b
    case Green => "bg-green-500"
    case Yellow => "bg-yellow-500"
    case Orange => "bg-orange-500"
    case Red => "bg-red-500"
  }

  /** `getMoodColor(score)`. */
  function GetMoodColor(score: int): (c: string)
    ensures exists b: Band :: c == BandClass(b)
  {
    BandClass(MoodBand(score))
  }

  /** Different bands have different classes, so a colour names its band. */
  lemma BandClassInjective(a: Band, b: Band)
    ensures BandClass(a) == BandClass(b) <==> a == b
  {
  }

  /** The legend under the calendar: each band with the scores it covers. */
  datatype LegendEntry = LegendEntry(band: Band, low: int, high: int)

  const Legend: seq<LegendEntry> := [
    LegendEntry(Red, 1, 3), LegendEntry(Orange, 4, 5),
    LegendEntry(Yellow, 6, 7), LegendEntry(Green, 8, 10)
  ]

  /** For every valid score the band is the one whose legend range holds
      the score, and the legend's ranges do not overlap. */
  lemma MoodBandMatchesLegend(score: int, k: nat)
    requires ValidScore(score) && k < |Legend|
    ensures Legend[k].low <= score <= Legend[k].high <==> MoodBand(score) == Legend[k].band
  {
  }

  /** The order of the bands, from the lowest scores to the highest. */
  function Rank(b: Band): nat {
    match b
    case Red => 0
    case Orange => 1
    case Yellow => 2
    case Green => 3
  }

  /** A higher score never falls into a lower band. */
  lemma MoodBandMonotone(a: int, b: int)
    requires a <= b
    ensures Rank(MoodBand(a)) <= Rank(MoodBand(b))
  {
  }

  // ---- The entry form -------------------------------------------------

  /** The textarea's `maxLength`. */
  const MaxNotes := 300

  /** The partial entry `handleSaveMood` builds. */
  datatype MoodDraft = MoodDraft(date: Instant, emoji: string, score: int, notes: string, tags: seq<string>)

  /** The smiling face the form starts on. */
  const DefaultMood := "\U{1F60A}"
  const DefaultScore := 7

  class MoodForm {
    var selectedDate: Instant
    var selectedMood: string
    var moodScore: int
    var notes: string
    var selectedTags: seq<string>

    ghost predicate Valid()
      reads this
    {
      ValidScore(moodScore) && |notes| <= MaxNotes && NoDup(selectedTags)
    }

    /** The form as the page opens on `today`. */
    constructor (today: Instant)
      ensures Valid()
      ensures selectedDate == today && selectedMood == DefaultMood && moodScore == DefaultScore
      ensures notes == "" && selectedTags == []
    {
      selectedDate, selectedMood, moodScore := today, DefaultMood, DefaultScore;
      notes, selectedTags := "", [];
    }

    method SelectDate(d: Instant)
      modifies this`selectedDate
      ensures selectedDate == d
    {
      selectedDate := d;
    }

    method SelectMood(emoji: string)
      modifies this`selectedMood
      ensures selectedMood == emoji
    {
      selectedMood := emoji;
    }

    /** The slider, which only offers whole numbers from 1 to 10. */
    method SetScore(score: int)
      requires Valid() && ValidScore(score)
      modifies this`moodScore
      ensures Valid() && moodScore == score
    {
      moodScore := score;
    }

    /** `setNotes(e.target.value)`: the textarea's `maxLength` means the
        value it delivers never holds more than 300 characters. */
    method SetNotes(s: string)
      requires Valid() && |s| <= MaxNotes
      modifies this`notes
      ensures Valid() && notes == s
    {
      notes := s;
    }

    method ToggleTag(tag: string)
      requires Valid()
      modifies this`selectedTags
      ensures Valid() && selectedTags == Toggled(old(selectedTags), tag)
    {
      ToggleLaws(selectedTags, tag);
      selectedTags := Toggled(selectedTags, tag);
    }

    /** Builds the entry from the current fields, then clears the notes and
        the tags; date, mood and score stay as they were. */
    method SaveMood() returns (entry: MoodDraft)
      requires Valid()
      modifies this`notes, this`selectedTags
      ensures Valid() && ValidScore(entry.score)
      ensures entry == MoodDraft(selectedDate, selectedMood, moodScore, old(notes), old(selectedTags))
      ensures notes == "" && selectedTags == []
    {
      entry := MoodDraft(selectedDate, selectedMood, moodScore, notes, selectedTags);
      notes, selectedTags := "", [];
    }
  }
}
