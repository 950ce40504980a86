/** The challenges page (`src/pages/Challenges.tsx`): starting and completing
    a challenge, the category tabs, the status views and the points total. */
module Challenges {
  import opened Text
  import opened Seqs
  import opened Schema

  /** The list after `handleStartChallenge(id)`: each challenge with that id
      becomes active with progress 0 and a start date; nothing else changes. */
  function StartIn(cs: seq<Challenge>, id: string, now: Instant): (r: seq<Challenge>)
    ensures |r| == |cs|
    ensures forall i :: 0 <= i < |r| && cs[i].id != id ==> r[i] == cs[i]
    ensures forall i :: 0 <= i < |r| && cs[i].id == id ==>
      r[i].status == Active && r[i].progress == 0 && r[i].startDate == Some(now) &&
      r[i].(status := cs[i].status, progress := cs[i].progress, startDate := cs[i].startDate) == cs[i]
  {
    seq(|cs|, i requires 0 <= i < |cs| =>
      if cs[i].id == id then cs[i].(status := Active, startDate := Some(now), progress := 0)
      else cs[i])
  }

  /** The list after `handleCompleteChallenge(id)`: each challenge with that
      id becomes completed with progress 100 and a completion date; nothing
      else changes. */
  function CompleteIn(cs: seq<Challenge>, id: string, now: Instant): (r: seq<Challenge>)
    ensures |r| == |cs|
    ensures forall i :: 0 <= i < |r| && cs[i].id != id ==> r[i] == cs[i]
    ensures forall i :: 0 <= i < |r| && cs[i].id == id ==>
      r[i].status == ChallengeStatus.Completed && r[i].progress == 100 && r[i].completedDate == Some(now) &&
      r[i].(status := cs[i].status, progress := cs[i].progress, completedDate := cs[i].completedDate) == cs[i]
  {
    seq(|cs|, i requires 0 <= i < |cs| => CompleteOne(cs[i], id, now))
  }

  /** Every challenge's progress lies in 0..100. */
  predicate AllValid(cs: seq<Challenge>) {
    forall i :: 0 <= i < |cs| ==> ValidChallenge(cs[i])
  }

  /** Both transitions keep every progress value inside 0..100. */
  lemma TransitionsKeepValid(cs: seq<Challenge>, id: string, now: Instant)
    requires AllValid(cs)
    ensures AllValid(StartIn(cs, id, now)) && AllValid(CompleteIn(cs, id, now))
  {
  }

  // ---- Category tabs and status views ---------------------------------

  function InCategory(name: string): Challenge -> bool {
    (c: Challenge) => ChallengeCategoryName(c.category) == name
  }

  function HasStatus(status: ChallengeStatus): Challenge -> bool {
    (c: Challenge) => c.status == status
  }

  /** `filteredChallenges` for the selected tab: the whole list for "All",
      otherwise the challenges whose category is the tab's lower-cased name. */
  function FilterByCategory(cs: seq<Challenge>, selected: string): (r: seq<Challenge>)
    ensures selected == AllTab ==> r == cs
    ensures selected != AllTab ==>
      (forall i :: 0 <= i < |r| ==> ChallengeCategoryName(r[i].category) == ToLower(selected) && r[i] in cs) &&
      (forall i :: 0 <= i < |cs| && ChallengeCategoryName(cs[i].category) == ToLower(selected) ==> cs[i] in r)
  {
    if selected == AllTab then cs else Filter(InCategory(ToLower(selected)), cs)
  }

  /** The tab buttons above the list, "All" first. */
  const CategoryTabs: seq<string> := ["All", "Mindfulness", "Gratitude", "Movement", "Social", "Creativity"]

  /** Each tab after "All" lower-cases to the name of a different category,
      and every category has a tab. */
  lemma CategoryTabsNameCategories()
    ensures |CategoryTabs| == 6 && CategoryTabs[0] == AllTab
    ensures ParseChallengeCategory(ToLower(CategoryTabs[1])) == Some(Mindfulness)
    ensures ParseChallengeCategory(ToLower(CategoryTabs[2])) == Some(Gratitude)
    ensures ParseChallengeCategory(ToLower(CategoryTabs[3])) == Some(Movement)
    ensures ParseChallengeCategory(ToLower(CategoryTabs[4])) == Some(Social)
    ensures ParseChallengeCategory(ToLower(CategoryTabs[5])) == Some(Creativity)
    ensures forall c: ChallengeCategory :: exists i :: 1 <= i < |CategoryTabs| && ParseChallengeCategory(ToLower(CategoryTabs[i])) == Some(c)
  {
    assert ToLower(CategoryTabs[1]) == "mindfulness";
    assert ToLower(CategoryTabs[2]) == "gratitude";
    assert ToLower(CategoryTabs[3]) == "movement";
    assert ToLower(CategoryTabs[4]) == "social";
    assert ToLower(CategoryTabs[5]) == "creativity";
    forall c: ChallengeCategory
      ensures exists i :: 1 <= i < |CategoryTabs| && ParseChallengeCategory(ToLower(CategoryTabs[i])) == Some(c)
    {
      var i := match c
        case Mindfulness => 1
        case Gratitude => 2
        case Movement => 3
        case Social => 4
        case Creativity => 5;
      assert ParseChallengeCategory(ToLower(CategoryTabs[i])) == Some(c);
    }
  }

  /** A tab naming a category selects exactly the challenges of that
      category; a tab naming none selects nothing. */
  lemma CategoryTabExact(cs: seq<Challenge>, selected: string)
    requires selected != AllTab
    ensures ParseChallengeCategory(ToLower(selected)) == None ==> FilterByCategory(cs, selected) == []
    ensures forall i :: 0 <= i < |FilterByCategory(cs, selected)| ==>
      ParseChallengeCategory(ToLower(selected)) == Some(FilterByCategory(cs, selected)[i].category)
  {
    var r := FilterByCategory(cs, selected);
    forall i | 0 <= i < |r|
      ensures ParseChallengeCategory(ToLower(selected)) == Some(r[i].category)
    {
      ParseChallengeCategoryName(r[i].category);
    }
    if ParseChallengeCategory(ToLower(selected)) == None && r != [] {
      ParseChallengeCategoryName(r[0].category);
    }
  }

  /** The category filter keeps the list's order. */
  lemma CategoryFilterKeepsOrder(a: seq<Challenge>, b: seq<Challenge>, selected: string)
    ensures FilterByCategory(a + b, selected) == FilterByCategory(a, selected) + FilterByCategory(b, selected)
  {
    if selected != AllTab {
      FilterConcat(InCategory(ToLower(selected)), a, b);
    }
  }

  /** The available, active and completed views of the filtered list. */
  function View(cs: seq<Challenge>, selected: string, status: ChallengeStatus): (r: seq<Challenge>)
    ensures forall c :: c in r <==> c in FilterByCategory(cs, selected) && c.status == status
  {
    Filter(HasStatus(status), FilterByCategory(cs, selected))
  }

  /** No challenge appears in two views, and a paused one appears in none. */
  lemma ViewsDisjoint(cs: seq<Challenge>, selected: string, c: Challenge)
    ensures c in View(cs, selected, Available) ==> c !in View(cs, selected, Active) && c !in View(cs, selected, ChallengeStatus.Completed)
    ensures c in View(cs, selected, Active) ==> c !in View(cs, selected, ChallengeStatus.Completed)
    ensures c.status == Paused ==>
      c !in View(cs, selected, Available) && c !in View(cs, selected, Active) && c !in View(cs, selected, ChallengeStatus.Completed)
  {
  }

  function HasEither(s1: ChallengeStatus, s2: ChallengeStatus): Challenge -> bool {
    (c: Challenge) => c.status == s1 || c.status == s2
  }

  /** The three views together are never longer than the filtered list. */
  lemma ViewSizes(cs: seq<Challenge>, selected: string)
    ensures |View(cs, selected, Available)| + |View(cs, selected, Active)| +
            |View(cs, selected, ChallengeStatus.Completed)| <= |FilterByCategory(cs, selected)|
  {
    var f := FilterByCategory(cs, selected);
    var started := HasEither(Active, ChallengeStatus.Completed);
    var shown := (c: Challenge) => c.status != Paused;
    FilterDisjointUnion(HasStatus(Active), HasStatus(ChallengeStatus.Completed), started, f);
    FilterDisjointUnion(HasStatus(Available), started, shown, f);
  }

  // ---- Points ---------------------------------------------------------

  function PointsOf(c: Challenge): int {
    c.points
  }

  /** `totalPoints`: the points of the completed challenges of the whole,
      unfiltered list. */
  function TotalPoints(cs: seq<Challenge>): int {
    Sum(PointsOf, Filter(HasStatus(ChallengeStatus.Completed), cs))
  }

  function PendingWithId(id: string): Challenge -> bool {
    (c: Challenge) => c.id == id && c.status != ChallengeStatus.Completed
  }

  /** The points still to be earned under an id: those of its challenges that
      are not completed yet. */
  function PendingPoints(cs: seq<Challenge>, id: string): int {
    Sum(PointsOf, Filter(PendingWithId(id), cs))
  }

  /** The challenge `handleCompleteChallenge(id)` makes of `c`: completed,
      at progress 100 and stamped when its id matches, otherwise as it was. */
  function CompleteOne(c: Challenge, id: string, now: Instant): Challenge {
    if c.id == id then c.(status := ChallengeStatus.Completed, completedDate := Some(now), progress := 100)
    else c
  }

  /** One step of the induction below: the head element's share. */
  lemma HeadPoints(c: Challenge, tail: seq<Challenge>, rest: seq<Challenge>, id: string, now: Instant)
    requires TotalPoints(tail) == TotalPoints(rest) + PendingPoints(rest, id)
    ensures TotalPoints([CompleteOne(c, id, now)] + tail) == TotalPoints([c] + rest) + PendingPoints([c] + rest, id)
  {
    var c' := CompleteOne(c, id, now);
    assert ([c'] + tail)[0] == c' && ([c'] + tail)[1..] == tail;
    assert ([c] + rest)[0] == c && ([c] + rest)[1..] == rest;
  }

  /** Completing raises the total by exactly the points that were still
      pending under that id. */
  lemma {:induction false} CompletePoints(cs: seq<Challenge>, id: string, now: Instant)
    ensures TotalPoints(CompleteIn(cs, id, now)) == TotalPoints(cs) + PendingPoints(cs, id)
    decreases |cs|
  {
    if cs != [] {
      var r := CompleteIn(cs, id, now);
      var tail := CompleteIn(cs[1..], id, now);
      assert r == [CompleteOne(cs[0], id, now)] + tail;
      assert cs == [cs[0]] + cs[1..];
      CompletePoints(cs[1..], id, now);
      HeadPoints(cs[0], tail, cs[1..], id, now);
    }
  }

  /** For a challenge whose id no other challenge shares, completing it adds
      its points when it was not completed yet and nothing when it was. */
  lemma CompleteUniquePoints(cs: seq<Challenge>, i: nat, now: Instant)
    requires i < |cs|
    requires forall j :: 0 <= j < |cs| && j != i ==> cs[j].id != cs[i].id
    ensures TotalPoints(CompleteIn(cs, cs[i].id, now)) ==
            TotalPoints(cs) + (if cs[i].status != ChallengeStatus.Completed then cs[i].points else 0)
  {
    CompletePoints(cs, cs[i].id, now);
    PendingUnique(cs, i);
  }

  /** Under an id only one challenge carries, the pending points are that
      challenge's points unless it is completed already. */
  lemma PendingUnique(cs: seq<Challenge>, i: nat)
    requires i < |cs|
    requires forall j :: 0 <= j < |cs| && j != i ==> cs[j].id != cs[i].id
    ensures PendingPoints(cs, cs[i].id) == (if cs[i].status != ChallengeStatus.Completed then cs[i].points else 0)
  {
    var p := PendingWithId(cs[i].id);
    var before, here, after := cs[..i], [cs[i]], cs[i + 1..];
    assert cs == (before + here) + after;
    assert forall j :: 0 <= j < |before| ==> before[j].id != cs[i].id;
    assert forall j :: 0 <= j < |after| ==> after[j].id != cs[i].id;
    FilterNone(p, before);
    FilterNone(p, after);
    FilterConcat(p, before + here, after);
    FilterConcat(p, before, here);
    var kept := Filter(p, here);
    assert Filter(p, cs) == kept;
    assert here[1..] == [];
    if p(cs[i]) {
      assert kept == here;
      assert Sum(PointsOf, here) == cs[i].points + Sum(PointsOf, here[1..]);
    } else {
      assert kept == [];
    }
  }

  // ---- The page state -------------------------------------------------

  class ChallengeBoard {
    var challenges: seq<Challenge>
    var selectedCategory: string

    ghost predicate Valid()
      reads this
    {
      AllValid(challenges)
    }

    constructor (initial: seq<Challenge>)
      requires AllValid(initial)
      ensures Valid() && challenges == initial && selectedCategory == AllTab
    {
      challenges, selectedCategory := initial, AllTab;
    }

    /** A category tab, or the "All" button of the empty state. */
    method SelectCategory(category: string)
      modifies this`selectedCategory
      ensures selectedCategory == category
    {
      selectedCategory := category;
    }

    method Start(id: string, now: Instant)
      requires Valid()
      modifies this`challenges
      ensures Valid() && challenges == StartIn(old(challenges), id, now)
    {
      TransitionsKeepValid(challenges, id, now);
      challenges := StartIn(challenges, id, now);
    }

    method Complete(id: string, now: Instant)
      requires Valid()
      modifies this`challenges
      ensures Valid() && challenges == CompleteIn(old(challenges), id, now)
      ensures TotalPoints(challenges) == TotalPoints(old(challenges)) + PendingPoints(old(challenges), id)
    {
      TransitionsKeepValid(challenges, id, now);
      CompletePoints(challenges, id, now);
      challenges := CompleteIn(challenges, id, now);
    }
  }
}
