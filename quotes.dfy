/** The quotes page (`src/pages/Quotes.tsx`): the category tabs, the text a
    quote is shared as, the random-quote toast's caption and the reminder
    preferences. */
module Quotes {
  import opened Text
  import opened Seqs
  import opened Schema

  /** `quote.author` is truthy: present and not the empty string. */
  predicate HasAuthor(q: Quote) {
    q.author.Some? && q.author.value != ""
  }

  /** The em dash that introduces an author. */
  const Dash := "\U{2014} "

  /** The attribution part of the share text: the dashed author, or nothing. */
  function Attribution(q: Quote): (a: string)
    ensures a == "" <==> !HasAuthor(q)
    ensures HasAuthor(q) ==> |a| == |Dash| + |q.author.value| && a[..|Dash|] == Dash && a[|Dash|..] == q.author.value
  {
    if HasAuthor(q) then Dash + q.author.value else ""
  }

  /** The text `handleShareQuote` shares or copies: the quote text in double
      quotes, a space, then the attribution. */
  function ShareText(q: Quote): (r: string)
    ensures |r| == |q.text| + 3 + |Attribution(q)|
    ensures r[0] == '"' && r[1..|q.text| + 1] == q.text && r[|q.text| + 1..|q.text| + 3] == "\" "
    ensures r[|q.text| + 3..] == Attribution(q)
  {
    "\"" + q.text + "\" " + Attribution(q)
  }

  /** Without an author the share text ends in the space after the closing
      quote; with one it ends in the author's name. */
  lemma ShareTextEnding(q: Quote)
    ensures !HasAuthor(q) ==> ShareText(q) == "\"" + q.text + "\" "
    ensures HasAuthor(q) ==>
      ShareText(q)[|ShareText(q)| - |q.author.value|..] == q.author.value
  {
    var r, n := ShareText(q), |q.text|;
    if HasAuthor(q) {
      assert r[|r| - |q.author.value|..] == r[n + 3..][|Dash|..];
    } else {
      assert r == r[..n + 3] + r[n + 3..];
    }
  }

  /** Where the share text goes: the native share sheet, with its title, when
      the browser has one, otherwise the clipboard. */
  datatype ShareRequest = NativeShare(title: string, text: string) | Clipboard(text: string)

  const ShareTitle := "Inspirational Quote"

  function HandleShare(q: Quote, canShare: bool): (r: ShareRequest)
    ensures r.NativeShare? <==> canShare
    ensures r.NativeShare? ==> r.title == ShareTitle
  {
    if canShare then NativeShare(ShareTitle, ShareText(q)) else Clipboard(ShareText(q))
  }

  /** The share sheet and the clipboard get the same text. */
  lemma ShareSameText(q: Quote)
    ensures HandleShare(q, true).text == HandleShare(q, false).text == ShareText(q)
  {
  }

  const AnonymousCaption := "Anonymous"

  /** The caption of the random-quote toast. */
  function RandomQuoteDescription(q: Quote): (d: string)
    ensures HasAuthor(q) ==> d == Attribution(q)
    ensures !HasAuthor(q) ==> d == AnonymousCaption
  {
    if HasAuthor(q) then Dash + q.author.value else AnonymousCaption
  }

  /** The caption is never empty, and it is the share text's attribution
      whenever that is not empty. */
  lemma DescriptionNonEmpty(q: Quote)
    ensures RandomQuoteDescription(q) != ""
    ensures Attribution(q) != "" ==> RandomQuoteDescription(q) == Attribution(q)
  {
  }

  // ---- Category tabs --------------------------------------------------

  function InCategory(name: string): Quote -> bool {
    (q: Quote) => q.category == name
  }

  /** `filteredQuotes` for the selected tab: every quote for "All",
      otherwise exactly the quotes whose category is the tab's lower-cased
      name. */
  function FilteredQuotes(quotes: seq<Quote>, selected: string): (r: seq<Quote>)
    ensures selected == AllTab ==> r == quotes
    ensures selected != AllTab ==>
      (forall i :: 0 <= i < |r| ==> r[i].category == ToLower(selected) && r[i] in quotes) &&
      (forall i :: 0 <= i < |quotes| && quotes[i].category == ToLower(selected) ==> quotes[i] in r)
  {
    if selected == AllTab then quotes else Filter(InCategory(ToLower(selected)), quotes)
  }

  /** The tab buttons above the quotes, "All" first. */
  const CategoryTabs: seq<string> := ["All", "Motivation", "Mindfulness", "Gratitude", "Love", "Strength"]

  /** The tabs after "All" lower-case to five different category strings,
      the first of them the category a quote gets by default. */
  lemma CategoryTabsNameCategories()
    ensures |CategoryTabs| == 6 && CategoryTabs[0] == AllTab
    ensures ToLower(CategoryTabs[1]) == DefaultQuoteCategory
    ensures ToLower(CategoryTabs[2]) == "mindfulness" && ToLower(CategoryTabs[3]) == "gratitude"
    ensures ToLower(CategoryTabs[4]) == "love" && ToLower(CategoryTabs[5]) == "strength"
    ensures forall i, j :: 1 <= i < j < |CategoryTabs| ==> ToLower(CategoryTabs[i]) != ToLower(CategoryTabs[j])
  {
    assert ToLower(CategoryTabs[1]) == "motivation";
    assert ToLower(CategoryTabs[2]) == "mindfulness";
    assert ToLower(CategoryTabs[3]) == "gratitude";
    assert ToLower(CategoryTabs[4]) == "love";
    assert ToLower(CategoryTabs[5]) == "strength";
  }

  /** The filter keeps the collection's order. */
  lemma FilterKeepsOrder(a: seq<Quote>, b: seq<Quote>, selected: string)
    ensures FilteredQuotes(a + b, selected) == FilteredQuotes(a, selected) + FilteredQuotes(b, selected)
  {
    if selected != AllTab {
      FilterConcat(InCategory(ToLower(selected)), a, b);
    }
  }

  // ---- Preferences ----------------------------------------------------

  /** The reminder intervals offered, in hours. */
  const ReminderChoices: seq<int> := [2, 4, 8, 12]
  const DefaultReminderInterval := 4

  class QuotePreferences {
    var selectedCategory: string
    var morningToast: bool
    var reminderInterval: int

    ghost predicate Valid()
      reads this
    {
      reminderInterval in ReminderChoices
    }

    constructor ()
      ensures Valid()
      ensures selectedCategory == AllTab && morningToast && reminderInterval == DefaultReminderInterval
    {
      selectedCategory, morningToast, reminderInterval := AllTab, true, DefaultReminderInterval;
    }

    method SelectCategory(category: string)
      modifies this`selectedCategory
      ensures selectedCategory == category
    {
      selectedCategory := category;
    }

    method SetMorningToast(on: bool)
      modifies this`morningToast
      ensures morningToast == on
    {
      morningToast := on;
    }

    /** One of the interval buttons. */
    method SetReminderInterval(hours: int)
      requires hours in ReminderChoices
      modifies this`reminderInterval
      ensures Valid() && reminderInterval == hours
    {
      reminderInterval := hours;
    }
  }
}
