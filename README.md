# MindCare page logic in Dafny

MindCare is a React wellness app: a chat companion, a task board, wellness
challenges, a community feed, a daily mood tracker, a quote collection and a
settings page. Rendering, charts and the network are plumbing. Underneath
them each page keeps a little in-memory state: a message log, a task list, a
list of challenges, a list of posts, a mood form and a user record. The
page's handlers change that state by copy-and-replace updates (`map`,
`filter`, spread, append, prepend). This project models those updates and
the zod schemas in `src/lib/types.ts` that give the records their enums,
ranges and defaults. It then proves what the handlers promise.

Layout, one module per file:

- `text.dfy` (`Text`): JavaScript `trim` and its whitespace set, blank-string tests, ASCII `toLowerCase` and the decimal text of a clock reading.
- `seqs.dfy` (`Seqs`): `filter`, removing a value, a summing `reduce`, and duplicate-free lists, each with its laws.
- `schema.dfy` (`Schema`): the records, the enums and their names, the validity ranges, the defaults and the `MOOD_EMOTIONS` table.
- `chat.dfy`, `tasks.dfy`, `challenges.dfy`, `community.dfy`, `tracker.dfy`, `quotes.dfy`, `settings.dfy`: one module per page.

Each page that owns state is a `class` whose fields are its `useState`
variables. Each handler is a method that replaces a field with a pure
function of the old state. That function is the `prev => ...` updater the
handler passes to its setter, and the properties are proved about it.
Clock readings (`Date.now()`, `new Date()`) are parameters of type
`Instant`, a natural number of milliseconds. The chat's network step is
an abstract outcome, `Ok(text)` or `Err`, handed to the send. The calendar
day used by `completedToday` is a parameter `dayOf` together with today's
day number.

## Model

| member | source | states |
|---|---|---|
| Text.LeadingWhitespace | src/pages/Chat.tsx:87 | the count of leading whitespace characters: all of them whitespace, and the next one not |
| Text.TrailingWhitespace | src/pages/Chat.tsx:87 | the same count at the end of the string |
| Text.Trim | src/pages/Chat.tsx:87 | `trim` returns a contiguous slice with whitespace only before and after it, and that slice neither starts nor ends with whitespace |
| Text.TrimSlice | src/pages/Chat.tsx:87 | the slice left after the leading and trailing whitespace counts are cut has whitespace only after it and none at its ends |
| Text.TrimOfTrimmed | src/pages/Chat.tsx:87 | a string already without whitespace at its ends is left as it is |
| Text.BlankIffTrimEmpty | src/pages/Chat.tsx:68 | `!s.trim()` holds exactly when every character is whitespace |
| Text.ToLower | src/pages/Challenges.tsx:66 | `toLowerCase` keeps the length, turns each letter A-Z into its lower-case letter 32 code points up, and changes no other character |
| Text.ToLowerIdempotent | src/pages/Challenges.tsx:66 | lower-casing twice is lower-casing once |
| Text.DecimalText | src/pages/Chat.tsx:72 | the text of a clock reading in an id is non-empty, all digits, has no leading zero and spells exactly that reading |
| Text.DecimalTextInjective | src/pages/Chat.tsx:72 | two ids made of the same prefix and a clock reading are equal only when the readings are |
| Seqs.Filter | src/pages/Tasks.tsx:55 | `filter` keeps exactly the elements that pass, and nothing else |
| Seqs.FilterConcat | src/pages/Tasks.tsx:55 | filtering works part by part, so the kept elements stay in their original order |
| Seqs.FilterAll | src/pages/Tasks.tsx:55 | a list that passes entirely comes back whole |
| Seqs.FilterNone | src/pages/Challenges.tsx:72-74 | a list with no passing element comes back empty |
| Seqs.FilterDisjointUnion | src/pages/Tasks.tsx:98-103 | two filters by predicates that never hold together add up, element for element, to the filter by either |
| Seqs.FilterFirst | src/pages/Chat.tsx:87 | a passing first element stays first |
| Seqs.FilterLast | src/pages/Chat.tsx:87 | a passing last element stays last |
| Seqs.FilterWeaker | src/pages/Tasks.tsx:105-109 | a weaker predicate never keeps fewer elements |
| Seqs.Remove | src/pages/Community.tsx:89-94 | `filter(t => t !== x)` drops every copy of x and keeps every other element |
| Seqs.RemoveLaws | src/pages/Community.tsx:89-94 | removal keeps a list duplicate-free, keeps order and leaves a list without x unchanged |
| Seqs.RemoveAppended | src/pages/Tracker.tsx:48-54 | removing a value just appended to a list without it gives back the list |
| Seqs.SumConcat | src/pages/Chat.tsx:289 | the `reduce` sum over a concatenation is the sum of the parts' sums |
| Seqs.AppendNoDup | src/pages/Community.tsx:80-84 | appending an absent value keeps a list duplicate-free |
| Seqs.FilterNoDup | src/pages/Community.tsx:89-94 | filtering keeps a list duplicate-free |
| Schema.ParseTheme | src/lib/types.ts:12 | the theme enum accepts only the names of its three themes |
| Schema.ParseThemeName | src/lib/types.ts:12 | each theme's name is accepted and reads back as that theme |
| Schema.ParseChallengeCategory | src/lib/types.ts:39 | the category enum accepts only the five category names |
| Schema.ParseChallengeCategoryName | src/lib/types.ts:39 | each category's name reads back as that category |
| Schema.ParseChallengeStatus | src/lib/types.ts:42 | the status enum accepts only available, active, completed and paused |
| Schema.ParseChallengeStatusName | src/lib/types.ts:42 | each status name reads back as that status |
| Schema.DefaultChallenge | src/lib/types.ts:41-45 | a challenge given only its required fields is available, has 10 points and progress 0, has no dates and is valid |
| Schema.ParsePriority | src/lib/types.ts:57 | the priority enum accepts only low, medium and high |
| Schema.ParseTaskStatus | src/lib/types.ts:58 | the task status enum accepts only today, this-week, later and completed |
| Schema.ParseTaskEnumNames | src/lib/types.ts:57-58 | each priority and task status name reads back as itself |
| Schema.ParsePostCategory | src/lib/types.ts:87 | the post category enum accepts only general, support, celebration and advice |
| Schema.ParsePostCategoryName | src/lib/types.ts:87 | each post category name reads back as itself |
| Schema.MoodEmotionsWellFormed | src/lib/types.ts:140-149 | the eight moods have distinct emoji and distinct labels, and every value lies in the score range 1..10 |
| Chat.Prompt | src/pages/Chat.tsx:44-56 | the outbound text is the fixed preamble followed by the raw input: the preamble is a prefix and the input the rest |
| Chat.RemoveCarriageReturns | src/pages/Chat.tsx:87 | `replace(/\r/g, '')` leaves no carriage return and keeps every other character |
| Chat.LeadingNewlines | src/pages/Chat.tsx:87 | the length of the run of line feeds a text starts with |
| Chat.CollapseNewlines | src/pages/Chat.tsx:87 | `replace(/\n{3,}/g, '\n\n')` never lengthens the text and keeps a first character that is not a line feed |
| Chat.CollapseNoTriple | src/pages/Chat.tsx:87 | after collapsing, no three line feeds stand in a row |
| Chat.CollapseLast | src/pages/Chat.tsx:87 | a text not ending in a line feed keeps its last character |
| Chat.CollapseChars | src/pages/Chat.tsx:87 | every character of the result comes from the reply |
| Chat.CollapseIdentity | src/pages/Chat.tsx:87 | a text without three line feeds in a row is left as it is |
| Chat.CollapseKeepsText | src/pages/Chat.tsx:87 | collapsing removes only line feeds: every other character survives, in order |
| Chat.Normalize | src/pages/Chat.tsx:86-87 | the cleaned reply (trim, drop carriage returns, collapse blank-line runs) has no whitespace at either end, no carriage return and no run of three line feeds |
| Chat.CleanTrimmed | src/pages/Chat.tsx:87 | dropping carriage returns and collapsing runs keeps a trimmed text trimmed and leaves no carriage return and no triple line feed |
| Chat.NormalizeFixedPoints | src/pages/Chat.tsx:87 | the clean-up leaves a text unchanged exactly when the text already has that shape |
| Chat.NormalizeIdempotent | src/pages/Chat.tsx:87 | cleaning a cleaned reply changes nothing |
| Chat.NormalizeGap | src/pages/Chat.tsx:87 | two trimmed lines without line breaks, separated by three or more line feeds, come out separated by exactly two |
| Chat.NormalizeExample | src/pages/Chat.tsx:87 | the reply "Take a breath." plus four line feeds plus "You are safe." comes out with a single blank line between the sentences |
| Chat.CollapseAfterPlain | src/pages/Chat.tsx:87 | a prefix without line feeds passes through the collapse unchanged |
| Chat.CollapseLongRun | src/pages/Chat.tsx:87 | a run of three or more line feeds before other text becomes exactly two |
| Chat.RunLength | src/pages/Chat.tsx:87 | the leading run of line feeds is measured to its end |
| Chat.UserMessage | src/pages/Chat.tsx:71-77 | the user message carries the raw, untrimmed input, neutral sentiment and no tokens |
| Chat.ReplyMessage | src/pages/Chat.tsx:88-104 | on success: the cleaned text, positive sentiment and tokens equal to its length; on failure: the fixed apology, negative sentiment and no tokens |
| Chat.TokenTotal | src/pages/Chat.tsx:289 | the "Tokens used" figure, the sum of every message's `tokens`, 0 where absent; how it grows is stated by Chat.TokenTotalAppend and Chat.ExchangeTokenTotal |
| Chat.TokenTotalAppend | src/pages/Chat.tsx:289 | appending a message adds exactly its tokens, absent tokens counting 0 |
| Chat.ExchangeTokenTotal | src/pages/Chat.tsx:289 | one exchange raises the token total by the cleaned reply's length on success and by nothing on failure |
| Chat.ChatSession.constructor | src/pages/Chat.tsx:29-31 | the page opens on the given log with empty input and no typing indicator |
| Chat.ChatSession.SetInput | src/pages/Chat.tsx:110-112 | a keystroke or quick-reply chip sets the input |
| Chat.ChatSession.Submit | src/pages/Chat.tsx:67-81 | blank input changes nothing and sends nothing; otherwise one user message is appended, the input is cleared, typing is raised and the prompt is issued |
| Chat.ChatSession.Receive | src/pages/Chat.tsx:84-107 | exactly one assistant message is appended, success or fallback, and typing drops |
| Chat.ChatSession.Send | src/pages/Chat.tsx:67-107 | a whole send: nothing on blank input; otherwise the log grows by the user message then the reply, earlier messages untouched, and the token total grows as above |
| Tasks.Present | src/pages/Tasks.tsx:69-73 | an empty text field becomes absent and any other keeps its value: absent exactly for the empty string |
| Tasks.CompleteIn | src/pages/Tasks.tsx:39-46 | each task with the id becomes completed and stamped; every other task, the length and the order are unchanged |
| Tasks.MoveIn | src/pages/Tasks.tsx:90-96 | only the status of the matching tasks changes |
| Tasks.UpdatesKeepIds | src/pages/Tasks.tsx:39-96 | completing and moving keep every task's id in place |
| Tasks.DeleteFrom | src/pages/Tasks.tsx:54-55 | no task with the id survives and every other task does |
| Tasks.WithId | src/pages/Tasks.tsx:54-55 | the tasks carrying an id |
| Tasks.DeleteCount | src/pages/Tasks.tsx:54-55 | what is deleted and what is kept add up to the whole list, task for task |
| Tasks.DeleteKeepsOrder | src/pages/Tasks.tsx:54-55 | deletion keeps the remaining tasks in their order and leaves a part without the id unchanged |
| Tasks.TaskFromForm | src/pages/Tasks.tsx:65-75 | the new task has id "task-" followed by the clock reading, belongs to user-1, copies title, priority and status, holds each of description, due date and linked challenge as given when non-empty and absent when empty, and is not completed |
| Tasks.Bucket | src/pages/Tasks.tsx:98-103 | a status column holds only tasks of that status |
| Tasks.BucketOf | src/pages/Tasks.tsx:98-103 | a task sits in a column exactly when it has that column's status |
| Tasks.TwoBuckets | src/pages/Tasks.tsx:98-103 | two columns together hold the tasks of either status |
| Tasks.BucketsPartition | src/pages/Tasks.tsx:98-103 | the four columns together hold each task exactly as often as the list does |
| Tasks.BucketSizes | src/pages/Tasks.tsx:98-103 | the column sizes sum to the number of tasks |
| Tasks.CompletedToday | src/pages/Tasks.tsx:105-109 | the completed-today count never exceeds the completed column, whatever calendar `dayOf` gives |
| Tasks.TaskBoard.constructor | src/pages/Tasks.tsx:28-37 | the board opens on the given tasks with an empty form and the dialog closed |
| Tasks.TaskBoard.EditForm | src/pages/Tasks.tsx:29-36 | the dialog inputs write the form |
| Tasks.TaskBoard.Complete | src/pages/Tasks.tsx:39-46 | the list becomes its completed version |
| Tasks.TaskBoard.Delete | src/pages/Tasks.tsx:54-55 | the list loses the tasks with the id |
| Tasks.TaskBoard.Move | src/pages/Tasks.tsx:90-96 | the list becomes its moved version |
| Tasks.TaskBoard.Create | src/pages/Tasks.tsx:59-88 | a blank title changes nothing; otherwise one task is appended at the end, the form resets to empty text, medium and today, and the dialog closes |
| Challenges.StartIn | src/pages/Challenges.tsx:32-39 | the matching challenges become active with progress 0 and a start date; nothing else changes |
| Challenges.CompleteIn | src/pages/Challenges.tsx:47-54 | the matching challenges become completed with progress 100 and a completion date; nothing else changes |
| Challenges.TransitionsKeepValid | src/pages/Challenges.tsx:36-51 | both transitions keep every progress inside 0..100 |
| Challenges.FilterByCategory | src/pages/Challenges.tsx:64-66 | "All" gives the whole list; any other tab gives exactly the challenges whose category is the tab's lower-cased name |
| Challenges.CategoryTabExact | src/pages/Challenges.tsx:64-66 | a tab selects only challenges of the category it names, and nothing when it names none |
| Challenges.CategoryFilterKeepsOrder | src/pages/Challenges.tsx:64-66 | the filter keeps the list's order |
| Challenges.CategoryTabsNameCategories | src/pages/Challenges.tsx:62-66 | each tab after "All" lower-cases to a different challenge category, and every category has a tab |
| Challenges.View | src/pages/Challenges.tsx:68-70 | a challenge is in a status view exactly when it is in the filtered list and has that status |
| Challenges.ViewsDisjoint | src/pages/Challenges.tsx:68-70 | no challenge is in two views and a paused one is in none |
| Challenges.ViewSizes | src/pages/Challenges.tsx:68-70 | the three views together are never longer than the filtered list |
| Challenges.TotalPoints | src/pages/Challenges.tsx:72-74 | the sum of the points of the completed challenges; how completing changes it is stated by Challenges.CompletePoints and Challenges.CompleteUniquePoints |
| Challenges.CompletePoints | src/pages/Challenges.tsx:47-74 | completing raises `totalPoints` by exactly the points still pending under the id |
| Challenges.PendingUnique | src/pages/Challenges.tsx:72-74 | under an id only one challenge carries, the pending points are its points, or 0 if it is completed |
| Challenges.CompleteUniquePoints | src/pages/Challenges.tsx:47-74 | completing a challenge with a unique id raises the total by its points if it was not completed, and leaves it unchanged if it was |
| Challenges.ChallengeBoard.constructor | src/pages/Challenges.tsx:29-30 | the page opens on "All" with the given challenges |
| Challenges.ChallengeBoard.SelectCategory | src/pages/Challenges.tsx:127-154 | a tab or the empty state's button selects a category |
| Challenges.ChallengeBoard.Start | src/pages/Challenges.tsx:32-45 | the list becomes its started version and stays valid |
| Challenges.ChallengeBoard.Complete | src/pages/Challenges.tsx:47-60 | the list becomes its completed version, stays valid, and the total grows by the pending points |
| Community.PostFromForm | src/pages/Community.tsx:37-49 | the new post has id "post-" followed by the clock reading, belongs to user-1 with all reactions 0, is named "Anonymous" when anonymous and "Sarah Mitchell" otherwise, and copies title, content, category, tags and anonymity |
| Community.TotalPosts | src/pages/Community.tsx:100 | `posts.length`; Community.MyPosts and Community.CreateCounts state its relation to the user's count and its growth |
| Community.Bumped | src/pages/Community.tsx:67-71 | the chosen counter goes up by one and the other two stay |
| Community.ReactTo | src/pages/Community.tsx:63-77 | only the chosen counter of the matching posts changes, by one |
| Community.WithTag | src/pages/Community.tsx:79-84 | an accepted (non-empty, new) tag is appended at the end; any other tag leaves the list as it was |
| Community.WithTagValid | src/pages/Community.tsx:79-87 | adding keeps the tags distinct and non-empty, and grows the list exactly when the tag is non-empty and new |
| Community.RemoveTagValid | src/pages/Community.tsx:89-94 | removing keeps the tags valid, and removing a tag just added gives back the list |
| Community.CategoryTabsNameCategories | src/pages/Community.tsx:16 | each tab after "All" lower-cases to a different post category, and every category has a tab |
| Community.FilteredPosts | src/pages/Community.tsx:96-98 | "All" gives every post; any other tab gives exactly the posts whose category is the tab's lower-cased name |
| Community.CategoryTabExact | src/pages/Community.tsx:96-98 | a tab selects only posts of the category it names, in feed order, and nothing when it names none |
| Community.MyPosts | src/pages/Community.tsx:100-101 | the user's posts never outnumber all posts |
| Community.CreateCounts | src/pages/Community.tsx:51-101 | sharing a post raises both `totalPosts` and `myPosts` by one |
| Community.CommunityFeed.constructor | src/pages/Community.tsx:19-29 | the feed opens on "All" with an empty form, no tag input and the dialog closed |
| Community.CommunityFeed.EditForm | src/pages/Community.tsx:130-167 | the dialog inputs set title, content, category and anonymity and keep the tags |
| Community.CommunityFeed.SetTagInput | src/pages/Community.tsx:182 | the tag input takes the typed text |
| Community.CommunityFeed.SelectCategory | src/pages/Community.tsx:270 | a tab selects a category |
| Community.CommunityFeed.Create | src/pages/Community.tsx:31-61 | a blank title or content changes nothing; otherwise the post is put first, the old posts follow in order, both counts rise by one, the form resets and the dialog closes |
| Community.CommunityFeed.React | src/pages/Community.tsx:63-77 | the feed becomes its reacted version |
| Community.CommunityFeed.AddTag | src/pages/Community.tsx:79-87 | `addTag(tag)` for any argument: an accepted tag is appended and clears the input; otherwise nothing changes |
| Community.CommunityFeed.SubmitTagInput | src/pages/Community.tsx:187-194 | the button and the Enter key add the trimmed tag input, with the same accept and clear rules |
| Community.CommunityFeed.RemoveTag | src/pages/Community.tsx:89-94 | the tag is taken out and the tag list stays valid |
| Tracker.MoodTagsDistinct | src/pages/Tracker.tsx:22-25 | the twelve offered tags are distinct |
| Tracker.Toggled | src/pages/Tracker.tsx:48-54 | membership of the toggled tag flips, every other tag keeps its membership, and an unselected tag is appended at the end |
| Tracker.ToggleLaws | src/pages/Tracker.tsx:48-54 | a duplicate-free selection stays duplicate-free, and toggling an unselected tag twice restores the selection |
| Tracker.ToggleSize | src/pages/Tracker.tsx:48-54 | toggling shrinks a duplicate-free selection by one for a selected tag and grows it by one otherwise |
| Tracker.MoodBand | src/pages/Tracker.tsx:56-61 | the thresholds 8, 6 and 4; Tracker.MoodBandMatchesLegend and Tracker.MoodBandMonotone state which band each score gets |
| Tracker.GetMoodColor | src/pages/Tracker.tsx:56-61 | the colour is always one band's class |
| Tracker.BandClassInjective | src/pages/Tracker.tsx:56-61 | different bands have different classes |
| Tracker.MoodBandMatchesLegend | src/pages/Tracker.tsx:272-286 | every score 1..10 gets the band whose legend range (1-3, 4-5, 6-7, 8-10) holds it |
| Tracker.MoodBandMonotone | src/pages/Tracker.tsx:56-61 | a higher score never falls into a lower band |
| Tracker.MoodForm.constructor | src/pages/Tracker.tsx:16-20 | the form opens on today, the smiling face, score 7, no notes and no tags |
| Tracker.MoodForm.SelectDate | src/pages/Tracker.tsx:190 | picking a day sets the date |
| Tracker.MoodForm.SelectMood | src/pages/Tracker.tsx:110 | a mood button sets the emoji |
| Tracker.MoodForm.SetScore | src/pages/Tracker.tsx:127-133 | the slider sets a whole score in 1..10 |
| Tracker.MoodForm.SetNotes | src/pages/Tracker.tsx:144-150 | the notes take the field's value as delivered, which `maxLength` keeps within 300 characters |
| Tracker.MoodForm.ToggleTag | src/pages/Tracker.tsx:48-54 | the selection becomes its toggled version and stays duplicate-free |
| Tracker.MoodForm.SaveMood | src/pages/Tracker.tsx:27-46 | the entry is built from date, mood, score, notes and tags, with a score in 1..10; then notes and tags are cleared and everything else is kept |
| Quotes.Attribution | src/pages/Quotes.tsx:30-33 | empty exactly when there is no author, otherwise the dash and the author |
| Quotes.ShareText | src/pages/Quotes.tsx:30-33 | the quote text in double quotes, a space, then the attribution |
| Quotes.ShareTextEnding | src/pages/Quotes.tsx:30-33 | without an author the text ends in the space after the closing quote; with one it ends in the author's name |
| Quotes.HandleShare | src/pages/Quotes.tsx:26-36 | the share sheet, titled "Inspirational Quote", exactly when the browser has one, otherwise the clipboard |
| Quotes.ShareSameText | src/pages/Quotes.tsx:30-33 | the share sheet and the clipboard get the identical text |
| Quotes.RandomQuoteDescription | src/pages/Quotes.tsx:21 | the dashed author when there is one, otherwise "Anonymous" |
| Quotes.DescriptionNonEmpty | src/pages/Quotes.tsx:21-30 | the caption is never empty and agrees with the share text's attribution whenever that is not empty |
| Quotes.CategoryTabsNameCategories | src/pages/Quotes.tsx:11 | the tabs after "All" lower-case to five different category strings, the first being the default "motivation" |
| Quotes.FilteredQuotes | src/pages/Quotes.tsx:38-40 | "All" gives every quote; any other tab gives exactly the quotes whose category is the tab's lower-cased name |
| Quotes.FilterKeepsOrder | src/pages/Quotes.tsx:38-40 | the filter keeps the collection's order |
| Quotes.QuotePreferences.constructor | src/pages/Quotes.tsx:14-16 | the page opens on "All" with the morning toast on and a 4-hour interval |
| Quotes.QuotePreferences.SelectCategory | src/pages/Quotes.tsx:112 | a tab selects a category |
| Quotes.QuotePreferences.SetMorningToast | src/pages/Quotes.tsx:182-185 | the switch sets the morning toast |
| Quotes.QuotePreferences.SetReminderInterval | src/pages/Quotes.tsx:194-199 | the interval can only become one of 2, 4, 8 and 12 hours |
| Settings.InitialFlags | src/pages/Settings.tsx:30-38 | every switch starts on except community activity, and mood tracking starts on |
| Settings.WithFlag | src/pages/Settings.tsx:204-299 | a switch sets its own flag, and every other flag, mood tracking included, keeps its value |
| Settings.ApplyAll | src/pages/Settings.tsx:204-299 | the flags after a run of switch events, one `WithFlag` per event; Settings.ApplyAllKeeps and Settings.ApplyAllLast state the result |
| Settings.ApplyAllKeeps | src/pages/Settings.tsx:30-38 | however the switches are used, mood tracking never changes, and an untouched switch keeps its flag |
| Settings.ApplyAllLast | src/pages/Settings.tsx:204-299 | after a run of switch events each switch shows the value of its last event |
| Settings.WithName | src/pages/Settings.tsx:111 | only the user's name changes |
| Settings.WithEmail | src/pages/Settings.tsx:120 | only the user's email changes |
| Settings.NameEmailIndependent | src/pages/Settings.tsx:111-120 | the name and email edits commute and do not disturb each other |
| Settings.SystemCardOutsideSchema | src/pages/Settings.tsx:416-429 | the system card's id is not a theme the schema accepts, and no card shows a stored "auto" theme as selected |
| Settings.CardTheme | src/pages/Settings.tsx:416-429 | the light and dark cards store the schema theme their id names, and the system card stands exactly for "auto" |
| Settings.CardThemeOneToOne | src/pages/Settings.tsx:416-429 | every schema theme is shown by exactly one card |
| Settings.WithTheme | src/pages/Settings.tsx:426-429 | a theme card changes only `preferences.theme` and leaves the rest of the preferences and the user alone (corrected mapping: System stores auto, where the page stores "system"; see ## Findings) |
| Settings.SplitJoin | src/pages/Settings.tsx:89 | joining the pieces of `split(' ')` with spaces gives back the name |
| Settings.SplitNoSpace | src/pages/Settings.tsx:89 | no piece of `split(' ')` holds a space |
| Settings.SplitAtSpace | src/pages/Settings.tsx:89 | splitting at a space splits each side on its own |
| Settings.FirstChar | src/pages/Settings.tsx:89 | `n[0]`, written by `join` as nothing for an empty piece: empty exactly for an empty piece, one character otherwise |
| Settings.HeadsConcat | src/pages/Settings.tsx:89 | the initials of concatenated piece lists are the concatenated initials |
| Settings.Initials | src/pages/Settings.tsx:89 | `name.split(' ').map(n => n[0]).join('')`; Settings.InitialsLaws states what it gives |
| Settings.InitialsLaws | src/pages/Settings.tsx:89 | a single word gives its first character, and a name with a space gives the initials of each side in turn |
| Settings.NoSpaceOnePiece | src/pages/Settings.tsx:89 | a string without spaces splits into itself alone |
| Settings.SettingsPage.constructor | src/pages/Settings.tsx:29-38 | the page opens on the given user with the initial notification flags |
| Settings.SettingsPage.SetSwitch | src/pages/Settings.tsx:204-299 | the flags become their switched version |
| Settings.SettingsPage.SetName | src/pages/Settings.tsx:111 | the user becomes the renamed user |
| Settings.SettingsPage.SetEmail | src/pages/Settings.tsx:120 | the user becomes the user with the new email |
| Settings.SettingsPage.SelectTheme | src/pages/Settings.tsx:426-429 | the user gets the theme the card stands for (corrected mapping: System stores auto, where the page stores "system"; see ## Findings) |

## Left out

- The HTTP call in `callGemini` (`src/pages/Chat.tsx:41-65`), its API key and the JSON field extraction are not modelled. The network step is the `Outcome` parameter, and every failure (transport, status, missing candidate) is one `Err`.
- Overlapping sends, and the interleaving of other page events with an unfinished send, are concurrency and are not modelled. `Chat.ChatSession.Send` assumes the reply settles before anything else happens. `Submit` and `Receive` are the two halves, for anyone composing other orders. The send button being disabled while typing is a UI guard and is not modelled.
- The two `Date.now()`/`new Date()` readings inside one handler are taken as one `Instant`. The model does not assume ids are unique. The `CompleteUniquePoints` lemma makes uniqueness an explicit precondition.
- Calendar days: `toDateString()` comparisons for `completedToday` are the `dayOf` parameter. The task form's `dueDate` text is kept as text, and `new Date(...)` parsing is not modelled.
- `Math.random` (the random quote, the mock calendar in the tracker, the random challenge card), toasts, `console.log`, `navigator.share` and `navigator.clipboard` calls, and `scrollIntoView` are foreign calls or randomness. `Quotes.HandleShare` models only which target the text goes to and with what text.
- Strings are sequences of Unicode code points. JavaScript's UTF-16 `length`, `n[0]` and `tokens: aiText.length` differ from the model only for characters outside the Basic Multilingual Plane.
- `Text.ToLower`: does not model full Unicode case mapping, only ASCII A-Z. Every tab name on these pages is ASCII.
- Every `z.number()` field (points, progress, score, duration, reaction counts, tokens, the reminder interval; `src/lib/types.ts`) and every JavaScript number is modelled as a mathematical integer, so fractional values and floating-point rounding, including in the `reduce` that sums points, are not modelled. The pages only ever store whole numbers far below 2^53, where JavaScript's addition is exact.
- The `Partial<MoodEntry>` that `handleSaveMood` logs is the plain `Tracker.MoodDraft` record. Logging it is console output and is not modelled.
- Dialog open/close buttons and the remaining input setters not listed in the table are single assignments with no logic.
- The static or routing-only pages (`src/pages/Moods.tsx`, `src/pages/Growth.tsx`, `src/pages/Dashboard.tsx`, `src/pages/Index.tsx`, `src/pages/auth/ForgotPassword.tsx`, `src/App.tsx`, `src/components/layout/*`) and the fixtures in `src/lib/mockData.ts` are not part of this model.

## Findings

| source | as written | input that shows it | evidently intended | confidence | as-written member | corrected member |
|---|---|---|---|---|---|---|
| src/pages/Settings.tsx:416-429 | the "System" theme card stores the id "system" through an `as any` cast, but the user schema (src/lib/types.ts:12) allows only light, dark and auto; so a stored "auto" theme is also shown by no card | clicking the System card; or a user whose stored theme is "auto" | the System card stands for the schema's "auto" theme, so every stored theme is valid and shown by exactly one card | not executed | Settings.SystemCardOutsideSchema (over Settings.CardThemeId) | Settings.CardTheme with Settings.CardThemeOneToOne, used by Settings.WithTheme |
