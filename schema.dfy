/** The record shapes of the application (`src/lib/types.ts`): each zod
    `z.enum` becomes a datatype, each `z.object` a record, each numeric range
    and default a predicate or constant, and `MOOD_EMOTIONS` a table. */
module Schema {
  import opened Seqs

  datatype Option<T> = None | Some(value: T)

  /** A clock reading (`Date.now()`, `new Date()`) in milliseconds. */
  type Instant = nat

  /** The signed-in user: every new task and post is filed under this id. */
  const CurrentUserId := "user-1"

  /** The category tab that shows every item, on every page that has tabs. */
  const AllTab := "All"

  // ---- User ----------------------------------------------------------

  datatype QuotesSchedule = Morning | Evening | Both | Off

  datatype Theme = Light | Dark | Auto

  function ThemeName(t: Theme): string {
    match t
    case Light => "light"
    case Dark => "dark"
    case Auto => "auto"
  }

  /** `z.enum(["light", "dark", "auto"])` applied to a string. */
  function ParseTheme(s: string): (r: Option<Theme>)
    ensures r.Some? ==> ThemeName(r.value) == s
  {
    if s == "light" then Some(Light)
    else if s == "dark" then Some(Dark)
    else if s == "auto" then Some(Auto)
    else None
  }

  /** Every theme's name is accepted by the schema and read back as itself. */
  lemma ParseThemeName(t: Theme)
    ensures ParseTheme(ThemeName(t)) == Some(t)
  {
  }

  datatype Preferences = Preferences(
    quotesSchedule: QuotesSchedule,
    notifications: bool,
    theme: Theme,
    reminderInterval: int)

  /** The defaults of the `preferences` object: morning, on, light, 4 hours. */
  const DefaultPreferences := Preferences(Morning, true, Light, 4)

  datatype User = User(
    id: string,
    name: string,
    email: string,
    avatarUrl: Option<string>,
    preferences: Preferences,
    createdAt: Instant)

  // ---- Mood entries --------------------------------------------------

  const MinScore := 1
  const MaxScore := 10

  /** `z.number().min(1).max(10)`. */
  predicate ValidScore(n: int) {
    MinScore <= n <= MaxScore
  }

  datatype MoodEntry = MoodEntry(
    id: string,
    userId: string,
    date: Instant,
    emoji: string,
    score: int,
    notes: Option<string>,
    tags: seq<string>,
    createdAt: Instant)

  predicate ValidMoodEntry(e: MoodEntry) {
    ValidScore(e.score)
  }

  // ---- Challenges ----------------------------------------------------

  datatype ChallengeCategory = Mindfulness | Gratitude | Movement | Social | Creativity

  function ChallengeCategoryName(c: ChallengeCategory): string {
    match c
    case Mindfulness => "mindfulness"
    case Gratitude => "gratitude"
    case Movement => "movement"
    case Social => "social"
    case Creativity => "creativity"
  }

  /** The category enum applied to a string. */
  function ParseChallengeCategory(s: string): (r: Option<ChallengeCategory>)
    ensures r.Some? ==> ChallengeCategoryName(r.value) == s
  {
    if s == "mindfulness" then Some(Mindfulness)
    else if s == "gratitude" then Some(Gratitude)
    else if s == "movement" then Some(Movement)
    else if s == "social" then Some(Social)
    else if s == "creativity" then Some(Creativity)
    else None
  }

  /** Every category's name is accepted and read back as itself. */
  lemma ParseChallengeCategoryName(c: ChallengeCategory)
    ensures ParseChallengeCategory(ChallengeCategoryName(c)) == Some(c)
  {
  }

  datatype ChallengeStatus = Available | Active | Completed | Paused

  function ChallengeStatusName(st: ChallengeStatus): string {
    match st
    case Available => "available"
    case Active => "active"
    case Completed => "completed"
    case Paused => "paused"
  }

  /** The challenge status enum applied to a string. */
  function ParseChallengeStatus(s: string): (r: Option<ChallengeStatus>)
    ensures r.Some? ==> ChallengeStatusName(r.value) == s
  {
    if s == "available" then Some(Available)
    else if s == "active" then Some(Active)
    else if s == "completed" then Some(ChallengeStatus.Completed)
    else if s == "paused" then Some(Paused)
    else None
  }

  /** Every challenge status's name is accepted and read back as itself. */
  lemma ParseChallengeStatusName(st: ChallengeStatus)
    ensures ParseChallengeStatus(ChallengeStatusName(st)) == Some(st)
  {
  }

  datatype Challenge = Challenge(
    id: string,
    title: string,
    description: string,
    category: ChallengeCategory,
    duration: int,
    points: int,
    status: ChallengeStatus,
    startDate: Option<Instant>,
    completedDate: Option<Instant>,
    progress: int)

  const DefaultPoints := 10
  const DefaultChallengeStatus := Available
  const DefaultProgress := 0

  /** `z.number().min(0).max(100)`. */
  predicate ValidProgress(n: int) {
    0 <= n <= 100
  }

  predicate ValidChallenge(c: Challenge) {
    ValidProgress(c.progress)
  }

  /** A challenge given only its required fields, defaults filled in as zod
      fills them: 10 points, available, no dates, progress 0. */
  function DefaultChallenge(id: string, title: string, description: string,
                            category: ChallengeCategory, duration: int): (c: Challenge)
    ensures ValidChallenge(c)
    ensures c.status == Available && c.points == 10 && c.progress == 0
    ensures c.startDate == None && c.completedDate == None
  {
    Challenge(id, title, description, category, duration, DefaultPoints,
              DefaultChallengeStatus, None, None, DefaultProgress)
  }

  // ---- Tasks ---------------------------------------------------------

  datatype Priority = Low | Medium | High

  datatype TaskStatus = Today | ThisWeek | Later | Completed

  function PriorityName(p: Priority): string {
    match p
    case Low => "low"
    case Medium => "medium"
    case High => "high"
  }

  function TaskStatusName(st: TaskStatus): string {
    match st
    case Today => "today"
    case ThisWeek => "this-week"
    case Later => "later"
    case Completed => "completed"
  }

  /** The priority enum applied to a string. */
  function ParsePriority(s: string): (r: Option<Priority>)
    ensures r.Some? ==> PriorityName(r.value) == s
  {
    if s == "low" then Some(Low)
    else if s == "medium" then Some(Medium)
    else if s == "high" then Some(High)
    else None
  }

  /** The task status enum applied to a string. */
  function ParseTaskStatus(s: string): (r: Option<TaskStatus>)
    ensures r.Some? ==> TaskStatusName(r.value) == s
  {
    if s == "today" then Some(Today)
    else if s == "this-week" then Some(ThisWeek)
    else if s == "later" then Some(Later)
    else if s == "completed" then Some(TaskStatus.Completed)
    else None
  }

  /** Every priority and task status name is accepted and read back as
      itself. */
  lemma ParseTaskEnumNames(p: Priority, st: TaskStatus)
    ensures ParsePriority(PriorityName(p)) == Some(p)
    ensures ParseTaskStatus(TaskStatusName(st)) == Some(st)
  {
  }

  const DefaultPriority := Medium
  const DefaultTaskStatus := Today

  datatype Task = Task(
    id: string,
    userId: string,
    title: string,
    description: Option<string>,
    dueDate: Option<string>,
    priority: Priority,
    status: TaskStatus,
    linkedChallengeId: Option<string>,
    createdAt: Instant,
    completedAt: Option<Instant>)

  // ---- Quotes --------------------------------------------------------

  /** The category a quote gets when none is given. */
  const DefaultQuoteCategory := "motivation"

  datatype Quote = Quote(
    id: string,
    text: string,
    author: Option<string>,
    category: string,
    moodTags: seq<string>,
    isDaily: bool)

  // ---- Community posts -----------------------------------------------

  datatype PostCategory = General | Support | Celebration | Advice

  function PostCategoryName(c: PostCategory): string {
    match c
    case General => "general"
    case Support => "support"
    case Celebration => "celebration"
    case Advice => "advice"
  }

  /** The post category enum applied to a string. */
  function ParsePostCategory(s: string): (r: Option<PostCategory>)
    ensures r.Some? ==> PostCategoryName(r.value) == s
  {
    if s == "general" then Some(General)
    else if s == "support" then Some(Support)
    else if s == "celebration" then Some(Celebration)
    else if s == "advice" then Some(Advice)
    else None
  }

  /** Every post category's name is accepted and read back as itself. */
  lemma ParsePostCategoryName(c: PostCategory)
    ensures ParsePostCategory(PostCategoryName(c)) == Some(c)
  {
  }

  datatype ReactionKind = Heart | Hug | Star

  datatype Reactions = Reactions(heart: int, hug: int, star: int) {
    /** `reactions[kind]`. */
    function Count(kind: ReactionKind): int {
      match kind
      case Heart => heart
      case Hug => hug
      case Star => star
    }
  }

  /** Each counter defaults to 0. */
  const NoReactions := Reactions(0, 0, 0)

  datatype Post = Post(
    id: string,
    authorId: string,
    authorName: string,
    isAnonymous: bool,
    title: string,
    content: string,
    category: PostCategory,
    tags: seq<string>,
    reactions: Reactions,
    createdAt: Instant,
    updatedAt: Instant)

  // ---- Chat messages -------------------------------------------------

  datatype Role = UserRole | AssistantRole

  datatype Sentiment = Positive | Neutral | Negative

  datatype Message = Message(
    id: string,
    role: Role,
    content: string,
    tokens: Option<int>,
    sentiment: Option<Sentiment>,
    createdAt: Instant)

  // ---- Mood emotions -------------------------------------------------

  datatype Emotion = Emotion(emoji: string, moodLabel: string, value: int, color: string)

  /** `MOOD_EMOTIONS`: the eight moods offered by the tracker. */
  const MoodEmotions: seq<Emotion> := [
    Emotion("\U{1F60A}", "Happy", 8, "mood-joy"),
    Emotion("\U{1F60C}", "Calm", 7, "mood-calm"),
    Emotion("\U{1F610}", "Neutral", 5, "mood-neutral"),
    Emotion("\U{1F614}", "Sad", 3, "mood-sad"),
    Emotion("\U{1F630}", "Anxious", 4, "mood-anxious"),
    Emotion("\U{1F621}", "Angry", 2, "mood-angry"),
    Emotion("\U{1F917}", "Grateful", 9, "mood-joy"),
    Emotion("\U{1F634}", "Tired", 4, "mood-neutral")
  ]

  /** The emoji column of a mood table. */
  function Emojis(es: seq<Emotion>): seq<string> {
    seq(|es|, i requires 0 <= i < |es| => es[i].emoji)
  }

  /** The label column of a mood table. */
  function Labels(es: seq<Emotion>): seq<string> {
    seq(|es|, i requires 0 <= i < |es| => es[i].moodLabel)
  }

  /** The table names every mood once (distinct emoji, distinct labels) and
      gives each a value inside the mood-score range. */
  lemma MoodEmotionsWellFormed()
    ensures NoDup(Emojis(MoodEmotions)) && NoDup(Labels(MoodEmotions))
    ensures forall i :: 0 <= i < |MoodEmotions| ==> ValidScore(MoodEmotions[i].value)
  {
  }
}
