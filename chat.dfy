/** The chat page (`src/pages/Chat.tsx`): the append-only message log, the
    blank-input guard of a send, the outbound prompt, the clean-up applied to
    a reply, and the session's token total. The network call itself is an
    abstract outcome handed to the send. */
module Chat {
  import opened Text
  import opened Seqs
  import opened Schema

  /** The fixed instruction text put in front of every user input. */
  const Preamble: string :=
    "You are AI mental health companion. " +
    "1.do sentiment analysis 2. reply in a " +
    "supportive, motivating, therapist-like " +
    "way (no diagnoses) according to the " +
    "sentiment , reply, 1-3 follow-up " +
    "questions, 1-2 micro-steps(optional), " +
    "and crisis resources if risk is " +
    "detected. The answer in direct humanly " +
    "type way and give ans in points or para " +
    ", dont use bold "

  /** The fallback reply for every failure of the network step. */
  const Apology: string := "Sorry, there was an error getting a response."

  /** What the network step settles to: the first candidate's text, or any
      failure (transport, status, missing candidate) collapsed into one. */
  datatype Outcome = Ok(text: string) | Err

  /** The single text part sent to the service: preamble, then the raw input. */
  function Prompt(input: string): (r: string)
    ensures |r| == |Preamble| + |input|
    ensures r[..|Preamble|] == Preamble && r[|Preamble|..] == input
  {
    Preamble + input
  }

  // ---- Reply normalisation: trim, drop '\r', collapse blank-line runs ---

  /** No three consecutive line feeds. */
  predicate NoTripleNewline(s: string) {
    forall i :: 0 <= i && i + 2 < |s| ==> !(s[i] == '\n' && s[i + 1] == '\n' && s[i + 2] == '\n')
  }

  /** What a normalised reply looks like: trimmed, free of carriage returns,
      and with no run of three or more line feeds. */
  predicate IsNormalized(s: string) {
    (s == [] || (!IsWhitespace(s[0]) && !IsWhitespace(s[|s| - 1]))) &&
    (forall i :: 0 <= i < |s| ==> s[i] != '\r') &&
    NoTripleNewline(s)
  }

  predicate NotCarriageReturn(c: char) {
    c != '\r'
  }

  predicate NotNewline(c: char) {
    c != '\n'
  }

  /** `.replace(/\r/g, '')`. */
  function RemoveCarriageReturns(s: string): (r: string)
    ensures forall i :: 0 <= i < |r| ==> r[i] != '\r' && r[i] in s
    ensures forall i :: 0 <= i < |s| && s[i] != '\r' ==> s[i] in r
  {
    Filter(NotCarriageReturn, s)
  }

  /** The length of the run of line feeds `s` starts with. */
  function LeadingNewlines(s: string): (k: nat)
    ensures k <= |s|
    ensures forall i :: 0 <= i < k ==> s[i] == '\n'
    ensures k < |s| ==> s[k] != '\n'
  {
    if s != [] && s[0] == '\n' then 1 + LeadingNewlines(s[1..]) else 0
  }

  /** `.replace(/\n{3,}/g, '\n\n')`: the global, greedy regular expression
      replaces every maximal run of at least three line feeds by two and
      leaves shorter runs alone. */
  function CollapseNewlines(s: string): (r: string)
    ensures |r| <= |s|
    ensures s != [] && s[0] != '\n' ==> r != [] && r[0] == s[0]
    decreases |s|
  {
    if s == [] then []
    else if s[0] != '\n' then [s[0]] + CollapseNewlines(s[1..])
    else
      var k := LeadingNewlines(s);
      (if k >= 3 then "\n\n" else s[..k]) + CollapseNewlines(s[k..])
  }

  /** The collapsed text never has three line feeds in a row. */
  lemma {:induction false} CollapseNoTriple(s: string)
    ensures NoTripleNewline(CollapseNewlines(s))
    decreases |s|
  {
    if s == [] {
    } else if s[0] != '\n' {
      CollapseNoTriple(s[1..]);
      NoTripleAfterChar(s[0], CollapseNewlines(s[1..]));
    } else {
      var k := LeadingNewlines(s);
      var run: string := if k >= 3 then "\n\n" else s[..k];
      var rest := CollapseNewlines(s[k..]);
      CollapseNoTriple(s[k..]);
      assert CollapseNewlines(s) == run + rest;
      NoTripleAfterRun(run, rest);
    }
  }

  lemma NoTripleAfterChar(c: char, rest: string)
    requires c != '\n' && NoTripleNewline(rest)
    ensures NoTripleNewline([c] + rest)
  {
    var t := [c] + rest;
    forall i | 0 <= i && i + 2 < |t|
      ensures !(t[i] == '\n' && t[i + 1] == '\n' && t[i + 2] == '\n')
    {
      if i > 0 {
        assert t[i] == rest[i - 1] && t[i + 1] == rest[i] && t[i + 2] == rest[i + 1];
      }
    }
  }

  lemma NoTripleAfterRun(run: string, rest: string)
    requires |run| <= 2 && NoTripleNewline(rest) && (rest == [] || rest[0] != '\n')
    ensures NoTripleNewline(run + rest)
  {
    var t := run + rest;
    forall i | 0 <= i && i + 2 < |t|
      ensures !(t[i] == '\n' && t[i + 1] == '\n' && t[i + 2] == '\n')
    {
      if i >= |run| {
        assert t[i] == rest[i - |run|] && t[i + 1] == rest[i - |run| + 1] && t[i + 2] == rest[i - |run| + 2];
      } else {
        assert t[|run|] == rest[0];
      }
    }
  }

  /** A text that does not end in a line feed keeps its last character. */
  lemma {:induction false} CollapseLast(s: string)
    requires s != [] && s[|s| - 1] != '\n'
    ensures var r := CollapseNewlines(s); r != [] && r[|r| - 1] == s[|s| - 1]
    decreases |s|
  {
    if s[0] != '\n' {
      if |s| > 1 {
        CollapseLast(s[1..]);
      }
    } else {
      var k := LeadingNewlines(s);
      CollapseLast(s[k..]);
    }
  }

  /** Every character of the collapsed text comes from the original. */
  lemma {:induction false} CollapseChars(s: string)
    ensures forall i :: 0 <= i < |CollapseNewlines(s)| ==> CollapseNewlines(s)[i] in s
    decreases |s|
  {
    if s == [] {
    } else if s[0] != '\n' {
      CollapseChars(s[1..]);
    } else {
      var k := LeadingNewlines(s);
      CollapseChars(s[k..]);
      assert s[0] in s;
    }
  }

  /** Text with no run of three line feeds is left as it is. */
  lemma {:induction false} CollapseIdentity(s: string)
    requires NoTripleNewline(s)
    ensures CollapseNewlines(s) == s
    decreases |s|
  {
    if s == [] {
    } else if s[0] != '\n' {
      assert NoTripleNewline(s[1..]) by {
        forall i | 0 <= i && i + 2 < |s[1..]|
          ensures !(s[1..][i] == '\n' && s[1..][i + 1] == '\n' && s[1..][i + 2] == '\n')
        {
          assert s[1..][i] == s[i + 1];
        }
      }
      CollapseIdentity(s[1..]);
      assert s == [s[0]] + s[1..];
    } else {
      var k := LeadingNewlines(s);
      assert k < 3;
      assert NoTripleNewline(s[k..]) by {
        forall i | 0 <= i && i + 2 < |s[k..]|
          ensures !(s[k..][i] == '\n' && s[k..][i + 1] == '\n' && s[k..][i + 2] == '\n')
        {
          assert s[k..][i] == s[k + i];
        }
      }
      CollapseIdentity(s[k..]);
      assert s == s[..k] + s[k..];
    }
  }

  /** Collapsing touches nothing but line feeds: with the line feeds taken
      out, the text before and after is the same. */
  lemma {:induction false} CollapseKeepsText(s: string)
    ensures Filter(NotNewline, CollapseNewlines(s)) == Filter(NotNewline, s)
    decreases |s|
  {
    if s == [] {
    } else if s[0] != '\n' {
      var rest := CollapseNewlines(s[1..]);
      CollapseKeepsText(s[1..]);
      FilterConcat(NotNewline, [s[0]], rest);
      assert CollapseNewlines(s) == [s[0]] + rest;
      assert Filter(NotNewline, [s[0]]) == [s[0]];
      assert Filter(NotNewline, s) == [s[0]] + Filter(NotNewline, s[1..]);
    } else {
      var k := LeadingNewlines(s);
      var tail := s[k..];
      SplitAt(s, k);
      FilterConcat(NotNewline, s[..k], tail);
      FilterNone(NotNewline, s[..k]);
      var run: string := if k >= 3 then "\n\n" else s[..k];
      var rest := CollapseNewlines(tail);
      assert CollapseNewlines(s) == run + rest;
      CollapseKeepsText(tail);
      FilterConcat(NotNewline, run, rest);
      FilterNone(NotNewline, run);
    }
  }

  lemma SplitAt(s: string, k: nat)
    requires k <= |s|
    ensures s == s[..k] + s[k..]
  {
  }

  /** The reply clean-up: trim, drop every carriage return, collapse runs
      of blank lines. The result is always normalised. */
  function Normalize(s: string): (r: string)
    ensures IsNormalized(r)
  {
    CleanTrimmed(Trim(s));
    CollapseNewlines(RemoveCarriageReturns(Trim(s)))
  }

  /** The last two steps keep a trimmed text trimmed and leave no carriage
      return and no run of three line feeds. */
  lemma CleanTrimmed(t: string)
    requires t == [] || (!IsWhitespace(t[0]) && !IsWhitespace(t[|t| - 1]))
    ensures IsNormalized(CollapseNewlines(RemoveCarriageReturns(t)))
  {
    var u := RemoveCarriageReturns(t);
    CollapseNoTriple(u);
    CollapseChars(u);
    if t != [] {
      FilterFirst(NotCarriageReturn, t);
      FilterLast(NotCarriageReturn, t);
      assert u[0] == t[0] && u[|u| - 1] == t[|t| - 1];
      CollapseLast(u);
    } else {
      assert u == [];
    }
  }

  /** A string is left unchanged by normalisation exactly when it is already
      normalised. */
  lemma NormalizeFixedPoints(s: string)
    ensures Normalize(s) == s <==> IsNormalized(s)
  {
    if IsNormalized(s) {
      TrimOfTrimmed(s);
      FilterAll(NotCarriageReturn, s);
      assert RemoveCarriageReturns(s) == s;
      CollapseIdentity(s);
    }
  }

  /** Normalising a normalised reply changes nothing. */
  lemma NormalizeIdempotent(s: string)
    ensures Normalize(Normalize(s)) == Normalize(s)
  {
    NormalizeFixedPoints(Normalize(s));
  }

  /** A reply with a four-line-feed gap comes out with a single blank line. */
  lemma NormalizeExample()
    ensures Normalize("Take a breath.\n\n\n\nYou are safe.") == "Take a breath.\n\nYou are safe."
  {
    var a, b, run := "Take a breath.", "You are safe.", "\n\n\n\n";
    assert a + (run + b) == "Take a breath.\n\n\n\nYou are safe.";
    assert a + ("\n\n" + b) == "Take a breath.\n\nYou are safe.";
    NormalizeGap(a, run, b);
  }

  /** Two trimmed lines without line breaks, separated by three or more line
      feeds, come out separated by exactly two. */
  lemma NormalizeGap(a: string, run: string, b: string)
    requires a != [] && !IsWhitespace(a[0]) && b != [] && !IsWhitespace(b[|b| - 1])
    requires forall i :: 0 <= i < |a| ==> a[i] != '\n' && a[i] != '\r'
    requires forall i :: 0 <= i < |b| ==> b[i] != '\n' && b[i] != '\r'
    requires |run| >= 3 && forall i :: 0 <= i < |run| ==> run[i] == '\n'
    ensures Normalize(a + (run + b)) == a + ("\n\n" + b)
  {
    var s := a + (run + b);
    assert s[0] == a[0] && s[|s| - 1] == b[|b| - 1];
    TrimOfTrimmed(s);
    assert forall i :: 0 <= i < |s| ==> NotCarriageReturn(s[i]) by {
      forall i | 0 <= i < |s|
        ensures NotCarriageReturn(s[i])
      {
        if i < |a| {
          assert s[i] == a[i];
        } else if i < |a| + |run| {
          assert s[i] == run[i - |a|];
        } else {
          assert s[i] == b[i - |a| - |run|];
        }
      }
    }
    FilterAll(NotCarriageReturn, s);
    CollapseAfterPlain(a, run + b);
    CollapseLongRun(run, b);
    CollapseAfterPlain(b, []);
    assert b + [] == b;
  }

  /** Text without line feeds passes through the collapse unchanged. */
  lemma {:induction false} CollapseAfterPlain(a: string, t: string)
    requires forall i :: 0 <= i < |a| ==> a[i] != '\n'
    ensures CollapseNewlines(a + t) == a + CollapseNewlines(t)
    decreases |a|
  {
    if a != [] {
      assert (a + t)[0] == a[0] && (a + t)[1..] == a[1..] + t;
      CollapseAfterPlain(a[1..], t);
      assert a == [a[0]] + a[1..];
    } else {
      assert a + t == t;
    }
  }

  /** A run of three or more line feeds becomes exactly two. */
  lemma CollapseLongRun(run: string, t: string)
    requires |run| >= 3 && forall i :: 0 <= i < |run| ==> run[i] == '\n'
    requires t == [] || t[0] != '\n'
    ensures CollapseNewlines(run + t) == "\n\n" + CollapseNewlines(t)
  {
    var s := run + t;
    RunLength(run, t);
    assert s[|run|..] == t;
  }

  lemma {:induction false} RunLength(run: string, t: string)
    requires forall i :: 0 <= i < |run| ==> run[i] == '\n'
    requires t == [] || t[0] != '\n'
    ensures LeadingNewlines(run + t) == |run|
    decreases |run|
  {
    if run != [] {
      assert (run + t)[1..] == run[1..] + t;
      RunLength(run[1..], t);
    } else {
      assert run + t == t;
    }
  }

  // ---- Messages -------------------------------------------------------

  /** The message recorded for what the user typed: the raw, untrimmed input
      with a neutral sentiment and no token count. */
  function UserMessage(input: string, sentAt: Instant): (m: Message)
    ensures m.role == UserRole && m.content == input
    ensures m.sentiment == Some(Neutral) && m.tokens == None
  {
    Message("msg-" + DecimalText(sentAt), UserRole, input, None, Some(Neutral), sentAt)
  }

  /** The assistant message recorded once the network step settles. */
  function ReplyMessage(outcome: Outcome, repliedAt: Instant): (m: Message)
    ensures m.role == AssistantRole
    ensures outcome.Ok? ==> m.content == Normalize(outcome.text) && IsNormalized(m.content) &&
                            m.sentiment == Some(Positive) && m.tokens == Some(|m.content|)
    ensures outcome.Err? ==> m.content == Apology && m.sentiment == Some(Negative) && m.tokens == None
  {
    match outcome
    case Ok(text) =>
      var clean := Normalize(text);
      Message("msg-" + DecimalText(repliedAt) + "-ai", AssistantRole, clean, Some(|clean|),
              Some(Positive), repliedAt)
    case Err =>
      Message("msg-" + DecimalText(repliedAt) + "-err", AssistantRole, Apology, None,
              Some(Negative), repliedAt)
  }

  /** `msg.tokens || 0`. */
  function TokensOf(m: Message): int {
    match m.tokens
    case Some(n) => n
    case None => 0
  }

  /** The "Tokens used" figure: the sum of every message's tokens. */
  function TokenTotal(messages: seq<Message>): int {
    Sum(TokensOf, messages)
  }

  /** Appending a message adds exactly its own tokens to the total. */
  lemma TokenTotalAppend(messages: seq<Message>, m: Message)
    ensures TokenTotal(messages + [m]) == TokenTotal(messages) + TokensOf(m)
  {
    SumConcat(TokensOf, messages, [m]);
  }

  /** One exchange raises the total by the clean reply's length on success and
      leaves it unchanged on failure: the user message counts 0. */
  lemma ExchangeTokenTotal(messages: seq<Message>, input: string, sentAt: Instant,
                           outcome: Outcome, repliedAt: Instant)
    ensures TokenTotal(messages + [UserMessage(input, sentAt), ReplyMessage(outcome, repliedAt)]) ==
            TokenTotal(messages) + (if outcome.Ok? then |Normalize(outcome.text)| else 0)
  {
    var u := UserMessage(input, sentAt);
    var a := ReplyMessage(outcome, repliedAt);
    assert messages + [u, a] == (messages + [u]) + [a];
    TokenTotalAppend(messages, u);
    TokenTotalAppend(messages + [u], a);
  }

  // ---- The page state -------------------------------------------------

  class ChatSession {
    var messages: seq<Message>
    var input: string
    var isTyping: bool

    constructor (initial: seq<Message>)
      ensures messages == initial && input == "" && !isTyping
    {
      messages, input, isTyping := initial, "", false;
    }

    /** The text area's change handler, and a quick-reply chip. */
    method SetInput(text: string)
      modifies this`input
      ensures input == text
    {
      input := text;
    }

    /** The synchronous half of a send: the guard, the user message, clearing
        the input and raising the typing flag. Returns the prompt the network
        step is issued with, or `None` when the input was blank. */
    method Submit(sentAt: Instant) returns (prompt: Option<string>)
      modifies this
      ensures IsBlank(old(input)) ==>
        prompt == None && messages == old(messages) && input == old(input) && isTyping == old(isTyping)
      ensures !IsBlank(old(input)) ==>
        prompt == Some(Prompt(old(input))) &&
        messages == old(messages) + [UserMessage(old(input), sentAt)] &&
        input == "" && isTyping
    {
      if IsBlank(input) {
        return None;
      }
      prompt := Some(Prompt(input));
      messages := messages + [UserMessage(input, sentAt)];
      input := "";
      isTyping := true;
    }

    /** The half that runs once the network step settles: exactly one
        assistant message, success or fallback, then the typing flag drops. */
    method Receive(outcome: Outcome, repliedAt: Instant)
      modifies this`messages, this`isTyping
      ensures messages == old(messages) + [ReplyMessage(outcome, repliedAt)]
      ensures !isTyping
    {
      messages := messages + [ReplyMessage(outcome, repliedAt)];
      isTyping := false;
    }

    /** A whole send whose network step settles before anything else happens
        on the page. Earlier messages are never touched: the log only grows. */
    method Send(outcome: Outcome, sentAt: Instant, repliedAt: Instant) returns (prompt: Option<string>)
      modifies this
      ensures IsBlank(old(input)) ==>
        prompt == None && messages == old(messages) && input == old(input) && isTyping == old(isTyping)
      ensures !IsBlank(old(input)) ==>
        prompt == Some(Prompt(old(input))) &&
        messages == old(messages) + [UserMessage(old(input), sentAt), ReplyMessage(outcome, repliedAt)] &&
        input == "" && !isTyping
      ensures TokenTotal(messages) ==
        TokenTotal(old(messages)) + (if prompt.Some? && outcome.Ok? then |Normalize(outcome.text)| else 0)
    {
      prompt := Submit(sentAt);
      if prompt.Some? {
        Receive(outcome, repliedAt);
        ExchangeTokenTotal(old(messages), old(input), sentAt, outcome, repliedAt);
        assert messages == old(messages) + [UserMessage(old(input), sentAt), ReplyMessage(outcome, repliedAt)];
      }
    }
  }
}
