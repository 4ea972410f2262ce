/** Extraction of the final answer from an agent's message list, shared by
    `execute_asana_query` and `execute_knowledge_base_query`: walk the
    messages from the newest, skip those without text or with pending tool
    calls, cut out `<thinking>...</thinking>` spans, strip whitespace, and
    return the first non-empty text. */
module Extraction {
  import opened Text

  // ------------------------------------------------------ reasoning spans

  const Open: string := "<thinking>"
  const Close: string := "</thinking>"

  /** The first index at or after `from` where `pat` occurs in `s`. */
  function FindFrom(s: string, pat: string, from: nat): (r: Option<nat>)
    decreases |s| - from
    ensures r.Some? ==> from <= r.value && OccursAt(s, pat, r.value)
    ensures r.Some? ==> forall p: nat | from <= p < r.value :: !OccursAt(s, pat, p)
    ensures r.None? ==> forall p: nat | from <= p :: !OccursAt(s, pat, p)
  {
    if from + |pat| > |s| then None
    else if OccursAt(s, pat, from) then Some(from)
    else FindFrom(s, pat, from + 1)
  }

  /** `re.sub(r'<thinking>.*?</thinking>', '', s, flags=re.DOTALL)`, as
      the regex engine scans: at each position, an opener followed later by
      a closer is cut up to and including the earliest such closer (`.*?`
      is lazy, and DOTALL lets it cross newlines) and the scan resumes
      after it; otherwise the character is kept and the scan moves on. */
  function StripThinking(s: string): (r: string)
    decreases |s|
    ensures |r| <= |s|
  {
    if s == [] then []
    else if OccursAt(s, Open, 0) then
      match FindFrom(s, Close, |Open|)
      case Some(j) => StripThinking(s[j + |Close|..])
      case None => [s[0]] + StripThinking(s[1..])
    else [s[0]] + StripThinking(s[1..])
  }

  lemma TailContained(s: string, sub: string)
    requires s != [] && Contains(s[1..], sub)
    ensures Contains(s, sub)
  {
    SuffixContained(s, 1);
    ContainsTrans(s, s[1..], sub);
  }

  /** Text without an opener is left as it is. */
  lemma {:induction false} NoOpenerUnchanged(s: string)
    requires !Contains(s, Open)
    ensures StripThinking(s) == s
  {
    if s != [] {
      if Contains(s[1..], Open) { TailContained(s, Open); }
      NoOpenerUnchanged(s[1..]);
    }
  }

  /** Text without a closer anywhere is left as it is. */
  lemma {:induction false} NoCloserUnchanged(s: string)
    requires !Contains(s, Close)
    ensures StripThinking(s) == s
  {
    if s != [] {
      var f := FindFrom(s, Close, |Open|);
      if f.Some? { ContainsAt(s, Close, f.value); }
      if Contains(s[1..], Close) { TailContained(s, Close); }
      NoCloserUnchanged(s[1..]);
    }
  }

  /** An opener that no closer follows is kept, with everything after it,
      even where a closer comes before it: with no opener before `p` and
      no closer from `p` on, the text is left as it is. */
  lemma {:induction false} NoLaterCloser(s: string, p: nat)
    requires p <= |s|
    requires forall q: nat | q < p :: !OccursAt(s, Open, q)
    requires forall q: nat | p <= q :: !OccursAt(s, Close, q)
    ensures StripThinking(s) == s
    decreases |s|
  {
    if s != [] {
      var t := s[1..];
      var p' := if p == 0 then 0 else p - 1;
      forall q: nat | q < p' ensures !OccursAt(t, Open, q) {
        OccursInTail(s, Open, q);
      }
      forall q: nat | p' <= q ensures !OccursAt(t, Close, q) {
        OccursInTail(s, Close, q);
      }
      NoLaterCloser(t, p');
    }
  }

  /** The scan at an opener whose earliest closer ends the span `m`. */
  lemma SpanAtStart(m: string, b: string)
    requires !Contains(m + Close[..|Close| - 1], Close)
    ensures StripThinking(Open + m + Close + b) == StripThinking(b)
  {
    var s := Open + m + Close + b;
    assert OccursAt(s, Open, 0) by { assert s[..|Open|] == Open; }
    var j := |Open| + |m|;
    assert OccursAt(s, Close, j) by {
      assert s[j..j + |Close|] == Close;
    }
    var f := FindFrom(s, Close, |Open|);
    assert f == Some(j) by {
      if f.Some? && f.value < j {
        var p := f.value;
        var mc := m + Close[..|Close| - 1];
        assert s[|Open|..|Open| + |mc|] == mc;
        OccursInSlice(s, Close, p, |Open|, |Open| + |mc|);
      }
    }
    assert s[j + |Close|..] == b;
    assert StripThinking(s) == StripThinking(s[j + |Close|..]);
  }

  /** No opener starting in `a` means none starting in its tail. */
  lemma TailNoOpener(a: string)
    requires a != [] && !Contains(a + Open[..|Open| - 1], Open)
    ensures !Contains(a[1..] + Open[..|Open| - 1], Open)
  {
    var pre := a + Open[..|Open| - 1];
    assert pre[1..] == a[1..] + Open[..|Open| - 1];
    if Contains(pre[1..], Open) { TailContained(pre, Open); }
  }

  lemma HeadThenTail(a: string, x: string)
    requires a != []
    ensures [a[0]] + (a[1..] + x) == a + x
  {
  }

  /** Where no opener starts at the front, the scan keeps the first
      character and moves on. */
  lemma KeepsHead(a: string, m: string, b: string)
    requires a != [] && !Contains(a + Open[..|Open| - 1], Open)
    ensures StripThinking(a + Open + m + Close + b) == [a[0]] + StripThinking(a[1..] + Open + m + Close + b)
  {
    var s := a + Open + m + Close + b;
    var pre := a + Open[..|Open| - 1];
    assert s[..|Open|] == pre[..|Open|];
    assert !OccursAt(pre, Open, 0);
    assert s[1..] == a[1..] + Open + m + Close + b;
  }

  /** The inductive step of `SpanRemoved`: one kept character in front. */
  lemma SpanAfterHead(a: string, m: string, b: string)
    requires a != [] && !Contains(a + Open[..|Open| - 1], Open)
    requires StripThinking(a[1..] + Open + m + Close + b) == a[1..] + StripThinking(b)
    ensures StripThinking(a + Open + m + Close + b) == a + StripThinking(b)
  {
    KeepsHead(a, m, b);
    var rest := StripThinking(b);
    HeadThenTail(a, rest);
  }

  /** One span is cut: with no opener starting in `a`, and no closer
      starting in `m` (so the closer after `m` is the earliest one), the
      span from the opener through that closer disappears, newlines
      included, and the scan goes on with `b`. */
  lemma {:induction false} SpanRemoved(a: string, m: string, b: string)
    requires !Contains(a + Open[..|Open| - 1], Open)
    requires !Contains(m + Close[..|Close| - 1], Close)
    ensures StripThinking(a + Open + m + Close + b) == a + StripThinking(b)
    decreases |a|
  {
    if a == [] {
      assert a + Open + m + Close + b == Open + m + Close + b;
      SpanAtStart(m, b);
    } else {
      TailNoOpener(a);
      SpanRemoved(a[1..], m, b);
      SpanAfterHead(a, m, b);
    }
  }

  // ------------------------------------------------------------- messages

  /** Who produced a message. The extractor never looks at it. */
  datatype Role = Human | Ai | ToolResult

  /** A message of the agent's output: its text (empty when it has none)
      and whether it still carries tool calls. */
  datatype Message = Message(role: Role, content: string, hasToolCalls: bool)

  /** The text the extractor returns for one message, or None when it moves
      on to the message before. */
  function Answer(m: Message): (r: Option<string>)
    ensures r.Some? ==> m.content != [] && !m.hasToolCalls
    ensures r.Some? ==> r.value != [] && Trimmed(r.value)
  {
    if m.content == [] || m.hasToolCalls then None
    else
      var text := Strip(StripThinking(m.content));
      if text == [] then None else Some(text)
  }

  /** The value `answer` gives the newest message for which it gives one,
      scanning back from the end of the list. */
  function Newest(ms: seq<Message>, answer: Message -> Option<string>): Option<string>
  {
    if ms == [] then None
    else if answer(ms[|ms| - 1]).Some? then answer(ms[|ms| - 1])
    else Newest(ms[..|ms| - 1], answer)
  }

  /** Whatever the scan returns is the value of some message. */
  lemma {:induction false} NewestOfSome(ms: seq<Message>, answer: Message -> Option<string>)
    ensures Newest(ms, answer).Some? ==>
      exists k | 0 <= k < |ms| :: answer(ms[k]) == Newest(ms, answer)
  {
    if ms != [] && answer(ms[|ms| - 1]).None? {
      var init := ms[..|ms| - 1];
      NewestOfSome(init, answer);
      if Newest(init, answer).Some? {
        var k :| 0 <= k < |init| && answer(init[k]) == Newest(init, answer);
        assert init[k] == ms[k];
      }
    }
  }

  /** The scan finds nothing exactly when no message has a value. */
  lemma {:induction false} NewestNone(ms: seq<Message>, answer: Message -> Option<string>)
    ensures Newest(ms, answer).None? <==> forall k | 0 <= k < |ms| :: answer(ms[k]).None?
  {
    if ms != [] {
      var init := ms[..|ms| - 1];
      NewestNone(init, answer);
      assert forall k | 0 <= k < |init| :: init[k] == ms[k];
    }
  }

  /** The scan returns the value of the newest message that has one. */
  lemma {:induction false} NewestAt(ms: seq<Message>, answer: Message -> Option<string>, k: nat)
    requires k < |ms| && answer(ms[k]).Some?
    requires forall j | k < j < |ms| :: answer(ms[j]).None?
    ensures Newest(ms, answer) == answer(ms[k])
    decreases |ms|
  {
    if k < |ms| - 1 {
      var init := ms[..|ms| - 1];
      assert forall j | k < j < |init| :: init[j] == ms[j];
      NewestAt(init, answer, k);
    }
  }

  /** The answer of the newest message that has one. */
  function LastAnswer(ms: seq<Message>): (r: Option<string>)
    ensures r.Some? ==> r.value != [] && Trimmed(r.value)
  {
    NewestOfSome(ms, Answer);
    Newest(ms, Answer)
  }

  /** No message of `ms` has an answer. */
  predicate Silent(ms: seq<Message>) {
    forall k | 0 <= k < |ms| :: Answer(ms[k]).None?
  }

  /** No answer exactly when no message has one. */
  lemma LastAnswerNone(ms: seq<Message>)
    ensures LastAnswer(ms).None? <==> Silent(ms)
  {
    NewestNone(ms, Answer);
  }

  /** The answer is that of the newest message that has one: every message
      after it is passed over. */
  lemma LastAnswerIsNewest(ms: seq<Message>, k: nat)
    requires k < |ms| && Answer(ms[k]).Some?
    requires forall j | k < j < |ms| :: Answer(ms[j]).None?
    ensures LastAnswer(ms) == Answer(ms[k])
  {
    NewestAt(ms, Answer, k);
  }

  const ProcessingError: string := "申し訳ございません。応答の処理中にエラーが発生しました。"

  /** The reply for the agent's `messages` entry, which may be missing;
      `notFound` is the caller's text for a list without an answer. */
  function ExtractReply(messages: Option<seq<Message>>, notFound: string): (r: string)
    ensures messages.None? || messages == Some([]) ==> r == ProcessingError
    ensures messages.Some? && messages.value != [] ==>
      match LastAnswer(messages.value)
      case Some(a) => r == a
      case None => r == notFound
  {
    match messages
    case None => ProcessingError
    case Some(ms) =>
      if ms == [] then ProcessingError
      else
        match LastAnswer(ms)
        case Some(a) => a
        case None => notFound
  }

  /** The extraction loop itself: a backward walk with `continue` and an
      early return. */
  method ExtractResponse(messages: Option<seq<Message>>, notFound: string) returns (reply: string)
    ensures reply == ExtractReply(messages, notFound)
  {
    if messages.None? || messages.value == [] {
      return ProcessingError;
    }
    var ms := messages.value;
    var i := |ms|;
    assert ms[..i] == ms;
    while i > 0
      invariant 0 <= i <= |ms|
      invariant LastAnswer(ms) == LastAnswer(ms[..i])
    {
      var message := ms[i - 1];
      assert ms[..i][..i - 1] == ms[..i - 1];
      i := i - 1;
      if message.content == [] || message.hasToolCalls {
        continue;
      }
      var content := Strip(StripThinking(message.content));
      if content == [] {
        continue;
      }
      return content;
    }
    return notFound;
  }

  // --------------------------------------------------------- properties

  /** A newer message with pending tool calls never hides an older answer,
      whatever text it carries. */
  lemma ToolCallsSkipped(ms: seq<Message>, m: Message)
    requires m.hasToolCalls
    ensures LastAnswer(ms + [m]) == LastAnswer(ms)
  {
    assert (ms + [m])[..|ms|] == ms;
  }

  /** A newer message that is empty once its reasoning is cut and its
      whitespace stripped gives way to the older ones. */
  lemma BlankSkipped(ms: seq<Message>, m: Message)
    requires Strip(StripThinking(m.content)) == []
    ensures LastAnswer(ms + [m]) == LastAnswer(ms)
  {
    assert (ms + [m])[..|ms|] == ms;
  }

  /** The extractor does not check roles: a human message with text is
      returned like any other, when nothing newer answers. */
  lemma HumanMessageAnswers(text: string)
    requires Strip(StripThinking(text)) != []
    ensures ExtractReply(Some([Message(Human, text, false)]), "") == Strip(StripThinking(text))
  {
  }

  /** A message without an opener answers with its text, whitespace
      stripped. */
  lemma PlainAnswer(m: Message)
    requires m.content != [] && !m.hasToolCalls && !Contains(m.content, Open)
    requires !AllSpace(m.content)
    ensures Answer(m) == Some(Strip(m.content))
  {
    NoOpenerUnchanged(m.content);
  }

  lemma ExampleParts(content: string)
    requires content == "<thinking>ignore this</thinking>visible answer"
    ensures content == Open + "ignore this" + Close + "visible answer"
  {
  }

  lemma ExampleSpanCut(m: string, b: string)
    requires m == "ignore this" && b == "visible answer"
    ensures StripThinking(Open + m + Close + b) == b
  {
    ExampleHasNoCloser(m);
    SpanAtStart(m, b);
    ExampleTailKept(b);
  }

  lemma ExampleHasNoCloser(m: string)
    requires m == "ignore this"
    ensures !Contains(m + Close[..|Close| - 1], Close)
  {
    var a := {'i', 'g', 'n', 'o', 'r', 'e', ' ', 't', 'h', 's', '<', '/', 'k'};
    assert Within(m + Close[..|Close| - 1], a);
    NotContainedOutside(m + Close[..|Close| - 1], Close, a);
  }

  lemma ExampleTailKept(b: string)
    requires b == "visible answer"
    ensures StripThinking(b) == b
  {
    var a := {'v', 'i', 's', 'b', 'l', 'e', ' ', 'a', 'n', 'w', 'r'};
    assert Within(b, a);
    NotContainedOutside(b, Open, a);
    NoOpenerUnchanged(b);
  }

  /** The reasoning span is cut and the visible text returned. */
  lemma ThinkingExample(content: string, notFound: string)
    requires content == "<thinking>ignore this</thinking>visible answer"
    ensures ExtractReply(Some([Message(Ai, content, false)]), notFound) == "visible answer"
  {
    var b := "visible answer";
    ExampleParts(content);
    ExampleSpanCut("ignore this", b);
    StripTrimmed(b);
  }

  /** A final message with tool calls is passed over for the plain answer
      before it. */
  lemma ToolCallThenAnswer(text: string, toolText: string, notFound: string)
    requires text != [] && Trimmed(text) && !Contains(text, Open)
    ensures ExtractReply(Some([Message(Ai, text, false), Message(Ai, toolText, true)]), notFound) == text
  {
    var plain := Message(Ai, text, false);
    var pending := Message(Ai, toolText, true);
    assert [plain, pending] == [plain] + [pending];
    ToolCallsSkipped([plain], pending);
    NoOpenerUnchanged(text);
    StripTrimmed(text);
    assert Answer(plain) == Some(text);
  }
}
