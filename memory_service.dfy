/**
 * Session-scoped conversation memory: a map from session id to a bounded
 * message log, with duplicate suppression, FIFO eviction, a role-labelled
 * transcript and a keyword scan for the last topic. Timestamps are opaque
 * values passed in by the caller.
 */
module MemoryService {
  import opened Builtins

  /** A metadata value: the route name or the list of sources. */
  datatype MetaValue = Text(text: string) | List(items: seq<string>)

  type Metadata = map<string, MetaValue>

  datatype Message = Message(role: string, content: string, timestamp: string, metadata: Metadata)

  /** Whether `msg` repeats the last entry of `log` (same role and content). */
  predicate RepeatsLast(log: seq<Message>, msg: Message)
  {
    |log| > 0 && log[|log| - 1].role == msg.role && log[|log| - 1].content == msg.content
  }

  /** The log after `add_message`: a repeat of the last entry is dropped;
      otherwise the message is appended and, when the log has grown past
      `maxHistory`, cut to its last `maxHistory` entries with Python's
      `log[-maxHistory:]`. */
  function AfterAdd(log: seq<Message>, msg: Message, maxHistory: int): (r: seq<Message>)
    ensures RepeatsLast(log, msg) ==> r == log
    ensures !RepeatsLast(log, msg) && maxHistory >= 1 ==>
      |r| == Min(|log| + 1, maxHistory) && r == (log + [msg])[|log| + 1 - |r|..]
    ensures !RepeatsLast(log, msg) && maxHistory >= 0 ==> r != [] && r[|r| - 1] == msg
    ensures maxHistory >= 1 && |log| <= maxHistory ==> |r| <= maxHistory
  {
    if RepeatsLast(log, msg) then log
    else
      var grown := log + [msg];
      if |grown| > maxHistory then SliceFrom(grown, -maxHistory) else grown
  }

  /** Python's `log[-0:]` is the whole log, so a capacity of 0 trims
      nothing: every new message is kept and the log grows without bound. */
  lemma ZeroCapacityNeverTrims(log: seq<Message>, msg: Message)
    requires !RepeatsLast(log, msg)
    ensures AfterAdd(log, msg, 0) == log + [msg]
  {
  }

  /** Adding the same role and content twice in a row stores it once. */
  lemma AddTwiceStoresOnce(log: seq<Message>, msg: Message, again: Message, maxHistory: int)
    requires again.role == msg.role && again.content == msg.content
    ensures AfterAdd(AfterAdd(log, msg, maxHistory), again, maxHistory) == AfterAdd(log, msg, maxHistory)
  {
  }

  /** Python's `if last_n:` on an optional count: `None` and 0 mean "all". */
  function LastNOption(n: int): Option<int>
  {
    if n == 0 then None else Some(n)
  }

  /** Python's `messages[-last_n:]` when `last_n` is truthy, else the whole
      log. A positive count keeps that many of the most recent messages; a
      negative one drops that many from the front. */
  function Recent(log: seq<Message>, lastN: Option<int>): (r: seq<Message>)
    ensures lastN.None? || lastN == Some(0) ==> r == log
    ensures lastN.Some? && lastN.value > 0 ==>
      |r| == Min(lastN.value, |log|) && r == log[|log| - |r|..]
    ensures lastN.Some? && lastN.value < 0 ==> r == log[Min(-lastN.value, |log|)..]
  {
    match lastN
    case Some(n) => if n != 0 then SliceFrom(log, -n) else log
    case None => log
  }

  const UserLabel := "Kullanıcı"
  const AssistantLabel := "Asistan"

  /** How many characters of a message the transcript keeps. */
  const MaxShownChars := 150

  /** A message's content as the transcript shows it: content of at most
      150 characters is shown whole; longer content is cut to its first 150
      characters followed by "...". */
  function Shorten(content: string): (r: string)
    ensures |content| <= MaxShownChars ==> r == content
    ensures |content| > MaxShownChars ==>
      |r| == MaxShownChars + 3 && r[..MaxShownChars] == content[..MaxShownChars] && r[MaxShownChars..] == "..."
  {
    if |content| > MaxShownChars then content[..MaxShownChars] + "..." else content
  }

  /** Shortening twice is shortening once. */
  lemma ShortenIdempotent(content: string)
    ensures Shorten(Shorten(content)) == Shorten(content)
  {
  }

  /** A transcript line: "Kullanıcı" for user messages, "Asistan" for any
      other role, then the shortened content. */
  function TranscriptLine(m: Message): string
  {
    (if m.role == "user" then UserLabel else AssistantLabel) + ": " + Shorten(m.content)
  }

  function TranscriptLines(messages: seq<Message>): (r: seq<string>)
    ensures |r| == |messages| && forall k :: 0 <= k < |messages| ==> r[k] == TranscriptLine(messages[k])
  {
    seq(|messages|, k requires 0 <= k < |messages| => TranscriptLine(messages[k]))
  }

  /** The transcript of some messages: one line per message, in order,
      separated by newlines. */
  function Transcript(messages: seq<Message>): string
  {
    Join(TranscriptLines(messages), "\n")
  }

  /** The transcript is empty exactly when there are no messages. */
  lemma TranscriptEmptyIff(messages: seq<Message>)
    ensures Transcript(messages) == "" <==> messages == []
  {
    var lines := TranscriptLines(messages);
    forall k | 0 <= k < |lines| ensures lines[k] != "" {
      assert |lines[k]| >= |AssistantLabel|;
    }
    JoinEmptyIff(lines, "\n");
  }

  /** The transcript of a longer history is the shorter one's plus one line
      per added message: earlier lines never change. */
  lemma TranscriptAppend(xs: seq<Message>, ys: seq<Message>)
    requires xs != [] && ys != []
    ensures Transcript(xs + ys) == Transcript(xs) + "\n" + Transcript(ys)
  {
    assert TranscriptLines(xs + ys) == TranscriptLines(xs) + TranscriptLines(ys);
    JoinAppend(TranscriptLines(xs), TranscriptLines(ys), "\n");
  }

  /** The keyword list of `get_last_topic`, in priority order: a keyword and
      the topic it stands for. */
  const Keywords: seq<(string, string)> := [
    ("FESTUP", "FESTUP"),
    ("Social Media Talks", "Social Media Talks"),
    ("DigitalMAG", "DigitalMAG"),
    ("HUGİP Akademi", "HUGİP Akademi"),
    ("üyelik", "üyelik"),
    ("üye ol", "üyelik"),
    ("yönetim kurulu", "yönetim"),
    ("kulüp", "kulüp"),
    ("etkinlik", "etkinlik")
  ]

  /** How many recent messages the topic scan looks at. */
  const TopicWindow := 6

  /** Keyword `i` occurs, ignoring case, in the lower-cased `text`. */
  predicate KeywordAt(keywords: seq<(string, string)>, i: int, text: string)
    requires 0 <= i < |keywords|
  {
    Contains(text, Lower(keywords[i].0))
  }

  /** The topic of the first keyword, in list order, found in the lower-cased `text`. */
  function FirstTopic(keywords: seq<(string, string)>, text: string): Option<string>
  {
    if keywords == [] then None
    else if Contains(text, Lower(keywords[0].0)) then Some(keywords[0].1)
    else FirstTopic(keywords[1..], text)
  }

  /** The scan finds no topic exactly when no keyword occurs. */
  lemma {:induction false} FirstTopicNoneIff(keywords: seq<(string, string)>, text: string)
    ensures FirstTopic(keywords, text).None? <==> forall i :: 0 <= i < |keywords| ==> !KeywordAt(keywords, i, text)
  {
    if keywords != [] {
      var rest := keywords[1..];
      FirstTopicNoneIff(rest, text);
      forall i | 1 <= i < |keywords|
        ensures KeywordAt(keywords, i, text) <==> KeywordAt(rest, i - 1, text)
      {
        assert keywords[i] == rest[i - 1];
      }
      if FirstTopic(keywords, text).None? {
        assert !KeywordAt(keywords, 0, text);
      }
      if forall i :: 0 <= i < |keywords| ==> !KeywordAt(keywords, i, text) {
        assert !KeywordAt(keywords, 0, text);
        forall j | 0 <= j < |rest| ensures !KeywordAt(rest, j, text) {
          assert !KeywordAt(keywords, j + 1, text);
        }
      }
    }
  }

  /** The scan returns the topic of the earliest keyword that occurs: if
      keyword `i` occurs and no earlier one does, its topic is the answer. */
  lemma {:induction false} FirstTopicPriority(keywords: seq<(string, string)>, text: string, i: int)
    requires 0 <= i < |keywords| && KeywordAt(keywords, i, text)
    requires forall j :: 0 <= j < i ==> !KeywordAt(keywords, j, text)
    ensures FirstTopic(keywords, text) == Some(keywords[i].1)
  {
    if i > 0 {
      assert !KeywordAt(keywords, 0, text);
      assert KeywordAt(keywords[1..], i - 1, text);
      forall j | 0 <= j < i - 1 ensures !KeywordAt(keywords[1..], j, text) {
        assert !KeywordAt(keywords, j + 1, text);
      }
      FirstTopicPriority(keywords[1..], text, i - 1);
    }
  }

  /** The loop of `get_last_topic`: tries the keywords in list order
      against the lower-cased text and stops at the first that occurs. */
  method ScanKeywords(keywords: seq<(string, string)>, text: string) returns (topic: Option<string>)
    ensures topic == FirstTopic(keywords, text)
  {
    var k := 0;
    while k < |keywords|
      invariant 0 <= k <= |keywords|
      invariant FirstTopic(keywords, text) == FirstTopic(keywords[k..], text)
    {
      var (keyword, t) := keywords[k];
      if Contains(text, Lower(keyword)) {
        return Some(t);
      }
      assert keywords[k..][1..] == keywords[k + 1..];
      k := k + 1;
    }
    return None;
  }

  function Contents(messages: seq<Message>): (r: seq<string>)
    ensures |r| == |messages| && forall k :: 0 <= k < |messages| ==> r[k] == messages[k].content
  {
    seq(|messages|, k requires 0 <= k < |messages| => messages[k].content)
  }

  /** `get_last_topic` on a history window: nothing for an empty window,
      else the first keyword's topic found in the space-joined contents. */
  function LastTopic(window: seq<Message>): Option<string>
  {
    if window == [] then None else FirstTopic(Keywords, Lower(Join(Contents(window), " ")))
  }

  /** A message that names a keyword verbatim gives a topic: the scan is
      never empty-handed once any keyword was mentioned in the window. */
  lemma MentionedKeywordGivesTopic(window: seq<Message>, i: int)
    requires window != [] && 0 <= i < |Keywords|
    requires Occurs(Join(Contents(window), " "), Keywords[i].0)
    ensures LastTopic(window).Some?
  {
    var text := Join(Contents(window), " ");
    VerbatimOccurrenceMatchesLowered(text, Keywords[i].0);
    assert KeywordAt(Keywords, i, Lower(text));
    FirstTopicNoneIff(Keywords, Lower(text));
  }

  /** `ConversationMemory`: per-session message logs of bounded length. */
  class ConversationMemory {
    var sessions: map<string, seq<Message>>
    const maxHistory: int

    /** With a positive capacity, no session holds more than `maxHistory` messages. */
    ghost predicate Valid()
      reads this
    {
      maxHistory >= 1 ==> forall id :: id in sessions ==> |sessions[id]| <= maxHistory
    }

    constructor (maxHistory: int := 10)
      ensures this.maxHistory == maxHistory && sessions == map[] && Valid()
    {
      this.maxHistory := maxHistory;
      sessions := map[];
    }

    /** The log of a session, empty when the session is unknown. */
    function Log(sessionId: string): seq<Message>
      reads this
    {
      if sessionId in sessions then sessions[sessionId] else []
    }

    /** `add_message`: creates the session when unknown, then stores the
      message as `AfterAdd` says. Other sessions are untouched. */
    method AddMessage(sessionId: string, role: string, content: string,
                      timestamp: string, metadata: Option<Metadata>)
      requires Valid()
      modifies this
      ensures Valid()
      ensures sessions == old(sessions)[sessionId :=
        AfterAdd(old(Log(sessionId)), Message(role, content, timestamp, metadata.GetOr(map[])), maxHistory)]
    {
      // A session seen for the first time starts from an empty log.
      var log := if sessionId in sessions then sessions[sessionId] else [];
      var message := Message(role, content, timestamp, metadata.GetOr(map[]));
      if |log| > 0 {
        var last := log[|log| - 1];
        if last.role == role && last.content == content {
          // Only an existing session has a last message, so nothing changes.
          assert sessions == sessions[sessionId := log];
          return;
        }
      }
      log := log + [message];
      if |log| > maxHistory {
        log := SliceFrom(log, -maxHistory);
      }
      sessions := sessions[sessionId := log];
    }

    /** `clear_session`: forgets one session; an unknown id changes nothing. */
    method ClearSession(sessionId: string)
      requires Valid()
      modifies this
      ensures Valid()
      ensures sessions == old(sessions) - {sessionId}
      ensures sessionId !in old(sessions) ==> sessions == old(sessions)
      ensures forall id :: id != sessionId ==> Log(id) == old(Log(id))
    {
      if sessionId in sessions {
        sessions := sessions - {sessionId};
      }
    }

    /** `get_history`: nothing for an unknown session; otherwise the last
      `last_n` messages when `last_n` is truthy, else the whole log. */
    function GetHistory(sessionId: string, lastN: Option<int>): (r: seq<Message>)
      reads this
      ensures sessionId !in sessions ==> r == []
      ensures sessionId in sessions && (lastN.None? || lastN == Some(0)) ==> r == sessions[sessionId]
      ensures sessionId in sessions && lastN.Some? && lastN.value > 0 ==>
        |r| == Min(lastN.value, |sessions[sessionId]|)
        && r == sessions[sessionId][|sessions[sessionId]| - |r|..]
      ensures sessionId in sessions && lastN.Some? && lastN.value < 0 ==>
        r == sessions[sessionId][Min(-lastN.value, |sessions[sessionId]|)..]
    {
      if sessionId !in sessions then [] else Recent(sessions[sessionId], lastN)
    }

    /** `get_context_string`: the transcript of the last `last_n` messages
      (all of them when `last_n` is 0, six when it is not given), empty when
      there are none. */
    method GetContextString(sessionId: string, lastN: int := 6) returns (r: string)
      ensures r == Transcript(GetHistory(sessionId, LastNOption(lastN)))
      ensures r == "" <==> GetHistory(sessionId, LastNOption(lastN)) == []
    {
      var messages := GetHistory(sessionId, LastNOption(lastN));
      if |messages| == 0 {
        return "";
      }
      var lines: seq<string> := [];
      var i := 0;
      while i < |messages|
        invariant 0 <= i <= |messages|
        invariant |lines| == i
        invariant forall k :: 0 <= k < i ==> lines[k] == TranscriptLine(messages[k])
      {
        var line := TranscriptLine(messages[i]);
        lines := lines + [line];
        i := i + 1;
      }
      assert lines == TranscriptLines(messages);
      r := Join(lines, "\n");
      TranscriptEmptyIff(messages);
    }

    /** `get_last_topic`: scans the keywords in priority order against the
      last six messages and returns the first one's topic. */
    method GetLastTopic(sessionId: string) returns (topic: Option<string>)
      ensures topic == LastTopic(GetHistory(sessionId, Some(TopicWindow)))
      ensures GetHistory(sessionId, Some(TopicWindow)) == [] ==> topic.None?
    {
      var messages := GetHistory(sessionId, Some(TopicWindow));
      if |messages| == 0 {
        return None;
      }
      var allContent := Join(Contents(messages), " ");
      topic := ScanKeywords(Keywords, Lower(allContent));
    }
  }

  /** `MemoryService.add_assistant_message`'s metadata: the route when one
      is given and non-empty, the sources when given and non-empty, and
      nothing else. */
  function AssistantMetadata(route: Option<string>, sources: Option<seq<string>>): (m: Metadata)
    ensures "route" in m <==> route.Some? && route.value != ""
    ensures "route" in m ==> m["route"] == Text(route.value)
    ensures "sources" in m <==> sources.Some? && sources.value != []
    ensures "sources" in m ==> m["sources"] == List(sources.value)
    ensures m.Keys <= {"route", "sources"}
  {
    var withRoute: Metadata :=
      if route.Some? && route.value != "" then map["route" := Text(route.value)] else map[];
    if sources.Some? && sources.value != [] then withRoute["sources" := List(sources.value)] else withRoute
  }

  /** `MemoryService`: one memory of capacity 10 behind the user- and
      assistant-message helpers. */
  class Service {
    const memory: ConversationMemory

    constructor ()
      ensures fresh(memory) && memory.maxHistory == 10 && memory.sessions == map[] && memory.Valid()
    {
      memory := new ConversationMemory();
    }

    /** `add_user_message`: stores a user message without metadata. */
    method AddUserMessage(sessionId: string, content: string, timestamp: string)
      requires memory.Valid()
      modifies memory
      ensures memory.Valid()
      ensures memory.sessions == old(memory.sessions)[sessionId :=
        AfterAdd(old(memory.Log(sessionId)), Message("user", content, timestamp, map[]), memory.maxHistory)]
    {
      memory.AddMessage(sessionId, "user", content, timestamp, None);
    }

    /** `add_assistant_message`: stores an assistant message whose metadata
      records the route and sources as `AssistantMetadata` says. */
    method AddAssistantMessage(sessionId: string, content: string, route: Option<string>,
                               sources: Option<seq<string>>, timestamp: string)
      requires memory.Valid()
      modifies memory
      ensures memory.Valid()
      ensures memory.sessions == old(memory.sessions)[sessionId :=
        AfterAdd(old(memory.Log(sessionId)),
                 Message("assistant", content, timestamp, AssistantMetadata(route, sources)), memory.maxHistory)]
    {
      memory.AddMessage(sessionId, "assistant", content, timestamp, Some(AssistantMetadata(route, sources)));
    }
  }
}
