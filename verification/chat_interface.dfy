/**
 The gardening chat's transcript state machine
 (components/ChatInterface.tsx:6-56): the greeting, the send guard, the
 user turn, the empty model placeholder, its rewriting as stream chunks
 arrive, and the fallback turn on failure. The clock readings and the
 stream's outcome are inputs.
 */
module ChatInterface {
  import opened Types

  /** The view's state: the transcript, the text box and the loading flag. */
  datatype ChatState = ChatState(messages: seq<ChatMessage>, input: string, loading: bool)

  /** The three readings of the clock one send takes: for the user turn, for the
      placeholder's identity, and for a fallback turn. */
  datatype SendClock = SendClock(userTime: int, placeholderId: int, fallbackTime: int)

  /** How `sendMessageStream` went: it rejected before any stream existed, or it
      delivered `chunks` in order and then either completed or threw. */
  datatype StreamOutcome =
    | Rejected
    | Delivered(chunks: seq<string>, interrupted: bool)

  const Greeting: string :=
    "Hello! I'm BloomBot. I can help with plant diseases, soil questions, or even landscaping ideas. What's on your mind?"

  const FallbackReply: string :=
    "I'm sorry, my root system is a bit tangled. Could you try asking again?"

  /** The view once mounted: the greeting alone, stamped with the mount time. */
  function Open(now: int): (s: ChatState)
    ensures |s.messages| == 1
    ensures s.messages[0].role == Model && s.messages[0].text == Greeting
    ensures s.input == "" && !s.loading
  {
    ChatState([ChatMessage(Model, Greeting, now)], "", false)
  }

  /** The characters `String.prototype.trim` removes: white space and line terminators. */
  predicate IsTrimmed(c: char) {
    || c == '\t' || c == '\n' || c == '\U{B}' || c == '\U{C}' || c == '\r' || c == ' '
    || c == '\U{A0}' || c == '\U{1680}' || ('\U{2000}' <= c <= '\U{200A}')
    || c == '\U{2028}' || c == '\U{2029}' || c == '\U{202F}' || c == '\U{205F}'
    || c == '\U{3000}' || c == '\U{FEFF}'
  }

  /** Every character of `s` is one `trim` removes. */
  predicate IsBlank(s: string) {
    forall i :: 0 <= i < |s| ==> IsTrimmed(s[i])
  }

  /** `s.trimStart()`: the longest suffix that does not start with a removable character. */
  function TrimStart(s: string): (r: string)
    ensures |r| <= |s| && r == s[|s| - |r|..]
    ensures |r| > 0 ==> !IsTrimmed(r[0])
    ensures forall i :: 0 <= i < |s| - |r| ==> IsTrimmed(s[i])
    decreases |s|
  {
    if |s| > 0 && IsTrimmed(s[0]) then TrimStart(s[1..]) else s
  }

  /** `s.trimEnd()`: the longest prefix that does not end with a removable character. */
  function TrimEnd(s: string): (r: string)
    ensures |r| <= |s| && r == s[..|r|]
    ensures |r| > 0 ==> !IsTrimmed(r[|r| - 1])
    ensures forall i :: |r| <= i < |s| ==> IsTrimmed(s[i])
    decreases |s|
  {
    if |s| > 0 && IsTrimmed(s[|s| - 1]) then TrimEnd(s[..|s| - 1]) else s
  }

  /** `s.trim()`. */
  function Trim(s: string): string {
    TrimEnd(TrimStart(s))
  }

  /** `!input.trim()` holds exactly when every character is one `trim` removes. */
  lemma BlankIffTrimEmpty(s: string)
    ensures IsBlank(s) <==> Trim(s) == ""
  {
  }

  /** The guard of `handleSend`: something to say and no send in flight. */
  predicate CanSend(s: ChatState) {
    !IsBlank(s.input) && !s.loading
  }

  /** The guard passes exactly when the trimmed input is non-empty and no send is in flight. */
  lemma CanSendIffTrimmedInput(s: ChatState)
    ensures CanSend(s) <==> Trim(s.input) != "" && !s.loading
  {
    BlankIffTrimEmpty(s.input);
  }

  /** Concatenation of chunk texts in delivery order. */
  function Concat(chunks: seq<string>): (text: string)
    ensures |chunks| == 0 ==> text == ""
    decreases |chunks|
  {
    if |chunks| == 0 then "" else Concat(chunks[..|chunks| - 1]) + chunks[|chunks| - 1]
  }

  /** `prev.map(msg => msg.timestamp === id ? { ...msg, text } : msg)`. */
  function Rewrite(messages: seq<ChatMessage>, id: int, text: string): (r: seq<ChatMessage>)
    ensures |r| == |messages|
  {
    seq(|messages|, i requires 0 <= i < |messages| =>
      if messages[i].timestamp == id then messages[i].(text := text) else messages[i])
  }

  /** `map` with the timestamp test: each turn stamped with `id` gets the new text,
      keeping its role and timestamp, and every other turn is left as it was. */
  lemma RewriteSetsMatchingTurns(messages: seq<ChatMessage>, id: int, text: string)
    ensures var r := Rewrite(messages, id, text);
      && (forall i :: 0 <= i < |r| && messages[i].timestamp == id ==>
            r[i].text == text && r[i].role == messages[i].role && r[i].timestamp == id)
      && (forall i :: 0 <= i < |r| && messages[i].timestamp != id ==> r[i] == messages[i])
  {
  }

  /** The transcript after the placeholder has been rewritten once per chunk, each
      time with the text accumulated so far. */
  function AfterChunks(messages: seq<ChatMessage>, id: int, chunks: seq<string>): (r: seq<ChatMessage>)
    ensures |r| == |messages|
    decreases |chunks|
  {
    if |chunks| == 0 then messages
    else Rewrite(AfterChunks(messages, id, chunks[..|chunks| - 1]), id, Concat(chunks))
  }

  /** The guard passed: the user turn carrying the untrimmed input is appended,
      the text box empties and the loading flag rises. */
  function Submit(s: ChatState, userTime: int): (r: ChatState)
    ensures r.messages == s.messages + [ChatMessage(User, s.input, userTime)]
    ensures r.input == "" && r.loading
  {
    ChatState(s.messages + [ChatMessage(User, s.input, userTime)], "", true)
  }

  /** The stream opened: an empty model turn identified by `id` is appended. */
  function OpenPlaceholder(s: ChatState, id: int): (r: ChatState)
    ensures r.messages == s.messages + [ChatMessage(Model, "", id)]
    ensures r.input == s.input && r.loading == s.loading
  {
    s.(messages := s.messages + [ChatMessage(Model, "", id)])
  }

  /** The `catch` branch: the fallback turn is appended after whatever is there. */
  function AppendFallback(s: ChatState, time: int): (r: ChatState)
    ensures r.messages == s.messages + [ChatMessage(Model, FallbackReply, time)]
    ensures r.input == s.input && r.loading == s.loading
  {
    s.(messages := s.messages + [ChatMessage(Model, FallbackReply, time)])
  }

  /** The `try`/`catch` part of `handleSend` after the user turn: on rejection the
      fallback; otherwise the placeholder, one rewrite per chunk, and the fallback
      when the stream threw. */
  function Respond(s: ChatState, clock: SendClock, outcome: StreamOutcome): ChatState {
    match outcome
    case Rejected => AppendFallback(s, clock.fallbackTime)
    case Delivered(chunks, interrupted) =>
      var withPlaceholder := OpenPlaceholder(s, clock.placeholderId);
      var streamed := withPlaceholder.(messages := AfterChunks(withPlaceholder.messages, clock.placeholderId, chunks));
      if interrupted then AppendFallback(streamed, clock.fallbackTime) else streamed
  }

  /** `handleSend` run to completion. */
  function Send(s: ChatState, clock: SendClock, outcome: StreamOutcome): (r: ChatState)
    ensures !CanSend(s) ==> r == s
    ensures CanSend(s) ==> !r.loading && r.input == ""
  {
    if !CanSend(s) then s
    else Respond(Submit(s, clock.userTime), clock, outcome).(loading := false)
  }

  /** `handleSend` with its `for await` loop written out: the placeholder is rewritten
      once per chunk with the accumulated text. */
  method HandleSend(s: ChatState, clock: SendClock, outcome: StreamOutcome) returns (r: ChatState)
    ensures r == Send(s, clock, outcome)
  {
    if !CanSend(s) {
      return s;
    }
    r := Submit(s, clock.userTime);
    match outcome {
      case Rejected =>
        r := AppendFallback(r, clock.fallbackTime);
      case Delivered(chunks, interrupted) =>
        r := OpenPlaceholder(r, clock.placeholderId);
        var start := r.messages;
        var fullText := "";
        var k := 0;
        while k < |chunks|
          invariant 0 <= k <= |chunks|
          invariant fullText == Concat(chunks[..k])
          invariant r.messages == AfterChunks(start, clock.placeholderId, chunks[..k])
          invariant r.input == "" && r.loading
        {
          fullText := fullText + chunks[k];
          assert chunks[..k + 1][..k] == chunks[..k];
          r := r.(messages := Rewrite(r.messages, clock.placeholderId, fullText));
          k := k + 1;
        }
        assert chunks[..k] == chunks;
        if interrupted {
          r := AppendFallback(r, clock.fallbackTime);
        }
    }
    r := r.(loading := false);
  }

  /** Every timestamp in `messages` differs from `id`. */
  predicate FreshId(messages: seq<ChatMessage>, id: int) {
    forall i :: 0 <= i < |messages| ==> messages[i].timestamp != id
  }

  /** With the placeholder the only turn carrying its id, a chunk update rewrites that
      turn's text and leaves every other turn as it was. */
  lemma RewriteTouchesOnlyPlaceholder(messages: seq<ChatMessage>, j: int, text: string)
    requires 0 <= j < |messages|
    requires forall i :: 0 <= i < |messages| && i != j ==> messages[i].timestamp != messages[j].timestamp
    ensures var r := Rewrite(messages, messages[j].timestamp, text);
      && |r| == |messages|
      && r[j] == messages[j].(text := text)
      && forall i :: 0 <= i < |messages| && i != j ==> r[i] == messages[i]
  {
  }

  /** Rewriting turns only ever changes their text. */
  lemma {:induction false} AfterChunksKeepsRolesAndTimes(messages: seq<ChatMessage>, id: int, chunks: seq<string>)
    ensures var r := AfterChunks(messages, id, chunks);
      forall i :: 0 <= i < |messages| ==> r[i].role == messages[i].role && r[i].timestamp == messages[i].timestamp
    decreases |chunks|
  {
    if |chunks| > 0 {
      AfterChunksKeepsRolesAndTimes(messages, id, chunks[..|chunks| - 1]);
    }
  }

  /** A later rewrite of the same id overrides an earlier one completely. */
  lemma RewriteTwice(messages: seq<ChatMessage>, id: int, first: string, second: string)
    ensures Rewrite(Rewrite(messages, id, first), id, second) == Rewrite(messages, id, second)
  {
  }

  /** After one or more chunks the transcript is the original with the placeholder's text
      set to the concatenation of all chunks so far. */
  lemma {:induction false} AfterChunksIsOneRewrite(messages: seq<ChatMessage>, id: int, chunks: seq<string>)
    requires |chunks| > 0
    ensures AfterChunks(messages, id, chunks) == Rewrite(messages, id, Concat(chunks))
    decreases |chunks|
  {
    var init := chunks[..|chunks| - 1];
    if |init| > 0 {
      AfterChunksIsOneRewrite(messages, id, init);
      RewriteTwice(messages, id, Concat(init), Concat(chunks));
    }
  }

  /** The transcript while the stream is being consumed: after the first `k` chunks
      it is the old transcript, the user turn, and the placeholder holding exactly the
      in-order concatenation of those `k` chunks, provided the placeholder's id is
      fresh. */
  lemma PlaceholderHoldsPrefixConcat(s: ChatState, clock: SendClock, chunks: seq<string>, k: nat)
    requires FreshId(s.messages, clock.placeholderId) && clock.userTime != clock.placeholderId
    requires k <= |chunks|
    ensures var start := OpenPlaceholder(Submit(s, clock.userTime), clock.placeholderId).messages;
      AfterChunks(start, clock.placeholderId, chunks[..k])
        == s.messages + [ChatMessage(User, s.input, clock.userTime),
                         ChatMessage(Model, Concat(chunks[..k]), clock.placeholderId)]
  {
    var start := OpenPlaceholder(Submit(s, clock.userTime), clock.placeholderId).messages;
    var expected := s.messages + [ChatMessage(User, s.input, clock.userTime),
                                  ChatMessage(Model, Concat(chunks[..k]), clock.placeholderId)];
    if k > 0 {
      AfterChunksIsOneRewrite(start, clock.placeholderId, chunks[..k]);
      var j := |start| - 1;
      assert start[j].timestamp == clock.placeholderId;
      RewriteTouchesOnlyPlaceholder(start, j, Concat(chunks[..k]));
      var r := Rewrite(start, clock.placeholderId, Concat(chunks[..k]));
      assert |r| == |expected|;
      forall i | 0 <= i < |r|
        ensures r[i] == expected[i]
      {
      }
    }
  }

  /** What a completed send leaves, when the placeholder's id is fresh: the user turn,
      then the fallback on rejection, or the placeholder holding every chunk in order,
      followed by the fallback if the stream threw. Nothing before is touched. */
  lemma SendTranscript(s: ChatState, clock: SendClock, outcome: StreamOutcome)
    requires CanSend(s)
    requires FreshId(s.messages, clock.placeholderId) && clock.userTime != clock.placeholderId
    ensures var user := ChatMessage(User, s.input, clock.userTime);
      var fallback := ChatMessage(Model, FallbackReply, clock.fallbackTime);
      var r := Send(s, clock, outcome).messages;
      match outcome
      case Rejected => r == s.messages + [user, fallback]
      case Delivered(chunks, interrupted) =>
        var reply := ChatMessage(Model, Concat(chunks), clock.placeholderId);
        r == s.messages + [user, reply] + (if interrupted then [fallback] else [])
  {
    match outcome
    case Rejected =>
    case Delivered(chunks, interrupted) =>
      PlaceholderHoldsPrefixConcat(s, clock, chunks, |chunks|);
      assert chunks[..|chunks|] == chunks;
  }

  /** A send only appends turns and rewrites texts: the transcript never shrinks, and
      every earlier turn keeps its role and timestamp. */
  lemma SendOnlyAppendsOrRewrites(s: ChatState, clock: SendClock, outcome: StreamOutcome)
    ensures var r := Send(s, clock, outcome).messages;
      && |r| >= |s.messages|
      && forall i :: 0 <= i < |s.messages| ==>
           r[i].role == s.messages[i].role && r[i].timestamp == s.messages[i].timestamp
  {
    if CanSend(s) && outcome.Delivered? {
      var start := OpenPlaceholder(Submit(s, clock.userTime), clock.placeholderId).messages;
      AfterChunksKeepsRolesAndTimes(start, clock.placeholderId, outcome.chunks);
    }
  }

  /** While a stream is being consumed the loading flag is up, so a second send is ignored. */
  lemma NoSecondSendWhileStreaming(s: ChatState, clock: SendClock, chunks: seq<string>,
                                   again: SendClock, outcome: StreamOutcome)
    requires CanSend(s)
    ensures var withPlaceholder := OpenPlaceholder(Submit(s, clock.userTime), clock.placeholderId);
      var streaming := withPlaceholder.(messages := AfterChunks(withPlaceholder.messages, clock.placeholderId, chunks));
      Send(streaming, again, outcome) == streaming
  {
  }

  /** A completed stream leaves the transcript as one rewrite, with the whole reply,
      of the old turns followed by the user turn and the placeholder. */
  lemma CompletedSendIsOneRewrite(s: ChatState, clock: SendClock, chunks: seq<string>)
    requires CanSend(s)
    requires |chunks| > 0
    ensures Send(s, clock, Delivered(chunks, false)).messages
      == Rewrite(s.messages + [ChatMessage(User, s.input, clock.userTime), ChatMessage(Model, "", clock.placeholderId)],
                 clock.placeholderId, Concat(chunks))
  {
    var outcome := Delivered(chunks, false);
    var submitted := Submit(s, clock.userTime);
    var withPlaceholder := OpenPlaceholder(submitted, clock.placeholderId);
    var start := withPlaceholder.messages;
    AfterChunksIsOneRewrite(start, clock.placeholderId, chunks);
    assert start == s.messages + [ChatMessage(User, s.input, clock.userTime), ChatMessage(Model, "", clock.placeholderId)];
  }

  /** The placeholder is found by timestamp alone: if the user turn was stamped in the
      same millisecond as the placeholder, the reply overwrites the user's own text. */
  lemma UserTurnSharingPlaceholderIdIsOverwritten(s: ChatState, clock: SendClock, chunks: seq<string>)
    requires CanSend(s)
    requires clock.userTime == clock.placeholderId
    requires |chunks| > 0
    ensures var r := Send(s, clock, Delivered(chunks, false)).messages;
      && r[|s.messages|] == ChatMessage(User, Concat(chunks), clock.userTime)
      && r[|s.messages| + 1] == ChatMessage(Model, Concat(chunks), clock.placeholderId)
  {
    var start := s.messages + [ChatMessage(User, s.input, clock.userTime), ChatMessage(Model, "", clock.placeholderId)];
    var n := |s.messages|;
    assert start[n] == ChatMessage(User, s.input, clock.userTime);
    assert start[n + 1] == ChatMessage(Model, "", clock.placeholderId);
    CompletedSendIsOneRewrite(s, clock, chunks);
  }
}
