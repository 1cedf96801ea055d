/**
 * pages/AssistantPage.tsx: the chat with the support assistant. Every sent
 * message is also appended, with a timestamp, to the trauma-dump text that
 * the justice screen later reads.
 */
module Assistant {
  import opened Wrappers
  import opened Strings
  import opened Types
  import opened Records

  datatype Role = FromUser | FromAssistant

  datatype Message = Message(role: Role, text: string)

  /** What the narrative analysis returns: sentiment, emotions, encouragement. */
  datatype Analysis = Analysis(sentiment: string, emotions: seq<string>, encouragement: seq<string>)

  const Greeting := "Hi! I'm Penny. \U{1F427} I'm here to listen. You can type or speak about your experiences here. It's a safe and private space."

  /** Messages longer than this are also sent for narrative analysis. */
  const AnalysisThreshold := 40

  /** One log line: a newline, the bracketed timestamp, a space, the message. */
  function LogLine(timestamp: string, msg: string): (r: string)
    ensures |r| == |timestamp| + |msg| + 4
    ensures r[0] == '\n' && r[1] == '[' && r[|r| - |msg|..] == msg
    ensures r[2..2 + |timestamp|] == timestamp && r[2 + |timestamp|..4 + |timestamp|] == "] "
  {
    "\n" + "[" + timestamp + "] " + msg
  }

  /** A run of timestamped messages appended to a log, first to last. */
  function AppendAll(log: string, entries: seq<(string, string)>): string
    decreases |entries|
  {
    if entries == [] then log
    else AppendAll(log + LogLine(entries[0].0, entries[0].1), entries[1..])
  }

  /**
   * The log only grows at its end: appending two runs one after the other is
   * appending them together, and the old log is always a prefix.
   */
  lemma {:induction false} AppendAllSplits(log: string, a: seq<(string, string)>, b: seq<(string, string)>)
    ensures AppendAll(log, a + b) == AppendAll(AppendAll(log, a), b)
    ensures |AppendAll(log, a)| >= |log| && AppendAll(log, a)[..|log|] == log
    decreases |a|
  {
    if a == [] {
      assert a + b == b;
    } else {
      var next := log + LogLine(a[0].0, a[0].1);
      assert (a + b)[0] == a[0] && (a + b)[1..] == a[1..] + b;
      AppendAllSplits(next, a[1..], b);
      assert next[..|log|] == log;
      assert AppendAll(log, a)[..|next|][..|log|] == AppendAll(log, a)[..|log|];
    }
  }

  /** The chat screen's state. */
  class AssistantScreen {
    var messages: seq<Message>
    var input: string
    var typing: bool
    var anonymous: bool
    var analysis: Option<Analysis>
    const store: Store

    /** One greeting from the assistant; anonymous mode as the user's default (read without a guard). */
    constructor (user: Profile, store: Store)
      requires user.privacy.Some?
      ensures this.store == store
      ensures messages == [Message(FromAssistant, Greeting)]
      ensures input == "" && !typing && analysis == None
      ensures anonymous == user.privacy.value.anonymousDefault
    {
      this.store := store;
      messages := [Message(FromAssistant, Greeting)];
      input := "";
      typing := false;
      anonymous := user.privacy.value.anonymousDefault;
      analysis := None;
    }

    /** Typing in the input box. */
    method InputChanged(v: string)
      modifies this`input
      ensures input == v
    {
      input := v;
    }

    /** A speech-recognition result replaces the input with the transcript. */
    method SpeechResult(transcript: string)
      modifies this`input
      ensures input == transcript
    {
      input := transcript;
    }

    method ToggleAnonymous()
      modifies this`anonymous
      ensures anonymous == !old(anonymous)
    {
      anonymous := !anonymous;
    }

    /**
     * `handleSend` up to the awaited reply. Whitespace-only input changes
     * nothing and asks for nothing. Otherwise the user's message is appended,
     * the input cleared, the message logged to the trauma dump, and analysis
     * requested for long messages. `timestamp` is the `toLocaleString` of
     * the current time; `sent` is the message handed to the chat reply.
     */
    method BeginSend(timestamp: string) returns (sent: Option<string>, analysisRequested: bool)
      requires TraumaReadable(store.entries)
      modifies this`messages, this`input, this`typing, store
      ensures TraumaReadable(store.entries)
      ensures IsBlank(old(input)) ==>
        && sent == None && !analysisRequested
        && messages == old(messages) && input == old(input) && typing == old(typing)
        && store.entries == old(store.entries)
      ensures !IsBlank(old(input)) ==>
        && sent == Some(old(input))
        && messages == old(messages) + [Message(FromUser, old(input))]
        && input == "" && typing
        && store.entries == old(store.entries)[TraumaKey := TextDoc(TraumaText(old(store.entries)) + LogLine(timestamp, old(input)))]
        && analysisRequested == (|old(input)| > AnalysisThreshold)
      ensures anonymous == old(anonymous) && analysis == old(analysis)
    {
      if IsBlank(input) {
        return None, false;
      }
      var userMsg := input;
      messages := messages + [Message(FromUser, userMsg)];
      input := "";
      typing := true;
      var existing := TraumaText(store.entries);
      store.SetItem(TraumaKey, TextDoc(existing + LogLine(timestamp, userMsg)));
      sent := Some(userMsg);
      analysisRequested := |userMsg| > AnalysisThreshold;
    }

    /** The awaited chat reply arrives: it is appended and typing stops. */
    method ReceiveReply(reply: string)
      modifies this`messages, this`typing
      ensures messages == old(messages) + [Message(FromAssistant, reply)] && !typing
    {
      messages := messages + [Message(FromAssistant, reply)];
      typing := false;
    }

    /** The narrative analysis arrives. */
    method ReceiveAnalysis(a: Analysis)
      modifies this`analysis
      ensures analysis == Some(a)
    {
      analysis := Some(a);
    }
  }
}
