/** The chat widget's transcript machine (src/components/Chatbot.tsx): the
    four state cells and `sendMessage`, split at its `await` into the
    synchronous submit and the settling of the request. */
module ChatWidget {
  import opened Js
  import ChatRelay

  const Greeting := "Hello! 👋 I'm the SPIROLINK assistant. How can I help you today?"
  /** The system prompt the widget always sends with a message. */
  const WidgetContext := "You are a helpful chatbot for SPIROLINK, specializing in broadband infrastructure."
  const EmptyReplyFallback := "Sorry, I couldn't generate a response."
  const FailedResponseFallback := "Failed to get response"

  datatype Role = User | Bot
  datatype Entry = Entry(role: Role, content: string)

  const GreetingEntry := Entry(Bot, Greeting)

  /** The JSON body posted to the relay. */
  datatype RelayBody = RelayBody(message: string, context: string)

  /** How the `fetch` settles: an OK response with `data.reply` (a string
      or null/absent), a non-OK response with `errorData.error`, or an
      exception (network failure, body that is not JSON) with its message. */
  datatype FetchResult =
    | Answered(reply: Option<string>)
    | Refused(error: Option<string>)
    | Threw(message: string)

  datatype WidgetState = WidgetState(
    messages: seq<Entry>, input: string, isLoading: bool, error: Option<string>)

  function Initial(): WidgetState {
    WidgetState([GreetingEntry], "", false, None)
  }

  /** The transcript entry shown for a failed request. */
  function ErrorText(message: string): string {
    "❌ Error: " + message + ". Make sure the backend is running on port 5000."
  }

  /** The synchronous part of `sendMessage`: a blank input changes nothing
      and sends nothing; otherwise the raw input is appended as a user entry,
      the input cleared, loading set, the error cleared and the input posted
      with the widget's fixed context. */
  function Submitted(s: WidgetState): (r: (WidgetState, Option<RelayBody>))
    ensures Trim(s.input) == "" <==> r.1.None?
    ensures r.1.None? ==> r.0 == s
    ensures r.1.Some? ==>
              && r.1.value == RelayBody(s.input, WidgetContext)
              && r.0 == WidgetState(s.messages + [Entry(User, s.input)], "", true, None)
  {
    if Trim(s.input) == "" then (s, None)
    else
      (WidgetState(s.messages + [Entry(User, s.input)], "", true, None),
       Some(RelayBody(s.input, WidgetContext)))
  }

  /** The error a failed request leaves in the `error` cell, if it failed. */
  function FailureMessage(f: FetchResult): (m: Option<string>)
    ensures f.Answered? <==> m.None?
    ensures f.Refused? ==> m == Some(Or(f.error, FailedResponseFallback))
    ensures f.Threw? ==> m == Some(f.message)
  {
    match f
    case Answered(_) => None
    case Refused(error) => Some(Or(error, FailedResponseFallback))
    case Threw(message) => Some(message)
  }

  /** The bot entry a settled request appends. */
  function BotEntry(f: FetchResult): (e: Entry)
    ensures e.role == Bot
    ensures f.Answered? ==> e.content == Or(f.reply, EmptyReplyFallback)
    ensures !f.Answered? ==> e.content == ErrorText(FailureMessage(f).value)
  {
    match FailureMessage(f)
    case None => Entry(Bot, Or(f.reply, EmptyReplyFallback))
    case Some(m) => Entry(Bot, ErrorText(m))
  }

  /** The part of `sendMessage` after the request settles: exactly one bot
      entry is appended, the error is set on failure, and the `finally`
      block clears the loading flag. */
  function Settled(s: WidgetState, f: FetchResult): (r: WidgetState)
    ensures r.messages == s.messages + [BotEntry(f)]
    ensures !r.isLoading && r.input == s.input
    ensures r.error == (if f.Answered? then s.error else FailureMessage(f))
  {
    WidgetState(
      s.messages + [BotEntry(f)], s.input, false,
      if f.Answered? then s.error else FailureMessage(f))
  }

  /** One whole `sendMessage`. */
  function Send(s: WidgetState, f: FetchResult): WidgetState {
    var (s1, sent) := Submitted(s);
    if sent.Some? then Settled(s1, f) else s1
  }

  /** The transcript starts with the greeting and then alternates: every
      entry's role differs from the one before it. */
  predicate Alternating(m: seq<Entry>) {
    && |m| >= 1
    && m[0] == GreetingEntry
    && forall i | 0 < i < |m| :: m[i].role != m[i - 1].role
  }

  /** No request outstanding: the last entry is the bot's. */
  predicate Quiescent(s: WidgetState) {
    Alternating(s.messages) && s.messages[|s.messages| - 1].role == Bot && !s.isLoading
  }

  /** One request outstanding: the last entry is the user's. */
  predicate AwaitingReply(s: WidgetState) {
    Alternating(s.messages) && s.messages[|s.messages| - 1].role == User && s.isLoading
  }

  /** Appending an entry whose role differs from the last keeps a
      transcript alternating. */
  lemma {:induction false} AppendAlternating(m: seq<Entry>, e: Entry)
    requires Alternating(m) && e.role != m[|m| - 1].role
    ensures Alternating(m + [e])
  {
    var m' := m + [e];
    forall i | 0 < i < |m'| ensures m'[i].role != m'[i - 1].role {
      if i < |m| { assert m'[i] == m[i] && m'[i - 1] == m[i - 1]; }
    }
  }

  lemma InitialIsQuiescent()
    ensures Quiescent(Initial())
    ensures Initial().messages == [Entry(Bot, Greeting)] && Initial().error == None
  {
  }

  /** A non-blank submit from a quiescent widget leaves exactly one request
      outstanding; settling it makes the widget quiescent again. */
  lemma {:induction false} SubmitThenSettle(s: WidgetState, f: FetchResult)
    requires Quiescent(s) && Trim(s.input) != ""
    ensures AwaitingReply(Submitted(s).0)
    ensures Quiescent(Settled(Submitted(s).0, f))
  {
    var s1 := Submitted(s).0;
    AppendAlternating(s.messages, Entry(User, s.input));
    AppendAlternating(s1.messages, BotEntry(f));
  }

  /** The user types `text`, then submits; the request settles with `result`. */
  datatype Turn = Turn(text: string, result: FetchResult)

  function Converse(s: WidgetState, turns: seq<Turn>): WidgetState
    decreases |turns|
  {
    if turns == [] then s
    else Converse(Send(s.(input := turns[0].text), turns[0].result), turns[1..])
  }

  /** A turn sends something exactly when its text is not blank. */
  predicate Sends(t: Turn) {
    Trim(t.text) != ""
  }

  /** How many turns actually send something: none exactly when no turn
      sends, all exactly when every turn does. */
  function SentCount(turns: seq<Turn>): (n: nat)
    ensures n <= |turns|
    ensures n == 0 <==> forall i | 0 <= i < |turns| :: !Sends(turns[i])
    ensures n == |turns| <==> forall i | 0 <= i < |turns| :: Sends(turns[i])
    decreases |turns|
  {
    if turns == [] then 0
    else
      var n := (if Sends(turns[0]) then 1 else 0) + SentCount(turns[1..]);
      assert forall i | 1 <= i < |turns| :: turns[i] == turns[1..][i - 1];
      n
  }

  /** A whole `sendMessage` of non-blank input from a quiescent widget
      appends the user entry and then the bot entry. */
  lemma {:induction false} SendAppendsPair(s: WidgetState, f: FetchResult)
    requires Quiescent(s) && Trim(s.input) != ""
    ensures Quiescent(Send(s, f))
    ensures Send(s, f).messages == s.messages + [Entry(User, s.input), BotEntry(f)]
  {
    SubmitThenSettle(s, f);
    assert s.messages + [Entry(User, s.input)] + [BotEntry(f)] == s.messages + [Entry(User, s.input), BotEntry(f)];
  }

  /** One turn from a quiescent widget: quiescent again, the transcript
      extended by two entries if the text was not blank and untouched
      otherwise. */
  lemma {:induction false} TurnStep(s: WidgetState, t: Turn)
    requires Quiescent(s)
    ensures var next := Send(s.(input := t.text), t.result);
      && Quiescent(next)
      && next.messages == s.messages + (if Trim(t.text) == "" then []
                                        else [Entry(User, t.text), BotEntry(t.result)])
  {
    if Trim(t.text) == "" {
      assert s.messages + [] == s.messages;
    } else {
      SendAppendsPair(s.(input := t.text), t.result);
    }
  }

  /** Any sequence of turns keeps the widget quiescent, leaves the earlier
      transcript untouched and adds exactly two entries per sent turn. */
  lemma {:induction false} ConverseKeepsTranscript(s: WidgetState, turns: seq<Turn>)
    requires Quiescent(s)
    ensures Quiescent(Converse(s, turns))
    ensures |Converse(s, turns).messages| == |s.messages| + 2 * SentCount(turns)
    ensures Converse(s, turns).messages[..|s.messages|] == s.messages
    decreases |turns|
  {
    if turns != [] {
      var next := Send(s.(input := turns[0].text), turns[0].result);
      TurnStep(s, turns[0]);
      ConverseKeepsTranscript(next, turns[1..]);
      var m := Converse(next, turns[1..]).messages;
      assert m[..|next.messages|] == next.messages;
      assert next.messages[..|s.messages|] == s.messages;
      assert m[..|s.messages|] == m[..|next.messages|][..|s.messages|];
    }
  }

  /** After N sent turns from the initial widget: the greeting plus 2N
      entries, alternating user then bot, and the loading flag is off. */
  lemma ConversationFromGreeting(turns: seq<Turn>)
    ensures var s := Converse(Initial(), turns);
      && |s.messages| == 1 + 2 * SentCount(turns)
      && s.messages[0] == Entry(Bot, Greeting)
      && Alternating(s.messages)
      && !s.isLoading
  {
    ConverseKeepsTranscript(Initial(), turns);
  }

  /** How the widget reads the relay's response: `response.ok` is a 2xx
      status, then `data.reply` or `errorData.error`. */
  function Deliver(r: ChatRelay.HttpResponse): (f: FetchResult)
    ensures f.Answered? <==> 200 <= r.status < 300
    ensures f.Answered? && r.body.ReplyBody? ==> f.reply == r.body.reply
    ensures f.Refused? && r.body.ErrorBody? ==> f.error == Some(r.body.error)
    ensures !f.Threw?
  {
    if 200 <= r.status < 300 then
      Answered(if r.body.ReplyBody? then r.body.reply else None)
    else
      Refused(if r.body.ErrorBody? then Some(r.body.error) else None)
  }

  /** Every relay response reaches the widget intact: a 200 as its reply,
      anything else as its error text. */
  lemma {:induction false} DeliverRelayResponse(req: ChatRelay.Request, env: ChatRelay.Env, upstream: ChatRelay.UpstreamResult)
    ensures var r := ChatRelay.HandleChat(req, env, upstream).response;
      Deliver(r) == if r.status == 200 then Answered(r.body.reply) else Refused(Some(r.body.error))
  {
    var r := ChatRelay.HandleChat(req, env, upstream).response;
    assert r.status in {200, 400, 401, 429, 500};
  }

  /** What the widget posts, as the relay reads it. */
  function AsRelayRequest(b: RelayBody): ChatRelay.Request {
    ChatRelay.Body(Str(b.message), Str(b.context))
  }

  /** The widget against the relay: what it sends is never rejected as
      empty, a call is made exactly when the key is configured, and that
      call carries the widget's context as system prompt and the raw input
      as user message. */
  lemma {:induction false} WidgetRequestAccepted(s: WidgetState, env: ChatRelay.Env, upstream: ChatRelay.UpstreamResult)
    requires Trim(s.input) != ""
    ensures var x := ChatRelay.HandleChat(AsRelayRequest(Submitted(s).1.value), env, upstream);
      && x.response.status != 400
      && (ChatRelay.KeyConfigured(env) <==> |x.calls| == 1)
      && (|x.calls| == 1 ==>
            x.calls[0].messages == [ChatRelay.PromptMessage(ChatRelay.System, Str(WidgetContext)),
                                    ChatRelay.PromptMessage(ChatRelay.User, Str(s.input))])
  {
    var req := ChatRelay.Body(Str(s.input), Str(WidgetContext));
    assert AsRelayRequest(Submitted(s).1.value) == req;
    assert Truthy(Str(s.input)) && Truthy(Str(WidgetContext));
    var x := ChatRelay.HandleChat(req, env, upstream);
    if ChatRelay.KeyConfigured(env) {
      assert x.calls == [ChatRelay.CompletionFor(Str(s.input), Str(WidgetContext))];
    }
  }

  /** With no key configured, the widget shows the relay's "API key not
      configured" as an error entry. */
  lemma {:induction false} WidgetShowsMissingKey(s: WidgetState, env: ChatRelay.Env, upstream: ChatRelay.UpstreamResult)
    requires Trim(s.input) != "" && !ChatRelay.KeyConfigured(env)
    ensures var x := ChatRelay.HandleChat(AsRelayRequest(Submitted(s).1.value), env, upstream);
      BotEntry(Deliver(x.response)) == Entry(Bot, ErrorText("API key not configured"))
  {
    assert Submitted(s).1.value == RelayBody(s.input, WidgetContext);
    ChatRelay.MissingKeyRejected(s.input, Str(WidgetContext), env, upstream);
    assert Or(Some(ChatRelay.MissingKeyError), FailedResponseFallback) == ChatRelay.MissingKeyError;
  }

  /** With a key and a completed call, the widget shows the completion's
      content, or its fallback when the content is empty or null. */
  lemma {:induction false} WidgetShowsReply(s: WidgetState, env: ChatRelay.Env, content: Option<string>)
    requires Trim(s.input) != "" && ChatRelay.KeyConfigured(env)
    ensures var x := ChatRelay.HandleChat(AsRelayRequest(Submitted(s).1.value), env, ChatRelay.Completed(content));
      BotEntry(Deliver(x.response)) == Entry(Bot, Or(content, EmptyReplyFallback))
  {
    assert Submitted(s).1.value == RelayBody(s.input, WidgetContext);
    ChatRelay.ReplyPassedThrough(s.input, Str(WidgetContext), env, content);
  }

  /** The widget's state cells. Ids of transcript entries are not kept. */
  class Chatbot {
    var messages: seq<Entry>
    var input: string
    var isLoading: bool
    var error: Option<string>

    function State(): WidgetState
      reads this
    {
      WidgetState(messages, input, isLoading, error)
    }

    constructor ()
      ensures State() == Initial()
    {
      messages := [GreetingEntry];
      input := "";
      isLoading := false;
      error := None;
    }

    /** The input field's `onChange`. */
    method SetInput(text: string)
      modifies this
      ensures State() == old(State()).(input := text)
    {
      input := text;
    }

    /** `sendMessage` up to its `await`; returns the body posted, if any. */
    method Submit() returns (sent: Option<RelayBody>)
      modifies this
      ensures (State(), sent) == Submitted(old(State()))
    {
      var typed := input;
      if Trim(typed) == "" {
        sent := None;
      } else {
        sent := Some(RelayBody(typed, WidgetContext));
        messages := messages + [Entry(User, typed)];
        input := "";
        isLoading := true;
        error := None;
      }
    }

    /** `sendMessage` after the request settles. */
    method Settle(f: FetchResult)
      modifies this
      ensures State() == Settled(old(State()), f)
    {
      var failure := FailureMessage(f);
      if failure.Some? {
        error := failure;
      }
      messages := messages + [BotEntry(f)];
      isLoading := false;
    }

    /** The whole `sendMessage`, the request settling with `f`. */
    method SendMessage(f: FetchResult) returns (sent: Option<RelayBody>)
      modifies this
      ensures State() == Send(old(State()), f)
      ensures sent == Submitted(old(State())).1
    {
      sent := Submit();
      if sent.Some? {
        Settle(f);
      }
    }
  }
}
