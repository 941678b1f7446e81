/** The conversation page's state machine: the history-loading effect, the
    input box, and the submit handler with its reply/failure continuations.
    The server's replies are inputs; navigation is an output. */
module ChatPage {
  import opened Js
  import AuthStore

  datatype Role = User | Model
  datatype Part = Part(text: string)

  /** A message of the view. Messages loaded from the server are server
      records that carry more than a role and parts; `serverId` stands for
      those further fields (None for messages the page creates itself). */
  datatype Message = Message(role: Role, parts: seq<Part>, serverId: Option<string>)

  /** One entry of the `history` field of a send request: a message reduced
      to its role and parts. */
  datatype Turn = Turn(role: Role, parts: seq<Part>)

  /** The synthetic reply shown when the send request fails. */
  const ErrorReply := "Sorry, I encountered an error. Please try again."

  /** The conversationless chat route. */
  const ChatPath := "/chat"

  /** The page's local state. */
  datatype View = View(messages: seq<Message>, input: string, isLoading: bool, isHistoryLoading: bool)

  /** The body of the send request. */
  datatype SendRequest = SendRequest(message: string, conversationId: Option<string>, history: seq<Turn>)

  /** The server's answer to a send request: the reply text and the
      conversation's id, or a failure of any kind. */
  datatype Reply = ReplyOk(reply: string, conversationId: string) | ReplyErr

  /** A view together with the request it issues, if any. */
  datatype Submitted = Submitted(view: View, request: Option<SendRequest>)

  /** A view together with the route it navigates to, if any. */
  datatype Settled = Settled(view: View, navigate: Option<string>)

  /** The history-load request: which conversation, with which token. */
  datatype HistoryFetch = HistoryFetch(conversationId: string, token: string)

  /** The server's answer to a history-load request. */
  datatype HistoryResponse = Loaded(messages: seq<Message>) | LoadFailed

  datatype LoadStarted = LoadStarted(view: View, fetch: Option<HistoryFetch>)

  function UserMessage(text: string): Message {
    Message(User, [Part(text)], None)
  }

  function ModelMessage(text: string): Message {
    Message(Model, [Part(text)], None)
  }

  /** The text of the model message a reply produces. */
  function ReplyText(reply: Reply): string {
    match reply
    case ReplyOk(text, _) => text
    case ReplyErr => ErrorReply
  }

  /** The page's state on mount. */
  function Initial(): (v: View)
    ensures v.messages == [] && v.input == ""
    ensures !v.isLoading && !v.isHistoryLoading
  {
    View([], "", false, false)
  }

  /** The input box's `onChange`: replaces the input text, nothing else. */
  function Typed(v: View, text: string): (r: View)
    ensures r.input == text
    ensures r.messages == v.messages && r.isLoading == v.isLoading
    ensures r.isHistoryLoading == v.isHistoryLoading
  {
    v.(input := text)
  }

  /** The `history` field of a send request: each message reduced to its
      role and parts, in order. */
  function HistoryOf(messages: seq<Message>): (h: seq<Turn>)
    ensures |h| == |messages|
    ensures forall i :: 0 <= i < |h| ==> h[i].role == messages[i].role && h[i].parts == messages[i].parts
  {
    seq(|messages|, i requires 0 <= i < |messages| => Turn(messages[i].role, messages[i].parts))
  }

  /** The history depends on nothing but each message's role and parts:
      two lists that agree on those, whatever else the server attached,
      send the same history. */
  lemma HistoryIgnoresServerFields(ms1: seq<Message>, ms2: seq<Message>)
    requires |ms1| == |ms2|
    requires forall i :: 0 <= i < |ms1| ==> ms1[i].role == ms2[i].role && ms1[i].parts == ms2[i].parts
    ensures HistoryOf(ms1) == HistoryOf(ms2)
  {
  }

  /** Appending a message appends its role and parts to the history. */
  lemma {:induction false} HistoryOfAppend(ms: seq<Message>, m: Message)
    ensures HistoryOf(ms + [m]) == HistoryOf(ms) + [Turn(m.role, m.parts)]
  {
    var l, r := HistoryOf(ms + [m]), HistoryOf(ms) + [Turn(m.role, m.parts)];
    assert |l| == |r|;
    forall i | 0 <= i < |l|
      ensures l[i] == r[i]
    {
      if i < |ms| {
        assert (ms + [m])[i] == ms[i];
      } else {
        assert (ms + [m])[i] == m;
      }
    }
  }

  /** `handleSubmit`, up to the request: blank input is ignored; otherwise
      the user's message is appended optimistically, the input is cleared,
      the page starts loading, and the request carries the untrimmed input
      and the messages that preceded it. */
  function Submit(v: View, conversationId: Option<string>): (r: Submitted)
    ensures r.request.None? <==> AllWhitespace(v.input)
    ensures AllWhitespace(v.input) ==> r.view == v
    ensures !AllWhitespace(v.input) ==>
              && r.view.messages == v.messages + [UserMessage(v.input)]
              && r.view.input == ""
              && r.view.isLoading
              && r.view.isHistoryLoading == v.isHistoryLoading
              && r.request.value.message == v.input
              && r.request.value.conversationId == conversationId
              && r.request.value.history == HistoryOf(v.messages)
              && |r.request.value.history| == |v.messages|
              && (forall i :: 0 <= i < |v.messages| ==>
                    r.request.value.history[i] == Turn(v.messages[i].role, v.messages[i].parts))
  {
    BlankIffAllWhitespace(v.input);
    if IsBlank(v.input) then Submitted(v, None)
    else
      var history := HistoryOf(v.messages);
      Submitted(
        v.(messages := v.messages + [UserMessage(v.input)], input := "", isLoading := true),
        Some(SendRequest(v.input, conversationId, history)))
  }

  /** `handleSubmit`, after the request settles: exactly one model message
      is appended to the current list (the reply, or the fixed apology on
      failure), loading stops, and a first successful reply in a new
      conversation moves to that conversation's route. */
  function Receive(v: View, conversationId: Option<string>, reply: Reply): (r: Settled)
    ensures |r.view.messages| == |v.messages| + 1
    ensures r.view.messages[..|v.messages|] == v.messages
    ensures r.view.messages[|v.messages|].role == Model
    ensures reply.ReplyOk? ==> r.view.messages[|v.messages|].parts == [Part(reply.reply)]
    ensures reply.ReplyErr? ==> r.view.messages[|v.messages|].parts == [Part(ErrorReply)]
    ensures !r.view.isLoading
    ensures r.view.input == v.input && r.view.isHistoryLoading == v.isHistoryLoading
    ensures r.navigate.Some? <==> reply.ReplyOk? && !Truthy(conversationId)
    ensures r.navigate.Some? ==> r.navigate.value == ChatPath + "/" + reply.conversationId
  {
    var appended := v.messages + [ModelMessage(ReplyText(reply))];
    match reply
    case ReplyOk(text, newId) =>
      if !Truthy(conversationId) then
        Settled(v.(messages := appended, isLoading := false), Some(ChatPath + "/" + newId))
      else
        Settled(v.(messages := appended, isLoading := false), None)
    case ReplyErr =>
      Settled(v.(messages := appended, isLoading := false), None)
  }

  /** A whole exchange: the user's message, then its reply, land after the
      earlier messages, in that order, and the request carried the role and
      parts of exactly the earlier messages. */
  lemma SubmitThenReceive(v: View, conversationId: Option<string>, reply: Reply)
    requires !AllWhitespace(v.input)
    ensures Submit(v, conversationId).request == Some(SendRequest(v.input, conversationId, HistoryOf(v.messages)))
    ensures Receive(Submit(v, conversationId).view, conversationId, reply).view.messages
            == v.messages + [UserMessage(v.input), ModelMessage(ReplyText(reply))]
    ensures Receive(Submit(v, conversationId).view, conversationId, reply).view.input == ""
    ensures !Receive(Submit(v, conversationId).view, conversationId, reply).view.isLoading
  {
    var sent := Submit(v, conversationId).view;
    var after := Receive(sent, conversationId, reply).view.messages;
    var user, model := UserMessage(v.input), ModelMessage(ReplyText(reply));
    assert sent.messages == v.messages + [user];
    var n := |sent.messages|;
    assert after[n] == model by {
      assert after[n].role == Model;
      assert after[n].parts == [Part(ReplyText(reply))];
    }
    ExtendByOne(after, sent.messages);
    AppendPair(v.messages, user, model);
  }

  lemma AppendPair(ms: seq<Message>, x: Message, y: Message)
    ensures ms + [x] + [y] == ms + [x, y]
  {
  }

  /** A list one longer than a prefix of it is that prefix plus its last element. */
  lemma ExtendByOne(longer: seq<Message>, prefix: seq<Message>)
    requires |longer| == |prefix| + 1 && longer[..|prefix|] == prefix
    ensures longer == prefix + [longer[|prefix|]]
  {
  }

  /** The events of the conversation view once history is in place. */
  datatype Event = Type(text: string) | Send | Answer(reply: Reply)

  function Step(v: View, conversationId: Option<string>, e: Event): View {
    match e
    case Type(text) => Typed(v, text)
    case Send => Submit(v, conversationId).view
    case Answer(reply) => Receive(v, conversationId, reply).view
  }

  function Run(v: View, conversationId: Option<string>, events: seq<Event>): View
    decreases |events|
  {
    if events == [] then v
    else Run(Step(v, conversationId, events[0]), conversationId, events[1..])
  }

  /** Typing, submitting and receiving replies, in any order (including a
      second submit before the first reply), never lose or reorder a
      message: the earlier list is always a prefix of the later one. */
  lemma {:induction false} RunAppendOnly(v: View, conversationId: Option<string>, events: seq<Event>)
    ensures v.messages <= Run(v, conversationId, events).messages
    ensures Run(v, conversationId, events).isHistoryLoading == v.isHistoryLoading
    decreases |events|
  {
    if events != [] {
      var w := Step(v, conversationId, events[0]);
      assert v.messages <= w.messages;
      RunAppendOnly(w, conversationId, events[1..]);
    }
  }

  /** The history-loading effect, up to the request: with no token, no
      conversation id, or a guest session, the list is emptied and nothing
      is fetched; otherwise the page starts loading the conversation. */
  function BeginHistoryLoad(v: View, token: Option<string>, conversationId: Option<string>, isGuest: bool): (r: LoadStarted)
    ensures r.fetch.Some? <==> Truthy(token) && Truthy(conversationId) && !isGuest
    ensures r.fetch.None? ==> r.view == v.(messages := [], isHistoryLoading := false)
    ensures r.fetch.Some? ==>
              && r.view == v.(isHistoryLoading := true)
              && r.fetch.value == HistoryFetch(conversationId.value, token.value)
  {
    if Truthy(token) then
      if !Truthy(conversationId) || isGuest then
        LoadStarted(v.(messages := [], isHistoryLoading := false), None)
      else
        LoadStarted(v.(isHistoryLoading := true), Some(HistoryFetch(conversationId.value, token.value)))
    else
      LoadStarted(v.(isHistoryLoading := false, messages := []), None)
  }

  /** The history-loading effect, after the request settles: the loaded
      messages replace the list; a failure keeps the list and navigates to
      the conversationless route; loading stops either way. */
  function FinishHistoryLoad(v: View, response: HistoryResponse): (r: Settled)
    ensures !r.view.isHistoryLoading
    ensures r.view.input == v.input && r.view.isLoading == v.isLoading
    ensures response.Loaded? ==> r.view.messages == response.messages && r.navigate.None?
    ensures response.LoadFailed? ==> r.view.messages == v.messages && r.navigate == Some(ChatPath)
  {
    match response
    case Loaded(ms) => Settled(v.(messages := ms, isHistoryLoading := false), None)
    case LoadFailed => Settled(v.(isHistoryLoading := false), Some(ChatPath))
  }

  /** A failed load does not clear the list by itself; the navigation to
      the conversationless route re-runs the effect without a conversation
      id, and that run empties the list without fetching. */
  lemma FailedLoadThenRerunClears(v: View, token: Option<string>, conversationId: Option<string>, isGuest: bool)
    requires BeginHistoryLoad(v, token, conversationId, isGuest).fetch.Some?
    ensures var started := BeginHistoryLoad(v, token, conversationId, isGuest);
            var failed := FinishHistoryLoad(started.view, LoadFailed);
            var rerun := BeginHistoryLoad(failed.view, token, None, isGuest);
            && failed.navigate == Some(ChatPath)
            && rerun.fetch.None?
            && rerun.view.messages == []
            && !rerun.view.isHistoryLoading
  {
  }

  /** A guest's conversation does not survive its first reply: the reply
      navigates to the new conversation's route, and the effect, re-run for
      that conversation id, empties the list because the session is a guest. */
  lemma GuestFirstReplyThenRerunClears(v: View, token: Option<string>, text: string, newId: string)
    ensures var settled := Receive(v, None, ReplyOk(text, newId));
            var rerun := BeginHistoryLoad(settled.view, token, Some(newId), true);
            && settled.navigate == Some(ChatPath + "/" + newId)
            && |settled.view.messages| == |v.messages| + 1
            && rerun.fetch.None?
            && rerun.view.messages == []
  {
  }

  /** Only a full (non-guest) authenticated session ever fetches history. */
  lemma HistoryFetchNeedsFullSession(v: View, s: AuthStore.Session, conversationId: Option<string>)
    requires AuthStore.Consistent(s)
    ensures BeginHistoryLoad(v, s.token, conversationId, s.isGuest).fetch.Some? ==>
              s.isAuthenticated && !s.isGuest
  {
  }
}
