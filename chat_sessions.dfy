/** The front end's session store and conversation controller: at most three
    chat sessions, newest first, one of them possibly active; sending a message
    appends it and the assistant's answer (or an error text) to the session. */
module ChatSessions {
  import opened Json
  import opened Text

  /** A session id: the creation time in milliseconds. */
  type ChatId = int

  datatype Role = User | Assistant

  datatype Message = Message(role: Role, content: string, dashboard: Option<Dashboard>)

  datatype Chat = Chat(id: ChatId, title: string, messages: seq<Message>, dashboard: Option<Dashboard>)

  /** What one round trip to the chat endpoint yields. */
  datatype Outcome = Success(responseText: string, dashboard: Option<Dashboard>) | Failure

  /** The body of the request the controller sends. */
  datatype ChatRequest = ChatRequest(message: string, history: seq<Message>)

  const MaxChats: nat := 3
  const TitleLength: nat := 30
  const DefaultTitle: string := "New Dashboard"
  const ErrorText: string := "Sorry, I encountered an error. Please make sure the backend is running."

  /** The title of a new session: the first 30 characters of the prompt, or
      the default title when that prefix is empty. */
  function ChatTitle(prompt: string): (title: string)
    ensures |title| <= TitleLength || title == DefaultTitle
    ensures prompt != "" ==> title == Take(prompt, TitleLength)
    ensures prompt != "" ==> prompt[..|title|] == title
  {
    var head := Take(prompt, TitleLength);
    if head != "" then head else DefaultTitle
  }

  /** A message is blank when nothing but white space remains after trimming. */
  function IsBlank(message: string): (b: bool)
    ensures b <==> forall i :: 0 <= i < |message| ==> IsJsWhitespace(message[i])
  {
    JsTrim(message) == ""
  }

  /** A session matches a target id that is set and equal to its own; a null
      target matches no session. */
  predicate Matches(c: Chat, chatId: Option<ChatId>) {
    chatId == Some(c.id)
  }

  /** No two sessions share an id. */
  predicate UniqueIds(cs: seq<Chat>) {
    forall i, j :: 0 <= i < j < |cs| ==> cs[i].id != cs[j].id
  }

  /** `cs[k]` matches the target and no session before it does. */
  predicate IsFirstMatch(cs: seq<Chat>, chatId: Option<ChatId>, k: int) {
    0 <= k < |cs| && Matches(cs[k], chatId) && forall j :: 0 <= j < k ==> !Matches(cs[j], chatId)
  }

  /** Lookup by id: the first session, in list order, that matches the target. */
  function FindChat(cs: seq<Chat>, chatId: Option<ChatId>): (r: Option<Chat>)
    ensures r.None? <==> forall k :: 0 <= k < |cs| ==> !Matches(cs[k], chatId)
    ensures r.Some? ==> Matches(r.value, chatId) && r.value in cs
    ensures r.Some? ==> exists k :: 0 <= k < |cs| && cs[k] == r.value && IsFirstMatch(cs, chatId, k)
  {
    if cs == [] then None
    else if Matches(cs[0], chatId) then Some(cs[0])
    else FindChat(cs[1..], chatId)
  }

  /** The log a new message is appended to: the target session's messages, or
      the empty log when no session matches. */
  function MessagesOf(cs: seq<Chat>, chatId: Option<ChatId>): (r: seq<Message>)
    ensures (forall k :: 0 <= k < |cs| ==> !Matches(cs[k], chatId)) ==> r == []
    ensures forall k :: IsFirstMatch(cs, chatId, k) ==> r == cs[k].messages
    ensures r != [] ==> exists k :: 0 <= k < |cs| && IsFirstMatch(cs, chatId, k) && r == cs[k].messages
  {
    match FindChat(cs, chatId)
    case Some(c) => c.messages
    case None => []
  }

  /** Every matching session gets the log `msgs`; the others are kept as they are. */
  function SetMessages(cs: seq<Chat>, chatId: Option<ChatId>, msgs: seq<Message>): (r: seq<Chat>)
    ensures |r| == |cs|
    ensures forall k :: 0 <= k < |cs| ==> r[k] == if Matches(cs[k], chatId) then cs[k].(messages := msgs) else cs[k]
  {
    seq(|cs|, k requires 0 <= k < |cs| => if Matches(cs[k], chatId) then cs[k].(messages := msgs) else cs[k])
  }

  /** Every matching session gets the log `msgs` and the dashboard `d`; the
      others are kept as they are. */
  function SetConversation(cs: seq<Chat>, chatId: Option<ChatId>, msgs: seq<Message>, d: Option<Dashboard>): (r: seq<Chat>)
    ensures |r| == |cs|
    ensures forall k :: 0 <= k < |cs| ==>
      r[k] == if Matches(cs[k], chatId) then cs[k].(messages := msgs, dashboard := d) else cs[k]
  {
    seq(|cs|, k requires 0 <= k < |cs| =>
      if Matches(cs[k], chatId) then cs[k].(messages := msgs, dashboard := d) else cs[k])
  }

  /** The sessions whose id differs from `id`, in their original order. */
  function RemoveChat(cs: seq<Chat>, id: ChatId): (r: seq<Chat>)
    ensures |r| <= |cs|
    ensures forall c :: c in r <==> c in cs && c.id != id
  {
    if cs == [] then []
    else if cs[0].id == id then RemoveChat(cs[1..], id)
    else [cs[0]] + RemoveChat(cs[1..], id)
  }

  /** The session `createNewChat` adds: an empty log and no dashboard yet. */
  function NewChat(freshId: ChatId, prompt: string): (c: Chat)
    ensures c.id == freshId && c.messages == [] && c.dashboard == None
    ensures prompt != "" ==> c.title == Take(prompt, TitleLength)
  {
    Chat(freshId, ChatTitle(prompt), [], None)
  }

  /** The new session put in front of the list, which is cut to its first three. */
  function Insert(cs: seq<Chat>, c: Chat): (r: seq<Chat>)
    ensures |r| == if |cs| < MaxChats then |cs| + 1 else MaxChats
    ensures r != [] && r[0] == c
    ensures |r| <= 1 + |cs| && r == ([c] + cs)[..|r|]
    ensures |cs| < MaxChats ==> r == [c] + cs
  {
    Take([c] + cs, MaxChats)
  }

  /** The assistant's message for an outcome: the response text and the
      dashboard on success, the fixed error text and no dashboard on failure. */
  function Reply(outcome: Outcome): (m: Message)
    ensures m.role == Assistant
    ensures outcome.Success? ==> m.content == outcome.responseText && m.dashboard == outcome.dashboard
    ensures outcome.Failure? ==> m.content == ErrorText && m.dashboard == None
  {
    match outcome
    case Success(text, d) => Message(Assistant, text, d)
    case Failure => Message(Assistant, ErrorText, None)
  }

  /** The session list once a message `text` has been answered, the target's
      log having been `base` when the message was sent. */
  function AfterExchange(cs: seq<Chat>, chatId: Option<ChatId>, base: seq<Message>, text: string, outcome: Outcome): (r: seq<Chat>)
    ensures |r| == |cs|
    ensures forall k :: 0 <= k < |cs| && !Matches(cs[k], chatId) ==> r[k] == cs[k]
    ensures forall k :: 0 <= k < |cs| && Matches(cs[k], chatId) ==>
      r[k].id == cs[k].id && r[k].title == cs[k].title
      && r[k].messages == base + [Message(User, text, None), Reply(outcome)]
      && r[k].dashboard == if outcome.Success? then outcome.dashboard else cs[k].dashboard
  {
    var msgs := base + [Message(User, text, None), Reply(outcome)];
    match outcome
    case Success(_, d) => SetConversation(cs, chatId, msgs, d)
    case Failure => SetMessages(cs, chatId, msgs)
  }

  /** The session list after a new session with a fresh id was started from
      `prompt`: inserted in front, then (unless the prompt is blank) given the
      prompt and the reply as its first two messages. */
  function StartedChats(cs: seq<Chat>, freshId: ChatId, prompt: string, outcome: Outcome): seq<Chat> {
    var listed := Insert(cs, NewChat(freshId, prompt));
    if IsBlank(prompt) then listed else AfterExchange(listed, Some(freshId), [], prompt, outcome)
  }

  /** The component's state and its event handlers. */
  class DashboardAgent {
    var chats: seq<Chat>
    var activeChat: Option<ChatId>
    var input: string
    var loading: bool
    var showLanding: bool

    /** At most three sessions are kept, and their ids are distinct. */
    ghost predicate Valid()
      reads this
    {
      |chats| <= MaxChats && UniqueIds(chats)
    }

    /** The initial state of the component. */
    constructor ()
      ensures Valid()
      ensures chats == [] && activeChat == None && input == "" && !loading && showLanding
    {
      chats := [];
      activeChat := None;
      input := "";
      loading := false;
      showLanding := true;
    }

    /** The displayed session: the first one whose id is the active id, if any. */
    function ActiveChatData(): (r: Option<Chat>)
      reads this
      ensures r.Some? ==> r.value in chats && activeChat == Some(r.value.id)
      ensures r.Some? ==> exists k :: 0 <= k < |chats| && chats[k] == r.value && IsFirstMatch(chats, activeChat, k)
      ensures r.None? ==> activeChat.None? || forall c :: c in chats ==> c.id != activeChat.value
    {
      FindChat(chats, activeChat)
    }

    /** Starting a dashboard from a prompt. `freshId` stands for the clock
        reading that becomes the new id, which no existing session carries, and
        `outcome` for the round trip the first message triggers. An empty
        prompt only leaves the landing view for the suggestions. */
    method CreateNewChat(prompt: string, freshId: ChatId, outcome: Outcome) returns (request: Option<ChatRequest>)
      requires Valid()
      requires forall c :: c in chats ==> c.id != freshId
      modifies this
      ensures Valid()
      ensures prompt == "" ==>
        chats == old(chats) && activeChat == None && !showLanding
        && input == old(input) && loading == old(loading) && request == None
      ensures prompt != "" ==>
        activeChat == Some(freshId) && !showLanding
        && chats == StartedChats(old(chats), freshId, prompt, outcome)
        && request == (if IsBlank(prompt) then None else Some(ChatRequest(prompt, [])))
        && input == (if IsBlank(prompt) then old(input) else "")
        && loading == (if IsBlank(prompt) then old(loading) else false)
    {
      if prompt == "" {
        activeChat := None;
        showLanding := false;
        return None;
      }
      request := StartChat(prompt, freshId, outcome);
    }

    /** A non-empty prompt: the new session is inserted and made active, and the
        prompt is sent to it by a closure that still sees the list from before
        the insertion, in which the fresh id has no log. */
    method StartChat(prompt: string, freshId: ChatId, outcome: Outcome) returns (request: Option<ChatRequest>)
      requires Valid()
      requires forall c :: c in chats ==> c.id != freshId
      modifies this
      ensures Valid()
      ensures activeChat == Some(freshId) && !showLanding
      ensures chats == StartedChats(old(chats), freshId, prompt, outcome)
      ensures request == if IsBlank(prompt) then None else Some(ChatRequest(prompt, []))
      ensures input == if IsBlank(prompt) then old(input) else ""
      ensures loading == if IsBlank(prompt) then old(loading) else false
    {
      var stale := chats;
      InsertKeepsIdsUnique(NewChat(freshId, prompt), chats);
      UntargetedExchange(chats, Some(freshId), prompt, outcome);
      chats := Insert(chats, NewChat(freshId, prompt));
      activeChat := Some(freshId);
      showLanding := false;
      request := Send(prompt, Some(freshId), stale, outcome);
    }

    /** Sending `message` to the session `chatId`. */
    method HandleSendMessage(message: string, chatId: Option<ChatId>, outcome: Outcome) returns (request: Option<ChatRequest>)
      requires Valid()
      modifies this
      ensures Valid()
      ensures activeChat == old(activeChat) && showLanding == old(showLanding)
      ensures chats == if IsBlank(message) then old(chats)
        else AfterExchange(old(chats), chatId, MessagesOf(old(chats), chatId), message, outcome)
      ensures request == if IsBlank(message) then None
        else Some(ChatRequest(message, MessagesOf(old(chats), chatId)))
      ensures input == if IsBlank(message) then old(input) else ""
      ensures loading == if IsBlank(message) then old(loading) else false
    {
      request := Send(message, chatId, chats, outcome);
    }

    /** The body of `handleSendMessage`; `snapshot` is the session list its
        closure captured, against which the target's log is looked up. */
    method Send(message: string, chatId: Option<ChatId>, snapshot: seq<Chat>, outcome: Outcome) returns (request: Option<ChatRequest>)
      requires Valid()
      modifies this`chats, this`loading, this`input
      ensures Valid()
      ensures chats == if IsBlank(message) then old(chats)
        else AfterExchange(old(chats), chatId, MessagesOf(snapshot, chatId), message, outcome)
      ensures request == if IsBlank(message) then None
        else Some(ChatRequest(message, MessagesOf(snapshot, chatId)))
      ensures input == if IsBlank(message) then old(input) else ""
      ensures loading == if IsBlank(message) then old(loading) else false
    {
      if IsBlank(message) {
        return None;
      }
      request := Exchange(message, chatId, snapshot, outcome);
    }

    /** A non-blank message sent and answered: it is appended to the log found
        in `snapshot`, the request carries that log, and the reply follows it. */
    method Exchange(message: string, chatId: Option<ChatId>, snapshot: seq<Chat>, outcome: Outcome) returns (request: Option<ChatRequest>)
      requires Valid()
      modifies this`chats, this`loading, this`input
      ensures Valid()
      ensures chats == AfterExchange(old(chats), chatId, MessagesOf(snapshot, chatId), message, outcome)
      ensures request == Some(ChatRequest(message, MessagesOf(snapshot, chatId)))
      ensures input == "" && !loading
    {
      var before := chats;
      loading := true;
      var base := MessagesOf(snapshot, chatId);
      var updated := base + [Message(User, message, None)];
      chats := SetMessages(before, chatId, updated);
      request := Some(ChatRequest(message, updated[..|updated| - 1]));
      var full := updated + [Reply(outcome)];
      assert full == base + [Message(User, message, None), Reply(outcome)];
      if outcome.Success? {
        chats := SetConversation(chats, chatId, full, outcome.dashboard);
        SetConversationAfterMessages(before, chatId, updated, full, outcome.dashboard);
      } else {
        chats := SetMessages(chats, chatId, full);
        SetMessagesTwice(before, chatId, updated, full);
      }
      ExchangeKeepsIdsUnique(before, chatId, base, message, outcome);
      loading := false;
      input := "";
    }

    /** Deleting the session `id` from the sidebar. */
    method DeleteChat(id: ChatId)
      requires Valid()
      modifies this`chats, this`activeChat, this`showLanding
      ensures Valid()
      ensures chats == RemoveChat(old(chats), id)
      ensures old(activeChat) == Some(id) ==> activeChat == None && showLanding
      ensures old(activeChat) != Some(id) ==> activeChat == old(activeChat) && showLanding == old(showLanding)
    {
      RemoveKeepsIdsUnique(chats, id);
      chats := RemoveChat(chats, id);
      if activeChat == Some(id) {
        activeChat := None;
        showLanding := true;
      }
    }

    /** Clicking a session in the sidebar. */
    method SelectChat(id: ChatId)
      requires Valid()
      modifies this`activeChat, this`showLanding
      ensures Valid()
      ensures activeChat == Some(id) && !showLanding
    {
      activeChat := Some(id);
      showLanding := false;
    }

    /** Typing in the input bar replaces its text. */
    method EditInput(text: string)
      requires Valid()
      modifies this`input
      ensures Valid()
      ensures input == text
    {
      input := text;
    }

    /** The input bar's send button and Enter key: the typed text is sent to
        the active session, whatever it is (possibly none). */
    method SendInput(outcome: Outcome) returns (request: Option<ChatRequest>)
      requires Valid()
      modifies this`chats, this`loading, this`input
      ensures Valid()
      ensures chats == if IsBlank(old(input)) then old(chats)
        else AfterExchange(old(chats), activeChat, MessagesOf(old(chats), activeChat), old(input), outcome)
      ensures request == if IsBlank(old(input)) then None
        else Some(ChatRequest(old(input), MessagesOf(old(chats), activeChat)))
      ensures input == if IsBlank(old(input)) then old(input) else ""
      ensures loading == if IsBlank(old(input)) then old(loading) else false
    {
      request := Send(input, activeChat, chats, outcome);
    }
  }

  /** A later replacement of the target's log overrides an earlier one. */
  lemma SetMessagesTwice(cs: seq<Chat>, chatId: Option<ChatId>, m1: seq<Message>, m2: seq<Message>)
    ensures SetMessages(SetMessages(cs, chatId, m1), chatId, m2) == SetMessages(cs, chatId, m2)
  {
  }

  lemma SetConversationAfterMessages(cs: seq<Chat>, chatId: Option<ChatId>, m1: seq<Message>, m2: seq<Message>, d: Option<Dashboard>)
    ensures SetConversation(SetMessages(cs, chatId, m1), chatId, m2, d) == SetConversation(cs, chatId, m2, d)
  {
  }

  /** Inserting a session keeps the three newest: the new one first, then the
      previous ones in order, the oldest dropped once there are three. */
  lemma InsertKeepsNewest(c: Chat, cs: seq<Chat>)
    requires |cs| <= MaxChats
    ensures var r := Insert(cs, c);
      |r| <= MaxChats && r[0] == c
      && (|cs| < MaxChats ==> r == [c] + cs)
      && (|cs| == MaxChats ==> r == [c, cs[0], cs[1]])
  {
  }

  /** With distinct ids the lookup by id finds that very session. */
  lemma FindUnique(cs: seq<Chat>, k: nat)
    requires UniqueIds(cs) && k < |cs|
    ensures FindChat(cs, Some(cs[k].id)) == Some(cs[k])
  {
  }

  /** So the history sent is the target's log before the message. */
  lemma HistoryIsTargetLog(cs: seq<Chat>, k: nat)
    requires UniqueIds(cs) && k < |cs|
    ensures MessagesOf(cs, Some(cs[k].id)) == cs[k].messages
  {
    FindUnique(cs, k);
  }

  /** An answered message changes only the target session: it receives exactly
      two messages, the user's and the reply, and its dashboard is replaced on
      success and kept on failure. */
  lemma ExchangeChangesOnlyTarget(cs: seq<Chat>, k: nat, text: string, outcome: Outcome)
    requires UniqueIds(cs) && k < |cs|
    ensures var r := AfterExchange(cs, Some(cs[k].id), MessagesOf(cs, Some(cs[k].id)), text, outcome);
      |r| == |cs|
      && (forall j :: 0 <= j < |cs| && j != k ==> r[j] == cs[j])
      && r[k].id == cs[k].id && r[k].title == cs[k].title
      && r[k].messages == cs[k].messages + [Message(User, text, None), Reply(outcome)]
      && |r[k].messages| == |cs[k].messages| + 2
      && r[k].dashboard == (if outcome.Success? then outcome.dashboard else cs[k].dashboard)
  {
    HistoryIsTargetLog(cs, k);
  }

  /** A session started with a fresh id comes first, with the prompt's title
      and, unless the prompt is blank, the prompt and the reply as its log; the
      sessions after it are the old ones in order, the oldest evicted once
      there were three. */
  lemma FirstExchange(cs: seq<Chat>, freshId: ChatId, prompt: string, outcome: Outcome)
    requires |cs| <= MaxChats && prompt != "" && forall c :: c in cs ==> c.id != freshId
    ensures MessagesOf(cs, Some(freshId)) == []
    ensures var r := StartedChats(cs, freshId, prompt, outcome);
      |r| == (if |cs| < MaxChats then |cs| + 1 else MaxChats)
      && r[0].id == freshId && r[0].title == Take(prompt, TitleLength) && r[0].dashboard == (if !IsBlank(prompt) && outcome.Success? then outcome.dashboard else None)
      && r[0].messages == (if IsBlank(prompt) then [] else [Message(User, prompt, None), Reply(outcome)])
      && r[1..] == cs[..|r| - 1]
  {
    var c := NewChat(freshId, prompt);
    var listed := Insert(cs, c);
    InsertKeepsNewest(c, cs);
    UntargetedExchange(cs, Some(freshId), prompt, outcome);
    assert listed[1..] == cs[..|listed| - 1];
    assert c.title == Take(prompt, TitleLength);
    var r := StartedChats(cs, freshId, prompt, outcome);
    if IsBlank(prompt) {
      assert r == listed && r[0] == c;
    } else {
      assert r == AfterExchange(listed, Some(freshId), [], prompt, outcome);
      StartedTail(cs, c, prompt, outcome);
      assert r[0].messages == [Message(User, prompt, None), Reply(outcome)];
      assert r[0].dashboard == if outcome.Success? then outcome.dashboard else None;
    }
  }

  /** The exchange of a freshly inserted session touches no other session. */
  lemma StartedTail(cs: seq<Chat>, c: Chat, prompt: string, outcome: Outcome)
    requires forall d :: d in cs ==> d.id != c.id
    ensures var listed := Insert(cs, c);
      var r := AfterExchange(listed, Some(c.id), [], prompt, outcome);
      |r| == |listed| && r[1..] == listed[1..]
      && r[0] == c.(messages := [Message(User, prompt, None), Reply(outcome)],
                    dashboard := if outcome.Success? then outcome.dashboard else c.dashboard)
  {
    var listed := Insert(cs, c);
    var r := AfterExchange(listed, Some(c.id), [], prompt, outcome);
    forall j | 1 <= j < |listed| ensures r[j] == listed[j] {
      assert listed[j] in cs;
    }
  }

  /** Filtering distributes over concatenation, so the survivors keep their order. */
  lemma {:induction false} RemoveChatAppend(a: seq<Chat>, b: seq<Chat>, id: ChatId)
    ensures RemoveChat(a + b, id) == RemoveChat(a, id) + RemoveChat(b, id)
  {
    if a != [] {
      assert (a + b)[0] == a[0];
      assert (a + b)[1..] == a[1..] + b;
      RemoveChatAppend(a[1..], b, id);
      if a[0].id != id {
        calc {
          RemoveChat(a + b, id);
          [a[0]] + RemoveChat(a[1..] + b, id);
          [a[0]] + (RemoveChat(a[1..], id) + RemoveChat(b, id));
          ([a[0]] + RemoveChat(a[1..], id)) + RemoveChat(b, id);
        }
      }
    } else {
      assert a + b == b;
    }
  }

  /** Removing an id that no session has changes nothing. */
  lemma {:induction false} RemoveAbsentChat(cs: seq<Chat>, id: ChatId)
    requires forall c :: c in cs ==> c.id != id
    ensures RemoveChat(cs, id) == cs
  {
    if cs != [] {
      assert forall c :: c in cs[1..] ==> c in cs;
      RemoveAbsentChat(cs[1..], id);
    }
  }

  /** Deleting another session leaves the lookup of the active one as it was. */
  lemma {:induction false} RemoveKeepsOthers(cs: seq<Chat>, id: ChatId, other: ChatId)
    requires other != id
    ensures FindChat(RemoveChat(cs, id), Some(other)) == FindChat(cs, Some(other))
  {
    if cs != [] {
      RemoveKeepsOthers(cs[1..], id, other);
    }
  }

  /** Sessions created with fresh ids keep distinct ids under every update. */
  lemma InsertKeepsIdsUnique(c: Chat, cs: seq<Chat>)
    requires UniqueIds(cs) && forall d :: d in cs ==> d.id != c.id
    ensures UniqueIds(Insert(cs, c))
  {
  }

  lemma {:induction false} RemoveKeepsIdsUnique(cs: seq<Chat>, id: ChatId)
    requires UniqueIds(cs)
    ensures UniqueIds(RemoveChat(cs, id))
  {
    if cs != [] {
      assert UniqueIds(cs[1..]);
      RemoveKeepsIdsUnique(cs[1..], id);
      var r := RemoveChat(cs, id);
      if cs[0].id != id {
        assert forall d :: d in RemoveChat(cs[1..], id) ==> d in cs[1..];
        forall i, j | 0 <= i < j < |r| ensures r[i].id != r[j].id {
          if i == 0 {
            assert r[j] in cs[1..];
          }
        }
      }
    }
  }

  lemma ExchangeKeepsIdsUnique(cs: seq<Chat>, chatId: Option<ChatId>, base: seq<Message>, text: string, outcome: Outcome)
    requires UniqueIds(cs)
    ensures UniqueIds(AfterExchange(cs, chatId, base, text, outcome))
  {
  }

  /** A message sent while no session matches the target (from the neutral
      view, or to a deleted session) still goes out, with an empty history, and
      its exchange is stored in no session. */
  lemma UntargetedExchange(cs: seq<Chat>, chatId: Option<ChatId>, text: string, outcome: Outcome)
    requires forall c :: c in cs ==> !Matches(c, chatId)
    ensures MessagesOf(cs, chatId) == []
    ensures AfterExchange(cs, chatId, MessagesOf(cs, chatId), text, outcome) == cs
  {
  }
}
