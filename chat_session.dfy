/** The chat session of frontend/app.py: the fields the app keeps in `st.session_state`,
    the guest quota (four prompts without a login), and the transitions made by
    logging out, "New Chat", opening a history entry, clicking a suggested question
    and submitting a prompt. Rendering is not modelled; the reply of the research
    service is a parameter. The pure functions below specify each transition, and
    the class `Session` performs them in place on its fields. */
module ChatSession {

  datatype Option<T> = None | Some(value: T) {
    function GetOr(default: T): T {
      if Some? then value else default
    }
  }

  /** The values of `current_page`; the router sends every other value to the chat page. */
  datatype Page = Login | Signup | ForgotPassword | Chat | Profile

  datatype Role = User | Assistant

  /** `{"role": ..., "content": ...}` in `st.session_state.messages`. */
  datatype Message = Message(role: Role, content: string)

  /** `st.session_state.user` after a login: `{"username": ...}`. */
  datatype Account = Account(username: string)

  /** The JSON object in a reply of POST /research; a key it lacks is `None`. */
  datatype ReplyBody = ReplyBody(query: Option<string>, result: Option<string>, suggestions: Option<seq<string>>)

  /** What `requests.post` gives: a response with its status code and, when the body
      parses as a JSON object, that object; or an exception (connection failure). */
  datatype HttpReply = Response(status: int, body: Option<ReplyBody>) | ConnectionFailed(error: string)

  /** The session fields: `auth_token`, `user`, `messages`, `chat_count`, `suggestions`,
      `suggestion_clicked` (`None` while the key is absent) and `current_page`. */
  datatype State = State(
    authToken: Option<string>,
    user: Option<Account>,
    messages: seq<Message>,
    chatCount: nat,
    suggestions: seq<string>,
    suggestionClicked: Option<string>,
    currentPage: Page)

  /** A guest may submit this many prompts. */
  const GuestLimit: nat := 4

  /** The state on first load: no token, no user, no messages, a zero count, the chat page. */
  function Initial(): (s: State)
    ensures !HasToken(s) && s.chatCount == 0 && s.messages == [] && s.currentPage == Chat
  {
    State(None, None, [], 0, [], None, Chat)
  }

  /** `if st.session_state.auth_token`: a token is present and is not the empty string. */
  predicate HasToken(s: State) {
    s.authToken.Some? && s.authToken.value != ""
  }

  /** `limit_reached` in `chat_page`: a guest who has used up the quota. */
  predicate LimitReached(s: State) {
    !HasToken(s) && s.chatCount >= GuestLimit
  }

  /** The invariant of every reachable state: the count never passes the guest limit. */
  predicate WithinQuota(s: State) {
    s.chatCount <= GuestLimit
  }

  /** Number of prompts the user has sent in `ms`. */
  function UserPrompts(ms: seq<Message>): nat {
    if ms == [] then 0
    else UserPrompts(ms[..|ms| - 1]) + (if ms[|ms| - 1].role == User then 1 else 0)
  }

  /** `navigate_to(page)`. */
  function AfterNavigate(s: State, page: Page): (t: State)
    ensures t.currentPage == page
    ensures t.(currentPage := s.currentPage) == s
  {
    s.(currentPage := page)
  }

  /** `logout()`: forget the token, the user and the conversation, reset the count,
      go to the login page; suggestions and a pending click are kept. */
  function AfterLogout(s: State): (t: State)
    ensures !HasToken(t) && t.user == None && t.messages == [] && t.chatCount == 0
    ensures t.currentPage == Login
    ensures t.suggestions == s.suggestions && t.suggestionClicked == s.suggestionClicked
  {
    s.(authToken := None, user := None, messages := [], chatCount := 0, currentPage := Login)
  }

  /** The "New Chat" button: empty conversation, zero count, no suggestions; nothing else changes. */
  function AfterNewChat(s: State): (t: State)
    ensures t.messages == [] && t.chatCount == 0 && t.suggestions == []
    ensures t.(messages := s.messages, chatCount := s.chatCount, suggestions := s.suggestions) == s
  {
    s.(messages := [], chatCount := 0, suggestions := [])
  }

  /** A successful login on the login page: store the token and the user, go to the chat page. */
  function AfterLogIn(s: State, token: string, username: string): (t: State)
    ensures t.authToken == Some(token) && t.user == Some(Account(username)) && t.currentPage == Chat
    ensures t.(authToken := s.authToken, user := s.user, currentPage := s.currentPage) == s
  {
    s.(authToken := Some(token), user := Some(Account(username)), currentPage := Chat)
  }

  /** Clicking a history entry: the conversation becomes that query and its response. */
  function AfterOpenHistory(s: State, query: string, response: string): (t: State)
    ensures t.messages == [Message(User, query), Message(Assistant, response)] && t.suggestions == []
    ensures t.(messages := s.messages, suggestions := s.suggestions) == s
  {
    s.(messages := [Message(User, query), Message(Assistant, response)], suggestions := [])
  }

  /** Clicking the `i`-th suggested question: it becomes the pending `suggestion_clicked`. */
  function AfterClickSuggestion(s: State, i: nat): (t: State)
    requires i < |s.suggestions|
    ensures t.suggestionClicked == Some(s.suggestions[i])
    ensures t.(suggestionClicked := s.suggestionClicked) == s
  {
    s.(suggestionClicked := Some(s.suggestions[i]))
  }

  /** The prompt a run of the chat page acts on: a pending, non-empty `suggestion_clicked`
      wins over the typed input and is removed from the state; otherwise the typed
      input (empty when nothing was submitted) is the prompt and the state is unchanged. */
  function PendingPrompt(s: State, typed: string): (r: (State, string))
    ensures s.suggestionClicked.Some? && s.suggestionClicked.value != "" ==>
      r.1 == s.suggestionClicked.value && r.0 == s.(suggestionClicked := None)
    ensures !(s.suggestionClicked.Some? && s.suggestionClicked.value != "") ==> r == (s, typed)
  {
    match s.suggestionClicked
    case Some(pending) =>
      if pending != "" then (s.(suggestionClicked := None), pending) else (s, typed)
    case None => (s, typed)
  }

  const TopicHeading: string := "\n**Topic:** "
  const ReportFooter: string := "\n\n---\n\U{26A1} *Report generated*\n"

  /** The text of the assistant message for a report: the topic heading with the query,
      a blank line, the report text itself, and the closing line. */
  function ReportMessage(query: string, result: string): (m: string)
    ensures var at := |TopicHeading| + |query| + 2;
      |m| == at + |result| + |ReportFooter| &&
      m[..|TopicHeading|] == TopicHeading &&
      m[|TopicHeading|..|TopicHeading| + |query|] == query &&
      m[at..at + |result|] == result
  {
    TopicHeading + query + "\n\n" + result + ReportFooter
  }

  /** Processing a non-empty prompt: clear the suggestions, count the prompt if the user
      is a guest, append the user's message and post the prompt. A status-200 reply whose
      body has a `result` replaces the suggestions with the reply's (or `[]`); the
      assistant message is appended only if the body also has a `query`. Any other
      reply (an error status, a body that is not JSON, a connection error) leaves
      only the user's message added. */
  function AfterPrompt(s: State, prompt: string, reply: HttpReply): (t: State)
    requires prompt != ""
    ensures t.chatCount == if HasToken(s) then s.chatCount else s.chatCount + 1
    ensures |t.messages| >= |s.messages| + 1 && t.messages[..|s.messages| + 1] == s.messages + [Message(User, prompt)]
    ensures Answered(reply) <==> |t.messages| == |s.messages| + 2
    ensures !Answered(reply) ==> t.messages == s.messages + [Message(User, prompt)]
    ensures Answered(reply) ==>
      t.messages[|s.messages| + 1] == Message(Assistant, ReportMessage(reply.body.value.query.value, reply.body.value.result.value))
    ensures t.suggestions == if HasResult(reply) then reply.body.value.suggestions.GetOr([]) else []
    ensures t.authToken == s.authToken && t.user == s.user && t.currentPage == s.currentPage
    ensures t.suggestionClicked == s.suggestionClicked
  {
    var sent := s.(
      suggestions := [],
      chatCount := if HasToken(s) then s.chatCount else s.chatCount + 1,
      messages := s.messages + [Message(User, prompt)]);
    if !HasResult(reply) then sent
    else
      var body := reply.body.value;
      var updated := sent.(suggestions := body.suggestions.GetOr([]));
      if body.query.None? then updated
      else updated.(messages := updated.messages + [Message(Assistant, ReportMessage(body.query.value, body.result.value))])
  }

  /** A status-200 reply whose JSON body has a `result`. */
  predicate HasResult(reply: HttpReply) {
    reply.Response? && reply.status == 200 && reply.body.Some? && reply.body.value.result.Some?
  }

  /** A reply that gets an assistant message: it also has the `query` the message shows. */
  predicate Answered(reply: HttpReply) {
    HasResult(reply) && reply.body.value.query.Some?
  }

  /** One run of the chat page with `typed` as the chat input (empty when nothing was
      submitted) and `reply` as what the research service answers if a prompt is posted:
      a guest over the limit is stopped before anything happens; otherwise the prompt
      is taken and, when non-empty, processed. */
  function AfterChatPage(s: State, typed: string, reply: HttpReply): (t: State)
    ensures LimitReached(s) ==> t == s
  {
    if LimitReached(s) then s
    else
      var (taken, prompt) := PendingPrompt(s, typed);
      if prompt != "" then AfterPrompt(taken, prompt, reply) else taken
  }

  /** What the user can do, one script run each. */
  datatype Event =
    | Navigate(page: Page)
    | Logout
    | NewChat
    | LogIn(token: string, username: string)
    | OpenHistory(query: string, response: string)
    | ClickSuggestion(index: nat)
    | ChatPageRun(typed: string, reply: HttpReply)

  /** Whether the page on show offers the event: the sidebar's New Chat, history, and
      logout buttons and the chat input are on the chat page (history and logout only
      with a token, suggestion buttons only below the limit); the login form is on the
      login page; the profile page has its own logout button. */
  predicate Enabled(s: State, e: Event) {
    match e
    case Navigate(_) => true
    case Logout => (s.currentPage == Chat && HasToken(s)) || s.currentPage == Profile
    case NewChat => s.currentPage == Chat
    case LogIn(_, _) => s.currentPage == Login
    case OpenHistory(_, _) => s.currentPage == Chat && HasToken(s)
    case ClickSuggestion(i) => s.currentPage == Chat && !LimitReached(s) && i < |s.suggestions|
    case ChatPageRun(_, _) => s.currentPage == Chat
  }

  function Step(s: State, e: Event): State
    requires Enabled(s, e)
  {
    match e
    case Navigate(page) => AfterNavigate(s, page)
    case Logout => AfterLogout(s)
    case NewChat => AfterNewChat(s)
    case LogIn(token, username) => AfterLogIn(s, token, username)
    case OpenHistory(query, response) => AfterOpenHistory(s, query, response)
    case ClickSuggestion(i) => AfterClickSuggestion(s, i)
    case ChatPageRun(typed, reply) => AfterChatPage(s, typed, reply)
  }

  /** Every event of `events` is offered when its turn comes. */
  predicate Admissible(s: State, events: seq<Event>)
    decreases |events|
  {
    events == [] || (Enabled(s, events[0]) && Admissible(Step(s, events[0]), events[1..]))
  }

  function Replay(s: State, events: seq<Event>): State
    requires Admissible(s, events)
    decreases |events|
  {
    if events == [] then s else Replay(Step(s, events[0]), events[1..])
  }

  /** The count moves only when a guest's prompt is processed, and then by exactly one;
      a user with a token never moves it. */
  lemma ChatPageCount(s: State, typed: string, reply: HttpReply)
    ensures var t := AfterChatPage(s, typed, reply);
      var prompt := PendingPrompt(s, typed).1;
      t.chatCount == if HasToken(s) || LimitReached(s) || prompt == "" then s.chatCount else s.chatCount + 1
  {
  }

  /** `limit_reached` is exactly the condition under which a submitted prompt is refused:
      with it, a run of the chat page sends nothing; without it (a user with a token, or
      a guest under four chats), a non-empty prompt is sent as a user message. */
  lemma LimitStopsPrompts(s: State, typed: string, reply: HttpReply)
    requires typed != ""
    ensures LimitReached(s) <==> AfterChatPage(s, typed, reply).messages == s.messages
  {
    if !LimitReached(s) {
      var prompt := PendingPrompt(s, typed).1;
      assert prompt != "";
      assert |AfterChatPage(s, typed, reply).messages| > |s.messages|;
    }
  }

  /** The controls a guest is shown: no history entries and no sidebar logout, and once
      the limit is reached no suggestion buttons; New Chat and the chat input stay on the
      chat page whatever the count. */
  lemma GuestControls(s: State, query: string, response: string, i: nat, typed: string, reply: HttpReply)
    requires !HasToken(s)
    ensures !Enabled(s, OpenHistory(query, response))
    ensures Enabled(s, Logout) <==> s.currentPage == Profile
    ensures LimitReached(s) ==> !Enabled(s, ClickSuggestion(i))
    ensures s.currentPage == Chat ==> Enabled(s, NewChat) && Enabled(s, ChatPageRun(typed, reply))
  {
  }

  /** No event takes the count past the guest limit. */
  lemma StepKeepsQuota(s: State, e: Event)
    requires WithinQuota(s) && Enabled(s, e)
    ensures WithinQuota(Step(s, e))
  {
    if e.ChatPageRun? {
      ChatPageCount(s, e.typed, e.reply);
    }
  }

  /** From the initial state, every admissible sequence of events stays within the quota. */
  lemma {:induction false} ReplayKeepsQuota(s: State, events: seq<Event>)
    requires WithinQuota(s) && Admissible(s, events)
    ensures WithinQuota(Replay(s, events))
    decreases |events|
  {
    if events != [] {
      StepKeepsQuota(s, events[0]);
      ReplayKeepsQuota(Step(s, events[0]), events[1..]);
    }
  }

  lemma {:induction false} UserPromptsAppend(a: seq<Message>, b: seq<Message>)
    ensures UserPrompts(a + b) == UserPrompts(a) + UserPrompts(b)
  {
    if b != [] {
      var n := |b| - 1;
      assert (a + b)[..|a + b| - 1] == a + b[..n];
      UserPromptsAppend(a, b[..n]);
    } else {
      assert a + b == a;
    }
  }

  /** The events that reset the count or change who is logged in. */
  predicate IsReset(e: Event) {
    e.NewChat? || e.Logout? || e.LogIn?
  }

  /** For a guest, each event other than a reset adds to the count exactly the prompts it sends. */
  lemma GuestStepCountsPrompts(s: State, e: Event)
    requires !HasToken(s) && Enabled(s, e) && !IsReset(e)
    ensures var t := Step(s, e);
      !HasToken(t) && UserPrompts(t.messages) + s.chatCount == UserPrompts(s.messages) + t.chatCount
  {
    if e.ChatPageRun? && !LimitReached(s) {
      var (taken, prompt) := PendingPrompt(s, e.typed);
      if prompt != "" {
        var t := AfterPrompt(taken, prompt, e.reply);
        var n := |s.messages|;
        UserPromptsAppend(s.messages, [Message(User, prompt)]);
        assert t.messages[..n + 1] == s.messages + [Message(User, prompt)];
        if Answered(e.reply) {
          assert t.messages == t.messages[..n + 1] + [t.messages[n + 1]];
          UserPromptsAppend(t.messages[..n + 1], [t.messages[n + 1]]);
        } else {
          assert t.messages == t.messages[..n + 1];
        }
      }
    }
  }

  /** A guest who neither logs in nor resets the chat can send no more prompts than the
      quota has left: at most four from a fresh session. */
  lemma {:induction false} GuestPromptBudget(s: State, events: seq<Event>)
    requires WithinQuota(s) && !HasToken(s) && Admissible(s, events)
    requires forall i :: 0 <= i < |events| ==> !IsReset(events[i])
    ensures UserPrompts(Replay(s, events).messages) <= UserPrompts(s.messages) + (GuestLimit - s.chatCount)
  {
    GuestCountTracksPrompts(s, events);
    ReplayKeepsQuota(s, events);
  }

  lemma {:induction false} GuestCountTracksPrompts(s: State, events: seq<Event>)
    requires !HasToken(s) && Admissible(s, events)
    requires forall i :: 0 <= i < |events| ==> !IsReset(events[i])
    ensures var t := Replay(s, events);
      UserPrompts(t.messages) + s.chatCount == UserPrompts(s.messages) + t.chatCount
    decreases |events|
  {
    if events != [] {
      GuestStepCountsPrompts(s, events[0]);
      var rest := events[1..];
      assert forall i :: 0 <= i < |rest| ==> !IsReset(rest[i]) by {
        forall i | 0 <= i < |rest| ensures !IsReset(rest[i]) {
          assert rest[i] == events[i + 1];
        }
      }
      GuestCountTracksPrompts(Step(s, events[0]), rest);
    }
  }

  /** "New Chat" gives a guest who has reached the limit a fresh quota. */
  lemma NewChatReopensQuota(s: State)
    requires s.currentPage == Chat && LimitReached(s)
    ensures !LimitReached(Step(s, NewChat))
  {
  }

  /** A clicked suggestion is the prompt of the next run: it is sent as the user's
      message even if something was typed, and it is no longer pending afterwards. */
  lemma ClickedSuggestionIsSent(s: State, i: nat, typed: string, reply: HttpReply)
    requires i < |s.suggestions| && s.suggestions[i] != "" && !LimitReached(s)
    ensures var t := AfterChatPage(AfterClickSuggestion(s, i), typed, reply);
      |t.messages| > |s.messages| && t.messages[|s.messages|] == Message(User, s.suggestions[i]) &&
      t.suggestionClicked == None
  {
    var c := AfterClickSuggestion(s, i);
    var t := AfterChatPage(c, typed, reply);
    assert PendingPrompt(c, typed) == (c.(suggestionClicked := None), s.suggestions[i]);
    assert t.messages[..|s.messages| + 1] == s.messages + [Message(User, s.suggestions[i])];
  }

  /** The label of a history button: the first 25 characters of the query followed by
      ".." when the query is longer than 25 characters, the query itself otherwise. */
  function HistoryLabel(query: string): (shown: string)
    ensures |shown| <= 27
    ensures |query| <= 25 ==> shown == query
    ensures |query| > 25 ==> |shown| == 27 && shown[..25] == query[..25] && shown[25..] == ".."
  {
    if |query| > 25 then query[..25] + ".." else query
  }

  /** A label shows the query unchanged exactly when the query has at most 25 characters,
      or is 27 characters long and already ends in "..". */
  lemma HistoryLabelKeepsQuery(query: string)
    ensures HistoryLabel(query) == query <==> |query| <= 25 || (|query| == 27 && query[25..] == "..")
  {
    if |query| > 25 && HistoryLabel(query) == query {
      assert |query| == 27;
      assert query[25..] == HistoryLabel(query)[25..];
    }
    if |query| == 27 && query[25..] == ".." {
      assert query == query[..25] + query[25..];
    }
  }

  /** The session fields as the app mutates them. */
  class Session {
    var authToken: Option<string>
    var user: Option<Account>
    var messages: seq<Message>
    var chatCount: nat
    var suggestions: seq<string>
    var suggestionClicked: Option<string>
    var currentPage: Page

    function Snapshot(): State
      reads this
    {
      State(authToken, user, messages, chatCount, suggestions, suggestionClicked, currentPage)
    }

    ghost predicate Valid()
      reads this
    {
      WithinQuota(Snapshot())
    }

    /** The session-state initialisation at the top of app.py. */
    constructor ()
      ensures Valid() && Snapshot() == Initial()
    {
      messages := [];
      authToken := None;
      user := None;
      chatCount := 0;
      currentPage := Chat;
      suggestions := [];
      suggestionClicked := None;
    }

    /** `navigate_to(page)`. */
    method NavigateTo(page: Page)
      requires Valid()
      modifies this
      ensures Valid() && Snapshot() == AfterNavigate(old(Snapshot()), page)
    {
      currentPage := page;
    }

    /** `logout()`. */
    method Logout()
      requires Valid()
      modifies this
      ensures Valid() && Snapshot() == AfterLogout(old(Snapshot()))
    {
      authToken := None;
      user := None;
      messages := [];
      chatCount := 0;
      NavigateTo(Login);
    }

    /** The sidebar's "New Chat" button. */
    method NewChat()
      requires Valid()
      modifies this
      ensures Valid() && Snapshot() == AfterNewChat(old(Snapshot()))
    {
      messages := [];
      chatCount := 0;
      suggestions := [];
    }

    /** The login form after `login_user` returned a token. */
    method LogIn(token: string, username: string)
      requires Valid()
      modifies this
      ensures Valid() && Snapshot() == AfterLogIn(old(Snapshot()), token, username)
    {
      authToken := Some(token);
      user := Some(Account(username));
      NavigateTo(Chat);
    }

    /** A history button of the sidebar (shown only with a token). */
    method OpenHistory(query: string, response: string)
      requires Valid() && HasToken(Snapshot())
      modifies this
      ensures Valid() && Snapshot() == AfterOpenHistory(old(Snapshot()), query, response)
    {
      messages := [Message(User, query), Message(Assistant, response)];
      suggestions := [];
    }

    /** A suggestion button (shown only below the limit). */
    method ClickSuggestion(i: nat)
      requires Valid() && !LimitReached(Snapshot()) && i < |suggestions|
      modifies this
      ensures Valid() && Snapshot() == AfterClickSuggestion(old(Snapshot()), i)
    {
      suggestionClicked := Some(suggestions[i]);
    }

    /** Take a pending clicked suggestion as the prompt, removing it, or else the typed input. */
    method TakePrompt(typed: string) returns (prompt: string)
      requires Valid()
      modifies this
      ensures Valid() && (Snapshot(), prompt) == PendingPrompt(old(Snapshot()), typed)
    {
      prompt := typed;
      if suggestionClicked.Some? && suggestionClicked.value != "" {
        prompt := suggestionClicked.value;
        suggestionClicked := None;
      }
    }

    /** Process a non-empty prompt below the limit. */
    method ProcessPrompt(prompt: string, reply: HttpReply)
      requires Valid() && !LimitReached(Snapshot()) && prompt != ""
      modifies this
      ensures Valid() && Snapshot() == AfterPrompt(old(Snapshot()), prompt, reply)
    {
      suggestions := [];
      if !HasToken(Snapshot()) {
        chatCount := chatCount + 1;
      }
      messages := messages + [Message(User, prompt)];
      if reply.Response? && reply.status == 200 && reply.body.Some? {
        var body := reply.body.value;
        if body.result.Some? {
          suggestions := body.suggestions.GetOr([]);
          if body.query.Some? {
            messages := messages + [Message(Assistant, ReportMessage(body.query.value, body.result.value))];
          }
        }
      }
    }

    /** One run of `chat_page`. */
    method ChatPage(typed: string, reply: HttpReply)
      requires Valid()
      modifies this
      ensures Valid() && Snapshot() == AfterChatPage(old(Snapshot()), typed, reply)
    {
      if LimitReached(Snapshot()) {
        return;
      }
      var prompt := TakePrompt(typed);
      if prompt != "" {
        ProcessPrompt(prompt, reply);
      }
    }
  }
}
