/**
 * The `App` component's session store as a mutable object: one field per
 * piece of component state and one method per event handler. Each method
 * states its new fields outright and agrees with the matching function of
 * SessionStore, so the lemmas proved there hold of any sequence of calls.
 */
module AppComponent {
  import opened Chat
  import JsString
  import SessionStore

  class App {
    var input: string
    var currentSession: ChatSession
    var chatHistory: seq<ChatSession>
    var isTyping: bool
    var showHistory: bool

    /** The fields as one value. */
    function State(): SessionStore.State
      reads this
    {
      SessionStore.State(input, currentSession, chatHistory, isTyping, showHistory)
    }

    /** No empty session is ever archived. */
    ghost predicate Valid()
      reads this
    {
      SessionStore.Valid(State())
    }

    /** Mounting the component at clock reading `now`. */
    constructor (now: int)
      ensures Valid() && State() == SessionStore.Initial(now)
      ensures input == "" && currentSession == ChatSession(now, []) && chatHistory == []
      ensures !isTyping && !showHistory
    {
      input := "";
      currentSession := ChatSession(now, []);
      chatHistory := [];
      isTyping := false;
      showHistory := false;
    }

    /** The text box's `onChange`: the typed text replaces the input. */
    method SetInput(text: string)
      requires Valid()
      modifies this
      ensures Valid() && State() == SessionStore.SetInput(old(State()), text)
      ensures input == text
      ensures currentSession == old(currentSession) && chatHistory == old(chatHistory)
      ensures isTyping == old(isTyping) && showHistory == old(showHistory)
    {
      input := text;
    }

    /**
     * `handleSubmit` up to the advice call. A blank input changes nothing and
     * sends nothing. Otherwise the raw input is appended as a user message
     * with id `now`, the input is cleared, the typing indicator is switched
     * on, and the raw input is returned as the text to ask the advice service.
     */
    method SubmitUser(now: int) returns (problem: Option<string>)
      requires Valid()
      modifies this
      ensures Valid() && State() == SessionStore.SubmitUser(old(State()), now)
      ensures chatHistory == old(chatHistory) && showHistory == old(showHistory)
      ensures JsString.IsBlank(old(input)) ==> problem == None && unchanged(this)
      ensures !JsString.IsBlank(old(input)) ==>
        && problem == Some(old(input))
        && currentSession.id == old(currentSession.id)
        && currentSession.messages == old(currentSession.messages) + [Message(now, old(input), User)]
        && input == ""
        && isTyping
    {
      if JsString.IsBlank(input) {
        return None;
      }
      var userMessage := Message(now, input, User);
      problem := Some(input);
      currentSession := currentSession.(messages := currentSession.messages + [userMessage]);
      input := "";
      isTyping := true;
    }

    /**
     * `handleSubmit` after the advice call returned `text` at clock reading
     * `now`: the typing indicator goes off and a bot message with id `now + 1`
     * is appended to whichever session is active.
     */
    method RecordBotReply(text: string, now: int)
      requires Valid()
      modifies this
      ensures Valid() && State() == SessionStore.RecordBotReply(old(State()), text, now)
      ensures !isTyping
      ensures currentSession.id == old(currentSession.id)
      ensures currentSession.messages == old(currentSession.messages) + [Message(now + 1, text, Bot)]
      ensures chatHistory == old(chatHistory) && input == old(input) && showHistory == old(showHistory)
    {
      isTyping := false;
      var botMessage := Message(now + 1, text, Bot);
      currentSession := currentSession.(messages := currentSession.messages + [botMessage]);
    }

    /**
     * `startNewChat`: the active session is appended to the history when it
     * holds a message and dropped when it is empty; an empty session with id
     * `now` becomes active.
     */
    method StartNewChat(now: int)
      requires Valid()
      modifies this
      ensures Valid() && State() == SessionStore.StartNewChat(old(State()), now)
      ensures IsArchivable(old(currentSession)) ==> chatHistory == old(chatHistory) + [old(currentSession)]
      ensures !IsArchivable(old(currentSession)) ==> chatHistory == old(chatHistory)
      ensures currentSession == ChatSession(now, [])
      ensures input == old(input) && isTyping == old(isTyping) && showHistory == old(showHistory)
    {
      if IsArchivable(currentSession) {
        chatHistory := chatHistory + [currentSession];
      }
      currentSession := ChatSession(now, []);
    }

    /** `loadChatSession`: `session` becomes active and the history pane closes; the history is untouched. */
    method LoadChatSession(session: ChatSession)
      requires Valid()
      modifies this
      ensures Valid() && State() == SessionStore.LoadChatSession(old(State()), session)
      ensures currentSession == session && !showHistory
      ensures chatHistory == old(chatHistory) && input == old(input) && isTyping == old(isTyping)
    {
      currentSession := session;
      showHistory := false;
    }

    /** The history button: flips whether the history pane is shown and nothing else. */
    method ToggleHistory()
      requires Valid()
      modifies this
      ensures Valid() && State() == SessionStore.ToggleHistory(old(State()))
      ensures showHistory == !old(showHistory)
      ensures input == old(input) && currentSession == old(currentSession)
      ensures chatHistory == old(chatHistory) && isTyping == old(isTyping)
    {
      showHistory := !showHistory;
    }
  }

  /**
   * A caller's view, from the method contracts alone: one full turn, a new
   * chat, reloading the archived session and another new chat leave that
   * session in the history twice.
   */
  method ReloadScenario(t0: int, t1: int, t2: int, t3: int, t4: int, complaint: string, advice: string)
    returns (problem: Option<string>, history: seq<ChatSession>)
    requires !JsString.IsBlank(complaint)
    ensures problem == Some(complaint)
    ensures |history| == 2 && history[0] == history[1]
    ensures history[0] == ChatSession(t0, [Message(t1, complaint, User), Message(t2 + 1, advice, Bot)])
  {
    var app := new App(t0);
    app.SetInput(complaint);
    problem := app.SubmitUser(t1);
    assert app.currentSession == ChatSession(t0, [Message(t1, complaint, User)]);
    app.RecordBotReply(advice, t2);
    var session := app.currentSession;
    assert session == ChatSession(t0, [Message(t1, complaint, User), Message(t2 + 1, advice, Bot)]);
    assert IsArchivable(session);
    app.StartNewChat(t3);
    assert app.chatHistory == [session];
    app.LoadChatSession(app.chatHistory[0]);
    assert app.currentSession == session;
    app.StartNewChat(t4);
    history := app.chatHistory;
    assert history == [session, session];
  }
}
