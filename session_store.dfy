/**
 * The session store of the chat component, as values: its state, one function
 * per event handler, and the properties that hold of every run of handlers.
 * AppComponent.App implements each function as a method on mutable fields.
 */
module SessionStore {
  import opened Chat
  import JsString

  /** The five pieces of component state. */
  datatype State = State(
    input: string,
    current: ChatSession,
    history: seq<ChatSession>,
    isTyping: bool,
    showHistory: bool)

  /** The store's invariant: every archived session holds at least one message. */
  predicate Valid(st: State) {
    forall k :: 0 <= k < |st.history| ==> IsArchivable(st.history[k])
  }

  /** The state as the component mounts, at clock reading `now`. */
  function Initial(now: int): (st: State)
    ensures Valid(st)
  {
    State("", ChatSession(now, []), [], false, false)
  }

  /** The `onChange` handler of the text box: the typed text becomes the input. */
  function SetInput(st: State, text: string): (r: State)
    ensures Valid(st) ==> Valid(r)
    ensures r.history == st.history
  {
    st.(input := text)
  }

  /**
   * `handleSubmit` up to the advice call: a blank input is refused; otherwise
   * the raw input becomes a user message with id `now`, and the store waits.
   */
  function SubmitUser(st: State, now: int): (r: State)
    ensures Valid(st) ==> Valid(r)
    ensures r.history == st.history
  {
    if JsString.IsBlank(st.input) then
      st
    else
      st.(current := st.current.(messages := st.current.messages + [Message(now, st.input, User)]),
          input := "",
          isTyping := true)
  }

  /** `handleSubmit` after the advice call returned `text` at clock reading `now`. */
  function RecordBotReply(st: State, text: string, now: int): (r: State)
    ensures Valid(st) ==> Valid(r)
    ensures r.history == st.history
  {
    st.(isTyping := false,
        current := st.current.(messages := st.current.messages + [Message(now + 1, text, Bot)]))
  }

  /** `startNewChat`: archive the active session if it is not empty, then start an empty one. */
  function StartNewChat(st: State, now: int): (r: State)
    ensures Valid(st) ==> Valid(r)
    ensures st.history <= r.history && |r.history| <= |st.history| + 1
  {
    var archived := if IsArchivable(st.current) then st.history + [st.current] else st.history;
    st.(history := archived, current := ChatSession(now, []))
  }

  /** `loadChatSession`: make `s` the active session and close the history pane. */
  function LoadChatSession(st: State, s: ChatSession): (r: State)
    ensures Valid(st) ==> Valid(r)
    ensures r.history == st.history
  {
    st.(current := s, showHistory := false)
  }

  /** The history button: open or close the history pane. */
  function ToggleHistory(st: State): (r: State)
    ensures Valid(st) ==> Valid(r)
    ensures r.history == st.history
  {
    st.(showHistory := !st.showHistory)
  }

  /** One user-interface event, with the clock reading or text it carries. */
  datatype Event =
    | Typed(text: string)
    | Submitted(now: int)
    | Replied(reply: string, now: int)
    | NewChatClicked(now: int)
    | SessionLoaded(session: ChatSession)
    | HistoryToggled

  /** The handler an event triggers. */
  function Step(st: State, e: Event): (r: State)
    ensures Valid(st) ==> Valid(r)
    ensures st.history <= r.history && |r.history| <= |st.history| + 1
    ensures !e.NewChatClicked? ==> r.history == st.history
  {
    match e
    case Typed(text) => SetInput(st, text)
    case Submitted(now) => SubmitUser(st, now)
    case Replied(reply, now) => RecordBotReply(st, reply, now)
    case NewChatClicked(now) => StartNewChat(st, now)
    case SessionLoaded(s) => LoadChatSession(st, s)
    case HistoryToggled => ToggleHistory(st)
  }

  /** How many of `evs` start a new chat. */
  function NewChatCount(evs: seq<Event>): nat {
    if evs == [] then 0
    else (if evs[0].NewChatClicked? then 1 else 0) + NewChatCount(evs[1..])
  }

  /**
   * The handlers run one after another. Whatever the events, the invariant is
   * kept, the old history stays a prefix of the new one, and the history grows
   * by at most one session per new-chat event.
   */
  function Run(st: State, evs: seq<Event>): (r: State)
    ensures Valid(st) ==> Valid(r)
    ensures st.history <= r.history
    ensures |r.history| <= |st.history| + NewChatCount(evs)
    decreases |evs|
  {
    if evs == [] then st else Run(Step(st, evs[0]), evs[1..])
  }

  /** Without a new-chat event the history is exactly what it was. */
  lemma {:induction false} HistoryFixedWithoutNewChat(st: State, evs: seq<Event>)
    requires forall i :: 0 <= i < |evs| ==> !evs[i].NewChatClicked?
    ensures Run(st, evs).history == st.history
    decreases |evs|
  {
    if evs != [] {
      HistoryFixedWithoutNewChat(Step(st, evs[0]), evs[1..]);
    }
  }

  /** Running two events is applying their handlers in order. */
  lemma RunTwo(st: State, e1: Event, e2: Event)
    ensures Run(st, [e1, e2]) == Step(Step(st, e1), e2)
  {
    assert [e1, e2][1..] == [e2];
    assert Run(st, [e1, e2]) == Run(Step(st, e1), [e2]);
    assert [e2][1..] == [];
    assert Run(Step(st, e1), [e2]) == Run(Step(Step(st, e1), e2), []);
  }

  /**
   * A submission is refused exactly when the input is white space only (or
   * empty), and then nothing changes; otherwise exactly one user message
   * carrying the raw input is appended.
   */
  lemma SubmitByContent(st: State, now: int)
    ensures JsString.AllWhitespace(st.input) ==> SubmitUser(st, now) == st
    ensures !JsString.AllWhitespace(st.input) ==>
      SubmitUser(st, now).current.messages == st.current.messages + [Message(now, st.input, User)]
  {
  }

  /**
   * A full turn, a non-blank submission followed by the reply: the transcript
   * gains the user's message and then the bot's, the typing indicator is off,
   * the input is cleared and the history is as it was.
   */
  lemma FullTurn(st: State, now: int, reply: string, later: int)
    requires !JsString.IsBlank(st.input)
    ensures var r := Run(st, [Submitted(now), Replied(reply, later)]);
      && r.current == ChatSession(st.current.id,
                                  st.current.messages + [Message(now, st.input, User), Message(later + 1, reply, Bot)])
      && r.history == st.history
      && r.input == ""
      && !r.isTyping
      && r.showHistory == st.showHistory
  {
    var s1 := Step(st, Submitted(now));
    var s2 := Step(s1, Replied(reply, later));
    RunTwo(st, Submitted(now), Replied(reply, later));
    assert s2.current.messages == st.current.messages + [Message(now, st.input, User), Message(later + 1, reply, Bot)];
  }

  /**
   * The headache example: from a fresh store, typing "I have a headache",
   * submitting, and receiving "Take paracetamol" leaves exactly those two
   * messages, user first, in the transcript.
   */
  lemma HeadacheExample(t0: int, t1: int, t2: int)
    ensures var r := Run(Initial(t0), [Typed("I have a headache"), Submitted(t1), Replied("Take paracetamol", t2)]);
      r.current.messages == [Message(t1, "I have a headache", User), Message(t2 + 1, "Take paracetamol", Bot)]
  {
    var complaint, advice := "I have a headache", "Take paracetamol";
    var evs := [Typed(complaint), Submitted(t1), Replied(advice, t2)];
    var s1 := Step(Initial(t0), evs[0]);
    assert s1.input == complaint && s1.current.messages == [];
    assert !JsString.IsWhitespace(complaint[0]);
        FullTurn(s1, t1, advice, t2);
    assert evs[1..] == [Submitted(t1), Replied(advice, t2)];
  }

  /**
   * Loading an archived session does not take it out of the history, so
   * starting a new chat afterwards archives it a second time.
   */
  lemma ReloadThenNewChatDuplicates(st: State, k: nat, now: int)
    requires Valid(st) && k < |st.history|
    ensures var r := StartNewChat(LoadChatSession(st, st.history[k]), now).history;
      && r == st.history + [st.history[k]]
      && multiset(r)[st.history[k]] >= 2
  {
  }

  /** A freshly started session is empty, so starting another new chat right away archives nothing. */
  lemma NewChatTwiceArchivesOnce(st: State, a: int, b: int)
    ensures StartNewChat(StartNewChat(st, a), b).history == StartNewChat(st, a).history
  {
  }
}
