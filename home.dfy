/**
 * The home store of the avatar front end: one record holding the persisted
 * partition (onboarding flag, chat log, introduction flag) and the transient
 * partition (processing counter, capture and loading flags, ...), the setters
 * it exposes, the projection `partialize` that selects what goes to durable
 * storage, and the subscriber that asks the save endpoint to store the chat log.
 *
 * The object-identity test `state.chatLog !== prevState.chatLog` is modelled by
 * `logVersion`, which every write of the chat log increases.
 */
module Home {

  /** A chat message. Its shape is not part of this model. */
  type Message(==)

  /** A snapshot of the whole store (viewer handles are not modelled). */
  datatype HomeState = HomeState(
    // persisted partition
    userOnboarded: bool,
    chatLog: seq<Message>,
    logVersion: nat,
    showIntroduction: bool,
    // transient partition
    assistantMessage: string,
    slideMessages: seq<string>,
    chatProcessing: bool,
    chatProcessingCount: int,
    backgroundImageUrl: string,
    modalImage: string,
    triggerShutter: bool,
    webcamStatus: bool,
    captureStatus: bool,
    isCubismCoreLoaded: bool,
    isLive2dLoaded: bool
  )

  /** What `partialize` hands to durable storage. */
  datatype PersistedState = PersistedState(chatLog: seq<Message>, showIntroduction: bool)

  /** The body of one request to the save-chat-log endpoint. */
  datatype SaveRequest = SaveRequest(messages: seq<Message>, isNewFile: bool)

  /** The writes the store takes: its own setters and the `setState` calls of its callers. */
  datatype Action =
    | IncrementChatProcessingCount
    | DecrementChatProcessingCount
    | SetIsCubismCoreLoaded(loaded: bool)
    | SetIsLive2dLoaded(loaded: bool)
    | SetChatLog(log: seq<Message>)
    | SetShowIntroduction(show: bool)

  /**
   * The initial state. `showIntroduction` and `backgroundImageUrl` come from
   * environment configuration and are parameters here.
   */
  function Initial(showIntroduction: bool, backgroundImageUrl: string): HomeState
  {
    HomeState(
      userOnboarded := false,
      chatLog := [],
      logVersion := 0,
      showIntroduction := showIntroduction,
      assistantMessage := "",
      slideMessages := [],
      chatProcessing := false,
      chatProcessingCount := 0,
      backgroundImageUrl := backgroundImageUrl,
      modalImage := "",
      triggerShutter := false,
      webcamStatus := false,
      captureStatus := false,
      isCubismCoreLoaded := false,
      isLive2dLoaded := false
    )
  }

  /** The state after one write; a write of the chat log always installs a new array. */
  function Step(s: HomeState, a: Action): HomeState
  {
    match a
    case IncrementChatProcessingCount => s.(chatProcessingCount := s.chatProcessingCount + 1)
    case DecrementChatProcessingCount => s.(chatProcessingCount := s.chatProcessingCount - 1)
    case SetIsCubismCoreLoaded(loaded) => s.(isCubismCoreLoaded := loaded)
    case SetIsLive2dLoaded(loaded) => s.(isLive2dLoaded := loaded)
    case SetChatLog(log) => s.(chatLog := log, logVersion := s.logVersion + 1)
    case SetShowIntroduction(show) => s.(showIntroduction := show)
  }

  /** What one write changes in the counter, the chat log and the introduction flag. */
  lemma StepEffect(s: HomeState, a: Action)
    ensures Step(s, a).chatProcessingCount == s.chatProcessingCount
              + (if a.IncrementChatProcessingCount? then 1 else 0)
              - (if a.DecrementChatProcessingCount? then 1 else 0)
    ensures Step(s, a).chatLog == (if a.SetChatLog? then a.log else s.chatLog)
    ensures Step(s, a).logVersion == s.logVersion + (if a.SetChatLog? then 1 else 0)
    ensures Step(s, a).showIntroduction == (if a.SetShowIntroduction? then a.show else s.showIntroduction)
  {
    match a
    case IncrementChatProcessingCount =>
    case DecrementChatProcessingCount =>
    case SetIsCubismCoreLoaded(_) =>
    case SetIsLive2dLoaded(_) =>
    case SetChatLog(_) =>
    case SetShowIntroduction(_) =>
  }

  /** The persistence projection; `cut` strips image content from the log. */
  function Partialize(s: HomeState, cut: seq<Message> -> seq<Message>): PersistedState
  {
    PersistedState(cut(s.chatLog), s.showIntroduction)
  }

  /** The subscriber's guard: the log was replaced and the new one is not empty. */
  predicate ShouldSave(state: HomeState, prevState: HomeState)
  {
    state.logVersion != prevState.logVersion && |state.chatLog| > 0
  }

  /** The subscriber's request body: the unstripped log, new file when the old log was empty. */
  function SavePayload(state: HomeState, prevState: HomeState): SaveRequest
  {
    SaveRequest(state.chatLog, |prevState.chatLog| == 0)
  }

  /** What the subscriber sends after a write that took `prevState` to `state`. */
  function Subscriber(state: HomeState, prevState: HomeState): seq<SaveRequest>
  {
    if ShouldSave(state, prevState) then [SavePayload(state, prevState)] else []
  }

  /**
   * A write leads to a save request exactly when it installs a non-empty chat
   * log; the request carries that log and marks a new file when the log it
   * replaced was empty.
   */
  lemma SaveOnWrite(s: HomeState, a: Action)
    ensures Subscriber(Step(s, a), s) != [] <==> a.SetChatLog? && a.log != []
    ensures Subscriber(Step(s, a), s) != [] ==>
              Subscriber(Step(s, a), s) == [SaveRequest(a.log, s.chatLog == [])]
  {
    StepEffect(s, a);
  }

  /** Only the chat log and the introduction flag reach durable storage. */
  lemma PartializeIgnoresOtherFields(s: HomeState, t: HomeState, cut: seq<Message> -> seq<Message>)
    requires s.chatLog == t.chatLog && s.showIntroduction == t.showIntroduction
    ensures Partialize(s, cut) == Partialize(t, cut)
    ensures Partialize(s, cut).chatLog == cut(s.chatLog)
    ensures Partialize(s, cut).showIntroduction == s.showIntroduction
  {
  }

  /** Increment and decrement undo each other, in either order. */
  lemma IncrementDecrementCancel(s: HomeState)
    ensures Step(Step(s, IncrementChatProcessingCount), DecrementChatProcessingCount) == s
    ensures Step(Step(s, DecrementChatProcessingCount), IncrementChatProcessingCount) == s
  {
  }

  /** Each loaded-flag setter is idempotent and leaves the chat log, its identity, the counter and the introduction flag alone. */
  lemma LoadedSettersIdempotent(s: HomeState, b: bool)
    ensures Step(Step(s, SetIsCubismCoreLoaded(b)), SetIsCubismCoreLoaded(b)) == Step(s, SetIsCubismCoreLoaded(b))
    ensures Step(Step(s, SetIsLive2dLoaded(b)), SetIsLive2dLoaded(b)) == Step(s, SetIsLive2dLoaded(b))
    ensures Step(s, SetIsCubismCoreLoaded(b)).chatLog == s.chatLog
    ensures Step(s, SetIsCubismCoreLoaded(b)).logVersion == s.logVersion
    ensures Step(s, SetIsCubismCoreLoaded(b)).chatProcessingCount == s.chatProcessingCount
    ensures Step(s, SetIsCubismCoreLoaded(b)).showIntroduction == s.showIntroduction
    ensures Step(s, SetIsLive2dLoaded(b)).chatLog == s.chatLog
    ensures Step(s, SetIsLive2dLoaded(b)).logVersion == s.logVersion
    ensures Step(s, SetIsLive2dLoaded(b)).chatProcessingCount == s.chatProcessingCount
    ensures Step(s, SetIsLive2dLoaded(b)).showIntroduction == s.showIntroduction
  {
  }

  /**
   * The store object. Its fields are the fields of the state record; `sent`
   * lists the requests the subscriber has issued to the save endpoint, in order.
   * Whether a request succeeds is not reported back: a failed save is only
   * logged and never touches the store.
   */
  class HomeStore {
    var userOnboarded: bool
    var chatLog: seq<Message>
    var logVersion: nat
    var showIntroduction: bool
    var assistantMessage: string
    var slideMessages: seq<string>
    var chatProcessing: bool
    var chatProcessingCount: int
    var backgroundImageUrl: string
    var modalImage: string
    var triggerShutter: bool
    var webcamStatus: bool
    var captureStatus: bool
    var isCubismCoreLoaded: bool
    var isLive2dLoaded: bool
    var sent: seq<SaveRequest>

    function State(): HomeState
      reads this
    {
      HomeState(userOnboarded, chatLog, logVersion, showIntroduction, assistantMessage,
                slideMessages, chatProcessing, chatProcessingCount, backgroundImageUrl,
                modalImage, triggerShutter, webcamStatus, captureStatus,
                isCubismCoreLoaded, isLive2dLoaded)
    }

    constructor (showIntroductionDefault: bool, backgroundImageUrlDefault: string)
      ensures State() == Initial(showIntroductionDefault, backgroundImageUrlDefault)
      ensures chatProcessingCount == 0 && chatLog == [] && !userOnboarded && !chatProcessing
      ensures !captureStatus && !webcamStatus && !triggerShutter
      ensures !isCubismCoreLoaded && !isLive2dLoaded
      ensures sent == []
    {
      userOnboarded := false;
      chatLog := [];
      logVersion := 0;
      showIntroduction := showIntroductionDefault;
      assistantMessage := "";
      slideMessages := [];
      chatProcessing := false;
      chatProcessingCount := 0;
      backgroundImageUrl := backgroundImageUrlDefault;
      modalImage := "";
      triggerShutter := false;
      webcamStatus := false;
      captureStatus := false;
      isCubismCoreLoaded := false;
      isLive2dLoaded := false;
      sent := [];
    }

    /** Runs the subscriber on the write that took `prev` to the current state. */
    method Notify(prev: HomeState)
      modifies this`sent
      ensures sent == old(sent) + Subscriber(State(), prev)
    {
      sent := sent + Subscriber(State(), prev);
    }

    method IncrementChatProcessingCount()
      modifies this
      ensures State() == old(State()).(chatProcessingCount := old(chatProcessingCount) + 1)
      ensures State() == Step(old(State()), Action.IncrementChatProcessingCount)
      ensures sent == old(sent)
    {
      var prev := State();
      chatProcessingCount := chatProcessingCount + 1;
      Notify(prev);
    }

    method DecrementChatProcessingCount()
      modifies this
      ensures State() == old(State()).(chatProcessingCount := old(chatProcessingCount) - 1)
      ensures State() == Step(old(State()), Action.DecrementChatProcessingCount)
      ensures sent == old(sent)
    {
      var prev := State();
      chatProcessingCount := chatProcessingCount - 1;
      Notify(prev);
    }

    method SetIsCubismCoreLoaded(loaded: bool)
      modifies this
      ensures State() == old(State()).(isCubismCoreLoaded := loaded)
      ensures State() == Step(old(State()), Action.SetIsCubismCoreLoaded(loaded))
      ensures sent == old(sent)
    {
      var prev := State();
      isCubismCoreLoaded := loaded;
      Notify(prev);
    }

    method SetIsLive2dLoaded(loaded: bool)
      modifies this
      ensures State() == old(State()).(isLive2dLoaded := loaded)
      ensures State() == Step(old(State()), Action.SetIsLive2dLoaded(loaded))
      ensures sent == old(sent)
    {
      var prev := State();
      isLive2dLoaded := loaded;
      Notify(prev);
    }

    /** A caller's `setState({ chatLog })` with a newly built array. */
    method SetChatLog(log: seq<Message>)
      modifies this
      ensures State() == old(State()).(chatLog := log, logVersion := old(logVersion) + 1)
      ensures State() == Step(old(State()), Action.SetChatLog(log))
      ensures sent == if log != [] then old(sent) + [SaveRequest(log, old(chatLog) == [])]
                      else old(sent)
    {
      var prev := State();
      chatLog, logVersion := log, logVersion + 1;
      Notify(prev);
    }

    /** A caller's `setState({ showIntroduction })`. */
    method SetShowIntroduction(show: bool)
      modifies this
      ensures State() == old(State()).(showIntroduction := show)
      ensures State() == Step(old(State()), Action.SetShowIntroduction(show))
      ensures sent == old(sent)
    {
      var prev := State();
      showIntroduction := show;
      Notify(prev);
    }
  }
}
