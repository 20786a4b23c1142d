/**
 * The home store over a sequence of writes. The subscriber runs after every
 * write, so a trace of actions yields a final state and the ordered list of
 * requests sent to the save endpoint. The lemmas here state what holds of
 * every trace: how the processing counter moves, when saves fire, what they
 * carry, and which writes leave the persisted partition alone.
 */
module HomeTraces {
  import opened Home

  /** The state after applying every action of `t`, in order. */
  function Run(s: HomeState, t: seq<Action>): HomeState
    decreases |t|
  {
    if t == [] then s else Run(Step(s, t[0]), t[1..])
  }

  /** The save requests the subscriber issues while `t` is applied to `s`, in order. */
  function Sent(s: HomeState, t: seq<Action>): seq<SaveRequest>
    decreases |t|
  {
    if t == [] then [] else Subscriber(Step(s, t[0]), s) + Sent(Step(s, t[0]), t[1..])
  }

  function Increments(t: seq<Action>): nat
    decreases |t|
  {
    if t == [] then 0
    else (if t[0].IncrementChatProcessingCount? then 1 else 0) + Increments(t[1..])
  }

  function Decrements(t: seq<Action>): nat
    decreases |t|
  {
    if t == [] then 0
    else (if t[0].DecrementChatProcessingCount? then 1 else 0) + Decrements(t[1..])
  }

  /** The number of writes in `t` that install a non-empty chat log. */
  function NonEmptyLogWrites(t: seq<Action>): nat
    decreases |t|
  {
    if t == [] then 0
    else (if t[0].SetChatLog? && t[0].log != [] then 1 else 0) + NonEmptyLogWrites(t[1..])
  }

  /** The counter moves by exactly one per increment and per decrement, with no clamp. */
  lemma {:induction false} CounterAfterTrace(s: HomeState, t: seq<Action>)
    ensures Run(s, t).chatProcessingCount == s.chatProcessingCount + Increments(t) - Decrements(t)
    decreases |t|
  {
    if t != [] {
      StepEffect(s, t[0]);
      CounterAfterTrace(Step(s, t[0]), t[1..]);
    }
  }

  /** A trace with as many decrements as increments leaves the counter where it was. */
  lemma BalancedTraceRestoresCounter(s: HomeState, t: seq<Action>)
    requires Increments(t) == Decrements(t)
    ensures Run(s, t).chatProcessingCount == s.chatProcessingCount
  {
    CounterAfterTrace(s, t);
  }

  /** From the initial state, k decrements leave the counter at -k. */
  lemma {:induction false} DecrementsGoNegative(s: HomeState, k: nat)
    requires s.chatProcessingCount == 0
    ensures Run(s, seq(k, _ => DecrementChatProcessingCount)).chatProcessingCount == -(k as int)
  {
    var t := seq(k, _ => DecrementChatProcessingCount);
    assert Increments(t) == 0 && Decrements(t) == k by { CountAllDecrements(k); }
    CounterAfterTrace(s, t);
  }

  lemma {:induction false} CountAllDecrements(k: nat)
    ensures Increments(seq(k, _ => DecrementChatProcessingCount)) == 0
    ensures Decrements(seq(k, _ => DecrementChatProcessingCount)) == k
  {
    if k > 0 {
      var t := seq(k, _ => DecrementChatProcessingCount);
      assert t[1..] == seq(k - 1, _ => DecrementChatProcessingCount);
      CountAllDecrements(k - 1);
    }
  }

  /** Exactly one save fires per write of a non-empty chat log, and no other write saves. */
  lemma {:induction false} SavesMatchNonEmptyLogWrites(s: HomeState, t: seq<Action>)
    ensures |Sent(s, t)| == NonEmptyLogWrites(t)
    decreases |t|
  {
    if t != [] {
      StepEffect(s, t[0]);
      SavesMatchNonEmptyLogWrites(Step(s, t[0]), t[1..]);
    }
  }

  /** No request ever carries an empty log. */
  lemma {:induction false} SavedLogsAreNonEmpty(s: HomeState, t: seq<Action>)
    ensures forall i :: 0 <= i < |Sent(s, t)| ==> Sent(s, t)[i].messages != []
    decreases |t|
  {
    if t != [] {
      StepEffect(s, t[0]);
      SavedLogsAreNonEmpty(Step(s, t[0]), t[1..]);
    }
  }

  /** Starting from an empty log, the first save of a trace creates a new file. */
  lemma {:induction false} FirstSaveIsNewFile(s: HomeState, t: seq<Action>)
    requires s.chatLog == []
    requires Sent(s, t) != []
    ensures Sent(s, t)[0].isNewFile
    decreases |t|
  {
    var s1 := Step(s, t[0]);
    StepEffect(s, t[0]);
    if Subscriber(s1, s) == [] {
      assert s1.chatLog == [];
      FirstSaveIsNewFile(s1, t[1..]);
    }
  }

  /** Writes other than chat-log writes neither replace the log nor issue a request. */
  lemma {:induction false} NoLogWriteNoSave(s: HomeState, t: seq<Action>)
    requires forall i :: 0 <= i < |t| ==> !t[i].SetChatLog?
    ensures Run(s, t).chatLog == s.chatLog && Run(s, t).logVersion == s.logVersion
    ensures Sent(s, t) == []
    decreases |t|
  {
    if t != [] {
      StepEffect(s, t[0]);
      NoLogWriteNoSave(Step(s, t[0]), t[1..]);
    }
  }

  /** Writes to transient fields only leave what `partialize` stores unchanged. */
  lemma {:induction false} TransientTraceKeepsPersisted(s: HomeState, t: seq<Action>,
                                                       cut: seq<Message> -> seq<Message>)
    requires forall i :: 0 <= i < |t| ==> !t[i].SetChatLog? && !t[i].SetShowIntroduction?
    ensures Partialize(Run(s, t), cut) == Partialize(s, cut)
    ensures Sent(s, t) == []
    decreases |t|
  {
    if t != [] {
      StepEffect(s, t[0]);
      TransientTraceKeepsPersisted(Step(s, t[0]), t[1..], cut);
    }
  }

  /**
   * Whenever the log has been replaced during a trace and is non-empty at its
   * end, the last request of the trace carries exactly that log.
   */
  lemma {:induction false} LastSaveCarriesCurrentLog(s: HomeState, t: seq<Action>)
    requires Run(s, t).logVersion != s.logVersion && Run(s, t).chatLog != []
    ensures Sent(s, t) != [] && Sent(s, t)[|Sent(s, t)| - 1].messages == Run(s, t).chatLog
    decreases |t|
  {
    var s1 := Step(s, t[0]);
    StepEffect(s, t[0]);
    if Run(s1, t[1..]).logVersion != s1.logVersion {
      LastSaveCarriesCurrentLog(s1, t[1..]);
    } else {
      UnchangedVersionMeansNoSave(s1, t[1..]);
    }
  }

  lemma {:induction false} VersionNeverDecreases(s: HomeState, t: seq<Action>)
    ensures Run(s, t).logVersion >= s.logVersion
    ensures Run(s, t).logVersion == s.logVersion ==> forall i :: 0 <= i < |t| ==> !t[i].SetChatLog?
    decreases |t|
  {
    if t != [] {
      StepEffect(s, t[0]);
      VersionNeverDecreases(Step(s, t[0]), t[1..]);
      if Run(s, t).logVersion == s.logVersion {
        forall i | 0 <= i < |t| ensures !t[i].SetChatLog? {
          if i > 0 { assert t[i] == t[1..][i - 1]; }
        }
      }
    }
  }

  /** A trace that leaves the log version alone keeps the log and sends nothing. */
  lemma UnchangedVersionMeansNoSave(s: HomeState, t: seq<Action>)
    requires Run(s, t).logVersion == s.logVersion
    ensures Run(s, t).chatLog == s.chatLog
    ensures Sent(s, t) == []
  {
    VersionNeverDecreases(s, t);
    NoLogWriteNoSave(s, t);
  }

  /** Two appends from an empty log: the first save creates the file, the second appends. */
  lemma TwoAppendsFromEmptyLog(s: HomeState, m1: Message, m2: Message)
    requires s.chatLog == []
    ensures Sent(s, [SetChatLog([m1]), SetChatLog([m1, m2])])
              == [SaveRequest([m1], true), SaveRequest([m1, m2], false)]
  {
    var t := [SetChatLog([m1]), SetChatLog([m1, m2])];
    var s1 := Step(s, t[0]);
    StepEffect(s, t[0]);
    StepEffect(s1, t[1]);
    assert t[1..] == [t[1]] && t[1..][1..] == [];
    assert Sent(s1, t[1..]) == [SaveRequest([m1, m2], false)];
  }
}
