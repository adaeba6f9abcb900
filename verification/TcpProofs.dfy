/** What every run of TcpClient keeps. */
module TcpProofs {
  import opened Wrappers
  import opened Notification
  import opened TcpModel

  // ----- Operation accounting and write order -----

  /** On a connection: at most one read (counting one still owed) and one write, which is the queue's front. */
  ghost predicate OnLine(t: Tcp, owed: bool) {
    && t.pending.resolves == 0 && t.pending.connects == 0
    && t.pending.readings + (if owed then 1 else 0) <= 1
    && (t.pending.writes == multiset{} || (t.queue != [] && t.pending.writes == multiset{t.queue[0]}))
  }

  /** Nothing is connected yet: one resolve or one connect is outstanding and nothing else, and nothing was sent. */
  ghost predicate OffLine(t: Tcp, resolving: bool, owed: bool) {
    && t.pending == Pending(if resolving then 1 else 0, if resolving then 0 else 1, 0, multiset{})
    && t.queue == [] && !owed && t.history.accepted == []
  }

  /** The accepted sends are the completed writes, then the queue. */
  ghost predicate InOrder(t: Tcp) {
    && (t.status != Disconnected ==> t.history.accepted == t.history.written + t.queue)
    && t.history.written <= t.history.accepted
  }

  /**
   The accounts of the client. `owed` is true only inside a callback after which the
   running handler will start a read.
   */
  ghost predicate Accounted(t: Tcp, owed: bool) {
    && t.ioCount == t.pending.Count()
    && (match t.status
        case Disconnected => t.pending == NOTHING && t.queue == [] && !owed
        case Resolve => OffLine(t, true, owed)
        case Connecting => OffLine(t, false, owed)
        case Connected => OnLine(t, owed)
        case Disconnecting => OffLine(t, true, owed) || OffLine(t, false, owed) || OnLine(t, owed))
    && InOrder(t)
  }

  lemma {:induction false} PerformKeepsAccounts(t: Tcp, c: Call, owed: bool)
    requires Accounted(t, owed)
    ensures Accounted(Perform(t, c), owed)
    ensures t.status != Disconnected ==> Perform(t, c).status != Disconnected
  {
    if c.SendCall? && t.status == Connected {
      assert t.history.written + (t.queue + [c.data]) == t.history.accepted + [c.data];
    }
  }

  lemma {:induction false} PerformAllKeepsAccounts(t: Tcp, calls: seq<Call>, owed: bool)
    requires Accounted(t, owed)
    ensures Accounted(PerformAll(t, calls), owed)
    ensures t.status != Disconnected ==> PerformAll(t, calls).status != Disconnected
  {
    if calls != [] {
      PerformAllKeepsAccounts(t, calls[..|calls| - 1], owed);
      PerformKeepsAccounts(PerformAll(t, calls[..|calls| - 1]), calls[|calls| - 1], owed);
    }
  }

  lemma {:induction false} PopFrontKeepsAccounts(t: Tcp)
    requires t.status == Connected && t.queue != [] && t.ioCount == t.pending.Count()
    requires OnLine(t, false) && t.pending.writes == multiset{} && InOrder(t)
    ensures Accounted(PopFront(t), false)
  {
    assert t.history.written + t.queue == t.history.written + [t.queue[0]] + t.queue[1..];
  }

  /** A completion takes one operation off; after the last one there is none. */
  lemma {:induction false} OneLess(t: Tcp, c: Completion)
    requires Accounted(t, false) && Outstanding(t.pending, c)
    ensures t.status != Disconnected
    ensures Remove(t.pending, c).Count() == t.ioCount - 1
    ensures t.ioCount == 1 ==> Remove(t.pending, c) == NOTHING
  {
    if c.WriteDone? {
      assert t.pending.writes == multiset{c.data};
      assert Remove(t.pending, c).writes == multiset{};
    }
  }

  /** pop_front never meets an empty queue. */
  lemma {:induction false} WriteHasFront(t: Tcp, data: Data)
    requires Accounted(t, false) && data in t.pending.writes
    ensures t.queue != [] && t.queue[0] == data
  {
  }

  /** While other operations are outstanding the accounts go on. */
  lemma {:induction false} OthersGoOn(t: Tcp, c: Completion, open: bool)
    requires Accounted(t, false) && Outstanding(t.pending, c) && t.ioCount > 1
    ensures Accounted(t.(pending := Remove(t.pending, c), ioCount := t.ioCount - 1, socketOpen := open), false)
  {
    OneLess(t, c);
    assert OnLine(t, false);
  }

  /** The handler does not go on: silence, or a terminal callback. */
  ghost predicate Abandons(t: Tcp, c: Completion) {
    t.status == Disconnecting || ErrorOf(c) != NoError
  }

  /** handleAnything, when it does not let the handler go on, ends the session with clean accounts or leaves it to the others. */
  lemma {:induction false} AbandonKeepsAccounts(t: Tcp, c: Completion)
    requires Accounted(t, false) && Outstanding(t.pending, c) && Abandons(t, c)
    ensures Accounted(Deliver(t, c).tcp, false) && !Deliver(t, c).resume
  {
    OneLess(t, c);
    if t.ioCount > 1 {
      OthersGoOn(t, c, false);
    }
  }

  lemma {:induction false} ProceedKeepsAccounts(t: Tcp, c: Completion)
    requires Accounted(t, false) && Outstanding(t.pending, c) && t.status != Disconnecting
    ensures var d := Proceed(t.(pending := Remove(t.pending, c), ioCount := t.ioCount - 1), c);
            Accounted(d.tcp, d.resume)
  {
    if c.WriteDone? {
      PopFrontKeepsAccounts(t.(pending := Remove(t.pending, c), ioCount := t.ioCount - 1));
    }
  }

  lemma {:induction false} DeliverKeepsAccounts(t: Tcp, c: Completion)
    requires Accounted(t, false) && Outstanding(t.pending, c)
    ensures t.status != Disconnected
    ensures Accounted(Deliver(t, c).tcp, Deliver(t, c).resume)
  {
    OneLess(t, c);
    if Abandons(t, c) {
      AbandonKeepsAccounts(t, c);
    } else {
      ProceedKeepsAccounts(t, c);
    }
  }

  lemma {:induction false} ResumeKeepsAccounts(d: Delivery, reaction: seq<Call>)
    requires Accounted(d.tcp, d.resume)
    ensures Accounted(Resume(d, reaction), false)
  {
    PerformAllKeepsAccounts(d.tcp, reaction, d.resume);
  }

  lemma {:induction false} StepKeepsAccounts(t: Tcp, e: Event)
    requires Accounted(t, false)
    ensures Accounted(Step(t, e), false)
  {
    if Enabled(t, e) {
      match e {
        case Outside(call) => PerformKeepsAccounts(t, call, false);
        case Done(c, reaction) =>
          DeliverKeepsAccounts(t, c);
          ResumeKeepsAccounts(Deliver(t, c), reaction);
      }
    }
  }

  /**
   In every run the counter is the number of outstanding operations, no kind is
   outstanding twice, a disconnected client has none, a pending write is the queue's
   front, and the accepted sends are the completed writes followed by the queue.
   */
  lemma {:induction false} EveryRunIsAccounted(es: seq<Event>)
    ensures Accounted(After(es), false)
  {
    if es != [] {
      EveryRunIsAccounted(es[..|es| - 1]);
      StepKeepsAccounts(After(es[..|es| - 1]), es[|es| - 1]);
    }
  }

  /** A completion that is still to come belongs to the running session: a disconnected client has none. */
  lemma {:induction false} NoStaleCompletion(es: seq<Event>, c: Completion)
    requires Outstanding(After(es).pending, c)
    ensures After(es).status != Disconnected && After(es).ioCount > 0
  {
    EveryRunIsAccounted(es);
  }

  /** The sends accepted on a connection are those in the history of the session. */
  ghost predicate Recorded(t: Tcp) {
    t.history.accepted == SentNow(t.history.acts)
  }

  lemma {:induction false} PerformRecords(t: Tcp, calls: seq<Call>)
    requires Recorded(t)
    ensures Recorded(PerformAll(t, calls))
  {
    if calls != [] {
      var before := PerformAll(t, calls[..|calls| - 1]);
      PerformRecords(t, calls[..|calls| - 1]);
      SentNowAppend(before.history.acts, Accepted);
      SentNowAppend(before.history.acts, DisconnectCall);
      var last := calls[|calls| - 1];
      if last.SendCall? {
        SentNowAppend(before.history.acts, Sent(last.data));
      }
    }
  }

  lemma {:induction false} DeliverRecords(t: Tcp, c: Completion)
    requires Recorded(t) && Outstanding(t.pending, c)
    ensures Recorded(Deliver(t, c).tcp)
  {
    var h, d := t.history, Deliver(t, c);
    assert d.tcp.history.accepted == h.accepted;
    if d.note.Some? {
      assert d.tcp.history.acts == h.acts + [Notify(d.note.value)];
      SentNowAppend(h.acts, Notify(d.note.value));
    } else {
      assert d.tcp.history.acts == h.acts;
    }
  }

  lemma {:induction false} StepRecords(t: Tcp, e: Event)
    requires Recorded(t)
    ensures Recorded(Step(t, e))
  {
    if Enabled(t, e) {
      match e {
        case Outside(call) =>
          assert [call][..0] == [];
          PerformRecords(t, [call]);
        case Done(c, reaction) =>
          DeliverRecords(t, c);
          PerformRecords(Deliver(t, c).tcp, reaction);
      }
    }
  }

  lemma {:induction false} EveryRunRecords(es: seq<Event>)
    ensures Recorded(After(es))
  {
    if es != [] {
      EveryRunRecords(es[..|es| - 1]);
      StepRecords(After(es[..|es| - 1]), es[|es| - 1]);
    }
  }

  // ----- The callback protocol -----

  /** The phase of the callback protocol a state stands for. */
  function Abs(t: Tcp): Phase {
    match t.status
    case Disconnected => Idle
    case Resolve => Live(false, Normal)
    case Connecting => Live(false, Normal)
    case Connected => Live(true, Normal)
    case Disconnecting => Live(t.pending.resolves + t.pending.connects == 0, UserClosing)
  }

  ghost predicate Follows(honest: bool, t: Tcp) {
    Replay(honest, Idle, t.history.acts) == Some(Abs(t))
  }

  /** The resolver and the connect operation report operation_aborted only when disconnect() has cancelled them. */
  predicate Honest(t: Tcp, c: Completion) {
    t.status != Disconnecting && !OnConnection(c) ==> c.error != Aborted
  }

  predicate HonestEvent(t: Tcp, e: Event) {
    e.Done? && Enabled(t, e) ==> Honest(t, e.completion)
  }

  ghost predicate HonestRun(es: seq<Event>) {
    forall i :: 0 <= i < |es| ==> HonestEvent(After(es[..i]), es[i])
  }

  /** The visible action of a call; an ignored connect() or send() has none. */
  function CallAct(t: Tcp, c: Call): Option<Act> {
    match c
    case ConnectCall => if t.status == Disconnected then Some(Accepted) else None
    case CloseCall => Some(DisconnectCall)
    case SendCall(data) => if t.status == Connected then Some(Sent(data)) else None
  }

  lemma {:induction false} PerformLogs(honest: bool, t: Tcp, c: Call, owed: bool)
    requires Accounted(t, owed)
    ensures var a := CallAct(t, c);
            && Perform(t, c).history.acts == t.history.acts + (if a.Some? then [a.value] else [])
            && (if a.Some? then Next(honest, Abs(t), a.value) == Some(Abs(Perform(t, c))) else Abs(t) == Abs(Perform(t, c)))
  {
  }

  lemma {:induction false} PerformFollows(honest: bool, t: Tcp, c: Call, owed: bool)
    requires Accounted(t, owed) && Follows(honest, t)
    ensures Follows(honest, Perform(t, c))
  {
    PerformLogs(honest, t, c, owed);
    if CallAct(t, c).Some? {
      ReplayAppend(honest, Idle, t.history.acts, CallAct(t, c).value);
    }
  }

  lemma {:induction false} PerformAllFollows(honest: bool, t: Tcp, calls: seq<Call>, owed: bool)
    requires Accounted(t, owed) && Follows(honest, t)
    ensures Follows(honest, PerformAll(t, calls))
  {
    if calls != [] {
      var before := calls[..|calls| - 1];
      PerformAllFollows(honest, t, before, owed);
      PerformAllKeepsAccounts(t, before, owed);
      PerformFollows(honest, PerformAll(t, before), calls[|calls| - 1], owed);
    }
  }

  /** What completes tells how far the session has come. */
  lemma {:induction false} StageOf(t: Tcp, c: Completion)
    requires Accounted(t, false) && Outstanding(t.pending, c)
    ensures Abs(t).Live? && (Abs(t).up <==> OnConnection(c))
    ensures Abs(t).mode.UserClosing? <==> t.status == Disconnecting
    ensures t.ioCount > 1 ==> OnConnection(c)
  {
  }

  lemma {:induction false} LastPhases(t: Tcp, c: Completion)
    requires Accounted(t, false) && Outstanding(t.pending, c) && Abandons(t, c) && t.ioCount == 1
    ensures var d := Deliver(t, c); var byUser := Abs(t).mode.UserClosing?;
            && !d.resume && Abs(d.tcp) == Idle && Abs(t).Live?
            && d.note == Some(if Abs(t).up then Closed(byUser) else Failed(if byUser then Aborted else c.error))
            && (!Abs(t).up && !byUser ==> c.error != NoError)
  {
    StageOf(t, c);
  }

  lemma {:induction false} SilentPhases(t: Tcp, c: Completion)
    requires Accounted(t, false) && Outstanding(t.pending, c) && Abandons(t, c) && t.ioCount > 1
    ensures var d := Deliver(t, c); !d.resume && d.note.None? && Abs(d.tcp) == Abs(t) && Abs(t).Live?
  {
    StageOf(t, c);
  }

  /** What a handler that goes on calls back, and the phase it is then in. */
  ghost predicate GoesOn(t: Tcp, d: Delivery) {
    && Abs(t).Live?
    && (d.resume <==> d.note.Some?)
    && (d.note.None? ==> Abs(d.tcp) == Abs(t))
    && (d.note.Some? ==> d.note.value.Opened? || d.note.value.Received?)
    && (d.note == Some(Opened) ==> Abs(t) == Live(false, Normal) && Abs(d.tcp) == Live(true, Normal))
    && (d.note.Some? && d.note.value.Received? ==> Abs(t) == Live(true, Normal) == Abs(d.tcp))
  }

  lemma {:induction false} ConnectingPhases(t: Tcp, c: Completion)
    requires Accounted(t, false) && Outstanding(t.pending, c) && !Abandons(t, c) && !OnConnection(c)
    ensures GoesOn(t, Deliver(t, c))
  {
    StageOf(t, c);
  }

  lemma {:induction false} ConnectedPhases(t: Tcp, c: Completion)
    requires Accounted(t, false) && Outstanding(t.pending, c) && !Abandons(t, c) && OnConnection(c)
    ensures GoesOn(t, Deliver(t, c))
  {
    StageOf(t, c);
  }

  lemma {:induction false} ProceedPhases(t: Tcp, c: Completion)
    requires Accounted(t, false) && Outstanding(t.pending, c) && !Abandons(t, c)
    ensures GoesOn(t, Deliver(t, c))
  {
    if OnConnection(c) {
      ConnectedPhases(t, c);
    } else {
      ConnectingPhases(t, c);
    }
  }

  /** What a completion does to the phase; only the reason of a refused connect depends on the environment. */
  lemma {:induction false} DeliverPhases(t: Tcp, c: Completion)
    requires Accounted(t, false) && Outstanding(t.pending, c)
    ensures var d := Deliver(t, c);
            && Abs(t).Live?
            && (d.resume <==> d.note.Some? && (d.note.value.Opened? || d.note.value.Received?))
            && (if d.note.None? then Abs(d.tcp) == Abs(t)
                else match d.note.value
                     case Opened => Abs(t) == Live(false, Normal) && Abs(d.tcp) == Live(true, Normal)
                     case Received(_) => Abs(t) == Live(true, Normal) == Abs(d.tcp)
                     case Closed(byUser) => Abs(t).up && byUser == Abs(t).mode.UserClosing? && Abs(d.tcp) == Idle
                     case Failed(error) =>
                       && !Abs(t).up && Abs(d.tcp) == Idle
                       && error == (if Abs(t).mode.UserClosing? then Aborted else c.error) && error != NoError)
  {
    OneLess(t, c);
    if Abandons(t, c) && t.ioCount == 1 {
      LastPhases(t, c);
    } else if Abandons(t, c) {
      SilentPhases(t, c);
    } else {
      ProceedPhases(t, c);
    }
  }

  lemma {:induction false} DeliverLogs(honest: bool, t: Tcp, c: Completion)
    requires Accounted(t, false) && Outstanding(t.pending, c) && (honest ==> Honest(t, c))
    ensures var d := Deliver(t, c);
            && d.tcp.history.acts == t.history.acts + (if d.note.Some? then [Notify(d.note.value)] else [])
            && (d.note.Some? ==> Next(honest, Abs(t), Notify(d.note.value)) == Some(Abs(d.tcp)))
            && (d.note.None? ==> Abs(t) == Abs(d.tcp))
  {
    DeliverPhases(t, c);
  }

  lemma {:induction false} DeliverFollows(honest: bool, t: Tcp, c: Completion)
    requires Accounted(t, false) && Follows(honest, t) && Outstanding(t.pending, c) && (honest ==> Honest(t, c))
    ensures Follows(honest, Deliver(t, c).tcp)
  {
    DeliverLogs(honest, t, c);
    var d := Deliver(t, c);
    if d.note.Some? {
      ReplayAppend(honest, Idle, t.history.acts, Notify(d.note.value));
    }
  }

  lemma {:induction false} ResumeFollows(honest: bool, d: Delivery, reaction: seq<Call>)
    requires Accounted(d.tcp, d.resume) && Follows(honest, d.tcp)
    ensures Follows(honest, Resume(d, reaction))
  {
    PerformAllKeepsAccounts(d.tcp, reaction, d.resume);
    PerformAllFollows(honest, d.tcp, reaction, d.resume);
  }

  lemma {:induction false} StepFollows(honest: bool, t: Tcp, e: Event)
    requires Accounted(t, false) && Follows(honest, t) && (honest ==> HonestEvent(t, e))
    ensures Follows(honest, Step(t, e))
  {
    if Enabled(t, e) {
      match e {
        case Outside(call) => PerformFollows(honest, t, call, false);
        case Done(c, reaction) =>
          DeliverKeepsAccounts(t, c);
          DeliverFollows(honest, t, c);
          ResumeFollows(honest, Deliver(t, c), reaction);
      }
    }
  }

  lemma {:induction false} HonestBefore(es: seq<Event>)
    requires HonestRun(es) && es != []
    ensures HonestRun(es[..|es| - 1]) && HonestEvent(After(es[..|es| - 1]), es[|es| - 1])
  {
    var before := es[..|es| - 1];
    assert forall i :: 0 <= i < |before| ==> before[..i] == es[..i];
  }

  lemma {:induction false} EveryRunFollows(honest: bool, es: seq<Event>)
    requires honest ==> HonestRun(es)
    ensures Follows(honest, After(es))
  {
    if es != [] {
      var before, last := es[..|es| - 1], es[|es| - 1];
      if honest {
        HonestBefore(es);
      }
      EveryRunFollows(honest, before);
      EveryRunIsAccounted(before);
      StepFollows(honest, After(before), last);
    }
  }

  /**
   Every run, whatever its environment reports, emits a prefix of
   (Error | Connect Data* Disconnect)*; terminal callbacks, plus one unless disconnected,
   are the accepted connects; and the session is being closed on the user's behalf exactly
   when disconnect() was called in it. Every terminal callback tells its reason; only that
   an operation_aborted was asked for needs an honest environment.
   */
  lemma {:induction false} RunLanguage(es: seq<Event>)
    ensures var t := After(es);
            && InLanguage(Notes(t.history.acts), Accepts(t.history.acts), Abs(t), Sessions(t.history.acts))
            && (t.status == Disconnecting <==>
                t.status != Disconnected && AskedToClose(ThisSession(t.history.acts)))
    ensures ReasonsTold(HonestRun(es), After(es).history.acts)
  {
    var acts := After(es).history.acts;
    EveryRunFollows(false, es);
    LanguageOfCallbacks(false, acts);
    if After(es).status != Disconnected {
      ReasonIsTheCaller(false, acts);
    }
    EveryRunFollows(HonestRun(es), es);
    ReasonsAreTold(HonestRun(es), acts);
  }

  // ----- Shutdown -----

  /** After disconnect() every completion uses up one operation; the last one, and only it, calls back. */
  lemma {:induction false} ShutdownStep(t: Tcp, c: Completion)
    requires Accounted(t, false) && t.status == Disconnecting && Outstanding(t.pending, c)
    ensures var d := Deliver(t, c);
            && !d.resume
            && d.tcp.pending.Count() == t.pending.Count() - 1
            && (t.pending.Count() > 1 ==> d.note.None? && d.tcp.status == Disconnecting
                                          && d.tcp.history.acts == t.history.acts)
            && (t.pending.Count() == 1 ==> d.note.Some? && !d.note.value.Opened? && !d.note.value.Received?
                                           && d.tcp.status == Disconnected
                                           && d.tcp.history.acts == t.history.acts + [Notify(d.note.value)])
  {
    OneLess(t, c);
  }

  /** The completions of a run that the io_service could deliver. */
  function Completions(t: Tcp, es: seq<Event>): nat {
    if es == [] then 0
    else
      var before := es[..|es| - 1];
      Completions(t, before) + (if es[|es| - 1].Done? && Enabled(Run(t, before), es[|es| - 1]) then 1 else 0)
  }

  lemma {:induction false} NotesAppend(acts: seq<Act>, a: Act)
    ensures Notes(acts + [a]) == Notes(acts) + (if a.Notify? then [a.note] else [])
  {
    assert (acts + [a])[..|acts|] == acts;
  }

  /** A step of a client that is shutting down. */
  lemma {:induction false} ClosingStep(t: Tcp, e: Event)
    requires Accounted(t, false) && t.status == Disconnecting
    requires e.Done? && Enabled(t, e) ==> t.pending.Count() > 1
    ensures Step(t, e).status == Disconnecting
    ensures Step(t, e).pending.Count() == t.pending.Count() - (if e.Done? && Enabled(t, e) then 1 else 0)
    ensures Notes(Step(t, e).history.acts) == Notes(t.history.acts)
  {
    NotesAppend(t.history.acts, DisconnectCall);
    if e.Done? && Enabled(t, e) {
      ShutdownStep(t, e.completion);
    }
  }

  /**
   From a client that is shutting down, whatever else happens, it stays silent and
   closing until as many completions as operations were outstanding, and the last of
   them brings exactly one terminal callback.
   */
  lemma {:induction false} ShutdownTerminates(t: Tcp, es: seq<Event>)
    requires Accounted(t, false) && t.status == Disconnecting && Completions(t, es) < t.pending.Count()
    ensures Accounted(Run(t, es), false)
    ensures Run(t, es).status == Disconnecting
    ensures Run(t, es).pending.Count() == t.pending.Count() - Completions(t, es)
    ensures Notes(Run(t, es).history.acts) == Notes(t.history.acts)
    ensures forall c :: Completions(t, es) + 1 == t.pending.Count() && Outstanding(Run(t, es).pending, c) ==>
              Deliver(Run(t, es), c).note.Some? && Deliver(Run(t, es), c).tcp.status == Disconnected
  {
    if es != [] {
      var before := es[..|es| - 1];
      ShutdownTerminates(t, before);
      StepKeepsAccounts(Run(t, before), es[|es| - 1]);
      ClosingStep(Run(t, before), es[|es| - 1]);
    }
    forall c | Completions(t, es) + 1 == t.pending.Count() && Outstanding(Run(t, es).pending, c)
      ensures Deliver(Run(t, es), c).note.Some? && Deliver(Run(t, es), c).tcp.status == Disconnected
    {
      ShutdownStep(Run(t, es), c);
    }
  }

  /** Something is outstanding, so the client will be heard of again. */
  ghost predicate Progressing(t: Tcp) {
    t.status != Disconnected ==> t.pending.Count() > 0
  }

  /**
   A step leaves the client waiting for nothing exactly when it is a write that still
   succeeds after the read side has failed and that empties the queue.
   */
  lemma {:induction false} StrandsExactlyWhen(t: Tcp, e: Event)
    requires Accounted(t, false) && Progressing(t)
    ensures !Progressing(Step(t, e)) <==>
              && e.Done? && e.completion.WriteDone? && e.completion.error == NoError && e.completion.data != []
              && t.status == Connected && |t.queue| == 1
              && t.pending == Pending(0, 0, 0, multiset{e.completion.data})
  {
    StepKeepsAccounts(t, e);
    if Enabled(t, e) && e.Done? {
      DeliverKeepsAccounts(t, e.completion);
      StrandsInDeliver(t, e.completion);
      ResumeProgresses(Deliver(t, e.completion), e.reaction);
    }
  }

  lemma {:induction false} StrandsInDeliver(t: Tcp, c: Completion)
    requires Accounted(t, false) && Progressing(t) && Outstanding(t.pending, c)
    ensures var d := Deliver(t, c);
            !d.resume && !Progressing(d.tcp) <==>
              && c.WriteDone? && c.error == NoError && c.data != []
              && t.status == Connected && |t.queue| == 1
              && t.pending == Pending(0, 0, 0, multiset{c.data})
    ensures Deliver(t, c).note.Some? ==> Deliver(t, c).resume || Deliver(t, c).tcp.status == Disconnected
  {
    if c.WriteDone? {
      WriteStrands(t, c);
    } else {
      OthersDoNotStrand(t, c);
    }
  }

  lemma {:induction false} OthersDoNotStrand(t: Tcp, c: Completion)
    requires Accounted(t, false) && Outstanding(t.pending, c) && !c.WriteDone?
    ensures Deliver(t, c).resume || Progressing(Deliver(t, c).tcp)
    ensures Deliver(t, c).note.Some? ==> Deliver(t, c).resume || Deliver(t, c).tcp.status == Disconnected
  {
    OneLess(t, c);
    if Abandons(t, c) && t.ioCount == 1 {
      LastPhases(t, c);
    } else if Abandons(t, c) {
      SilentPhases(t, c);
    } else {
      ProceedPhases(t, c);
    }
  }

  lemma {:induction false} WriteStrands(t: Tcp, c: Completion)
    requires Accounted(t, false) && Outstanding(t.pending, c) && c.WriteDone?
    ensures var d := Deliver(t, c);
            && !d.resume && (d.note.Some? ==> d.tcp.status == Disconnected)
            && (!Progressing(d.tcp) <==>
                  && c.error == NoError && c.data != [] && t.status == Connected
                  && |t.queue| == 1 && t.pending == Pending(0, 0, 0, multiset{c.data}))
  {
    assert t.pending.writes == multiset{c.data};
    assert Remove(t.pending, c).writes == multiset{};
  }

  lemma {:induction false} ResumeProgresses(d: Delivery, reaction: seq<Call>)
    requires Accounted(d.tcp, d.resume)
    requires d.note.Some? ==> d.resume || d.tcp.status == Disconnected
    ensures Progressing(Resume(d, reaction)) <==> d.resume || Progressing(d.tcp)
  {
    PerformAllKeepsAccounts(d.tcp, reaction, d.resume);
    if d.note.Some? && !d.resume {
      ReactionProgresses(d.tcp, reaction);
    }
  }

  lemma {:induction false} ReactionProgresses(t: Tcp, calls: seq<Call>)
    requires Accounted(t, false) && Progressing(t)
    ensures Progressing(PerformAll(t, calls))
  {
    if calls != [] {
      ReactionProgresses(t, calls[..|calls| - 1]);
    }
  }

  /** No read or write succeeds once the socket is closed. */
  predicate NoLateSuccess(t: Tcp, e: Event) {
    e.Done? && OnConnection(e.completion) && !t.socketOpen ==> e.completion.error != NoError
  }

  ghost predicate NoLateSuccesses(es: seq<Event>) {
    forall i :: 0 <= i < |es| ==> NoLateSuccess(After(es[..i]), es[i])
  }

  /** While the socket is open the read is outstanding. */
  ghost predicate Listening(t: Tcp, owed: bool) {
    && (t.status == Connecting ==> t.socketOpen)
    && (t.status == Connected && t.socketOpen ==> t.pending.readings + (if owed then 1 else 0) == 1)
  }

  lemma {:induction false} PerformListens(t: Tcp, c: Call, owed: bool)
    requires Accounted(t, owed) && Listening(t, owed)
    ensures Listening(Perform(t, c), owed)
  {
  }

  lemma {:induction false} ReactionListens(t: Tcp, calls: seq<Call>, owed: bool)
    requires Accounted(t, owed) && Listening(t, owed)
    ensures Listening(PerformAll(t, calls), owed)
  {
    if calls != [] {
      var before := calls[..|calls| - 1];
      ReactionListens(t, before, owed);
      PerformAllKeepsAccounts(t, before, owed);
      PerformListens(PerformAll(t, before), calls[|calls| - 1], owed);
    }
  }

  lemma {:induction false} ResumeListens(d: Delivery, reaction: seq<Call>)
    requires Accounted(d.tcp, d.resume) && Listening(d.tcp, d.resume)
    ensures Listening(Resume(d, reaction), false)
  {
    PerformAllKeepsAccounts(d.tcp, reaction, d.resume);
    ReactionListens(d.tcp, reaction, d.resume);
  }

  lemma {:induction false} ProceedListens(t: Tcp, c: Completion)
    requires Accounted(t, false) && Listening(t, false) && Outstanding(t.pending, c) && !Abandons(t, c)
    requires OnConnection(c) ==> t.socketOpen
    ensures Listening(Deliver(t, c).tcp, Deliver(t, c).resume)
  {
    StageOf(t, c);
  }

  lemma {:induction false} DeliverListens(t: Tcp, c: Completion)
    requires Accounted(t, false) && Listening(t, false) && Outstanding(t.pending, c)
    requires OnConnection(c) && !t.socketOpen ==> c.error != NoError
    ensures Listening(Deliver(t, c).tcp, Deliver(t, c).resume)
  {
    if Abandons(t, c) {
      StageOf(t, c);
    } else {
      ProceedListens(t, c);
    }
  }

  lemma {:induction false} StepListens(t: Tcp, e: Event)
    requires Accounted(t, false) && Listening(t, false) && NoLateSuccess(t, e)
    ensures Listening(Step(t, e), false)
  {
    if Enabled(t, e) {
      match e {
        case Outside(call) => PerformListens(t, call, false);
        case Done(c, reaction) =>
          DeliverKeepsAccounts(t, c);
          DeliverListens(t, c);
          ResumeListens(Deliver(t, c), reaction);
      }
    }
  }

  /** If no operation succeeds after its socket is closed, a session always has an operation outstanding. */
  lemma {:induction false} EveryRunProgresses(es: seq<Event>)
    requires NoLateSuccesses(es)
    ensures Progressing(After(es)) && Listening(After(es), false)
  {
    if es != [] {
      var before, last := es[..|es| - 1], es[|es| - 1];
      assert forall i :: 0 <= i < |before| ==> before[..i] == es[..i];
      EveryRunProgresses(before);
      EveryRunIsAccounted(before);
      assert NoLateSuccess(After(es[..|before|]), es[|before|]);
      StepListens(After(before), last);
      StrandsExactlyWhen(After(before), last);
    }
  }

  /** Only a client that is connecting or connected holds a socket open, and a connecting one does. */
  ghost predicate HoldsSocket(t: Tcp) {
    && (t.socketOpen ==> t.status == Connecting || t.status == Connected)
    && (t.status == Connecting ==> t.socketOpen)
  }

  lemma {:induction false} CallHoldsSocket(t: Tcp, c: Call)
    requires HoldsSocket(t)
    ensures HoldsSocket(Perform(t, c))
  {
  }

  lemma {:induction false} ReactionHoldsSocket(t: Tcp, calls: seq<Call>)
    requires HoldsSocket(t)
    ensures HoldsSocket(PerformAll(t, calls))
  {
    if calls != [] {
      ReactionHoldsSocket(t, calls[..|calls| - 1]);
      CallHoldsSocket(PerformAll(t, calls[..|calls| - 1]), calls[|calls| - 1]);
    }
  }

  lemma {:induction false} DeliverHoldsSocket(t: Tcp, c: Completion)
    requires Accounted(t, false) && HoldsSocket(t) && Outstanding(t.pending, c)
    ensures HoldsSocket(Deliver(t, c).tcp)
  {
    OneLess(t, c);
    if !Abandons(t, c) {
      StageOf(t, c);
    }
  }

  lemma {:induction false} StepHoldsSocket(t: Tcp, e: Event)
    requires Accounted(t, false) && HoldsSocket(t)
    ensures HoldsSocket(Step(t, e))
  {
    if Enabled(t, e) {
      match e {
        case Outside(call) => CallHoldsSocket(t, call);
        case Done(c, reaction) =>
          DeliverHoldsSocket(t, c);
          ReactionHoldsSocket(Deliver(t, c).tcp, reaction);
      }
    }
  }

  /**
   In every run the socket is open only while the client is connecting or connected: both
   disconnect() and the end of a session, whichever way it ends, close it.
   */
  lemma {:induction false} EveryRunClosesItsSocket(es: seq<Event>)
    ensures HoldsSocket(After(es))
  {
    if es != [] {
      EveryRunClosesItsSocket(es[..|es| - 1]);
      EveryRunIsAccounted(es[..|es| - 1]);
      StepHoldsSocket(After(es[..|es| - 1]), es[|es| - 1]);
    }
  }

  lemma {:induction false} RunAppend(t: Tcp, es: seq<Event>, e: Event)
    ensures Run(t, es + [e]) == Step(Run(t, es), e)
  {
    assert (es + [e])[..|es|] == es;
  }

  ghost predicate At(t: Tcp, status: Status, queue: seq<Data>, pending: Pending) {
    t.status == status && t.queue == queue && t.pending == pending && t.ioCount == pending.Count()
  }

  lemma {:induction false} GoesUp(t: Tcp)
    requires At(t, Resolve, [], Pending(1, 0, 0, multiset{}))
    ensures At(Step(t, Done(ResolveDone(NoError), [])), Connecting, [], Pending(0, 1, 0, multiset{}))
  {
  }

  lemma {:induction false} IsUp(t: Tcp)
    requires At(t, Connecting, [], Pending(0, 1, 0, multiset{}))
    ensures At(Step(t, Done(ConnectDone(NoError), [])), Connected, [], Pending(0, 0, 1, multiset{}))
  {
  }

  lemma {:induction false} Writes(t: Tcp)
    requires At(t, Connected, [], Pending(0, 0, 1, multiset{}))
    ensures At(Step(t, Outside(SendCall("x"))), Connected, ["x"], Pending(0, 0, 1, multiset{"x"}))
  {
  }

  lemma {:induction false} PeerCloses(t: Tcp)
    requires At(t, Connected, ["x"], Pending(0, 0, 1, multiset{"x"}))
    ensures At(Step(t, Done(ReadDone(Eof, ""), [])), Connected, ["x"], Pending(0, 0, 0, multiset{"x"}))
  {
  }

  lemma {:induction false} WriteEnds(t: Tcp)
    requires At(t, Connected, ["x"], Pending(0, 0, 0, multiset{"x"}))
    ensures At(Step(t, Done(WriteDone(NoError, "x"), [])), Connected, [], NOTHING)
  {
  }

  /** A run with one more event. */
  lemma {:induction false} Extended(es: seq<Event>, e: Event) returns (es': seq<Event>)
    ensures After(es') == Step(After(es), e)
  {
    es' := es + [e];
    RunAppend(INITIAL, es, e);
  }

  /** Up to the moment the peer has closed while "x" is still being written. */
  lemma {:induction false} WritingAlone() returns (es: seq<Event>)
    ensures At(After(es), Connected, ["x"], Pending(0, 0, 0, multiset{"x"}))
  {
    es := Reading();
    Writes(After(es));
    es := Extended(es, Outside(SendCall("x")));
    PeerCloses(After(es));
    es := Extended(es, Done(ReadDone(Eof, ""), []));
  }

  lemma {:induction false} Reading() returns (es: seq<Event>)
    ensures At(After(es), Connected, [], Pending(0, 0, 1, multiset{}))
  {
    es := Extended([], Outside(ConnectCall));
    GoesUp(After(es));
    es := Extended(es, Done(ResolveDone(NoError), []));
    IsUp(After(es));
    es := Extended(es, Done(ConnectDone(NoError), []));
  }

  /** Without that assumption a session can be left with nothing outstanding, and disconnect() unanswered. */
  lemma {:induction false} LateWriteStrandsTheClient()
    ensures exists es :: After(es).status == Disconnecting && After(es).pending == NOTHING
  {
    var es := WritingAlone();
    WriteEnds(After(es));
    es := Extended(es, Done(WriteDone(NoError, "x"), []));
    es := Extended(es, Outside(CloseCall));
  }

  lemma {:induction false} StrandedForever(t: Tcp, es: seq<Event>)
    requires t.status == Disconnecting && t.pending == NOTHING
    ensures Run(t, es).status == Disconnecting && Run(t, es).pending == NOTHING
    ensures Notes(Run(t, es).history.acts) == Notes(t.history.acts)
  {
    if es != [] {
      StrandedForever(t, es[..|es| - 1]);
      NotesAppend(Run(t, es[..|es| - 1]).history.acts, DisconnectCall);
    }
  }
}
