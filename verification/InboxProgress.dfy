/** No stored message is forgotten: whenever the process has nothing in hand, a conversation with pending
    messages has a recorded active turn whose end launches the next one. */
module InboxProgress {
  import opened TurnKeys
  import opened InboxModel
  import opened InboxLaws
  import opened InboxSteps

  /** The process is still going to look at this Session. */
  predicate Due(process: Process, session: Session) {
    match process
    case Down => true
    case Ready(todo) => session in todo.sessions
    case Mapping(_, _) => false
    case Enqueuing(_, _) => false
    case Acknowledging(_, s) => s == session
    case Launching(s, todo) => s == session || session in todo.sessions
    case Answered(_, s, _, todo) => s == session || session in todo.sessions
  }

  predicate Attended(s: Store, process: Process, c: Text)
    requires c in s.mappings
  {
    Lane(s.pending, c) == [] || s.mappings[c] in s.active || Due(process, s.mappings[c])
  }

  predicate AllAttended(s: Store, process: Process) {
    forall c :: c in s.mappings ==> Attended(s, process, c)
  }

  function TodoOf(process: Process): Todo {
    match process
    case Ready(todo) => todo
    case Launching(_, todo) => todo
    case Answered(_, _, _, todo) => todo
    case _ => NOTHING
  }

  /** The turn belongs to the Session. */
  ghost predicate Owns(h: Hub, session: Session, turn: TurnId) {
    exists k :: k in h.turns && k.0 == session && h.turns[k].id == turn
  }

  ghost predicate AllOwned(h: Hub, todo: Todo) {
    forall i :: 0 <= i < |todo.actives| ==> Owns(h, todo.actives[i].0, todo.actives[i].1)
  }

  ghost predicate Watching(w: World) {
    AllAttended(w.store, w.process) && AllOwned(w.hub, TodoOf(w.process))
  }

  // ---------------------------------------------------------------- the steps

  lemma OwnsGrows(config: Config, w: World, step: Step)
    requires Inv(config, w) && Enabled(w, step)
    ensures forall session, turn :: Owns(w.hub, session, turn) ==> Owns(Do(config, w, step).hub, session, turn)
  {
    hide KeyBytes, Inv, Lane, Terminal;
    var h := Do(config, w, step).hub;
    assert forall k :: k in w.hub.turns ==> k in h.turns && h.turns[k].id == w.hub.turns[k].id;
  }

  /** Only the Session that owns a turn can have it recorded. */
  lemma OnlyOwner(config: Config, w: World, session: Session, turn: TurnId)
    requires Inv(config, w) && Owns(w.hub, session, turn)
    ensures forall s :: IsActive(w.store, s, turn) ==> s == session
  {
    hide KeyBytes, Ordered, Rows, Holds, Sessions, Watched;
    var k :| k in w.hub.turns && k.0 == session && w.hub.turns[k].id == turn;
    forall s | IsActive(w.store, s, turn) ensures s == session {
      var l :| l in w.hub.turns && l.0 == s && w.hub.turns[l].id == w.store.active[s];
      assert k == l;
    }
  }

  lemma ActiveOwned(config: Config, w: World, session: Session, turn: TurnId)
    requires Inv(config, w) && IsActive(w.store, session, turn)
    ensures Owns(w.hub, session, turn)
  {
    hide KeyBytes, Ordered, Rows, Holds, Sessions, Watched, Turns;
  }

  /** A turn that is over frees one Session at most, and that one is launched next. */
  lemma FreedIsDue(s: Store, before: Process, session: Session, turn: TurnId, todo: Todo)
    requires AllAttended(s, before) && forall other :: IsActive(s, other, turn) ==> other == session
    requires forall other :: Due(before, other) ==> other in todo.sessions
    ensures AllAttended(Finished(s, turn), Launching(session, todo))
  {
    hide Lane;
    forall c | c in s.mappings ensures Attended(Finished(s, turn), Launching(session, todo), c) {
      assert Attended(s, before, c);
      assert IsActive(s, s.mappings[c], turn) ==> s.mappings[c] == session;
    }
  }

  lemma OpenWatches(config: Config, w: World, todo: Todo)
    requires Inv(config, w) && w.process.Down? && Lists(todo, w.store)
    ensures Watching(Do(config, w, Open(todo)))
  {
    hide KeyBytes, Inv, Lane, Owns;
    forall i | 0 <= i < |todo.actives| ensures Owns(w.hub, todo.actives[i].0, todo.actives[i].1) {
      assert IsActive(w.store, todo.actives[i].0, todo.actives[i].1);
      ActiveOwned(config, w, todo.actives[i].0, todo.actives[i].1);
    }
  }

  lemma RecoverWatches(config: Config, w: World)
    requires Inv(config, w) && Watching(w) && Enabled(w, Recover)
    ensures Watching(Do(config, w, Recover))
  {
    hide KeyBytes, Inv, Lane, Owns, Terminal;
    var todo := w.process.todo;
    if todo.actives != [] {
      var (session, turn) := todo.actives[0];
      assert Owns(w.hub, todo.actives[0].0, todo.actives[0].1);
      OnlyOwner(config, w, session, turn);
      FreedIsDue(w.store, w.process, session, turn, todo.(actives := todo.actives[1..]));
    } else {
      forall c | c in w.store.mappings ensures Attended(w.store, Do(config, w, Recover).process, c) {
        assert Attended(w.store, w.process, c);
        assert todo.sessions == [todo.sessions[0]] + todo.sessions[1..];
      }
    }
  }

  lemma {:induction false} NoLane(pending: seq<Row>, c: Text)
    requires forall i :: 0 <= i < |pending| ==> pending[i].message.conversation != c
    ensures Lane(pending, c) == []
  {
    if pending != [] { NoLane(pending[1..], c); }
  }

  lemma MapWatches(config: Config, w: World)
    requires Inv(config, w) && Watching(w) && w.process.Mapping?
    ensures Watching(Mapped(w))
  {
    hide KeyBytes, Lane, Owns, Turns, Ordered, Running;
    var m := w.process.message;
    NoLane(w.store.pending, m.conversation);
    forall c | c in w.store.mappings ensures Attended(Mapped(w).store, Mapped(w).process, c) {
      assert Attended(w.store, w.process, c);
    }
  }

  lemma AttachWatches(config: Config, w: World, conversation: Text, session: Session)
    requires Inv(config, w) && Watching(w) && w.process == Ready(NOTHING)
    ensures Watching(Attaching(w, conversation, session))
  {
    hide KeyBytes, Lane, Owns, Turns, Ordered, Running;
    if conversation !in w.store.mappings && session !in w.store.mappings.Values {
      NoLane(w.store.pending, conversation);
    }
    var after := Attaching(w, conversation, session);
    forall c | c in after.store.mappings ensures Attended(after.store, after.process, c) {
      assert c in w.store.mappings ==> Attended(w.store, w.process, c);
    }
  }

  lemma EnqueueWatches(config: Config, w: World)
    requires Inv(config, w) && Watching(w) && w.process.Enqueuing?
    ensures Watching(Enqueueing(w))
  {
    hide KeyBytes, Lane, Owns, Turns, Ordered, Running, Rows, Stored;
    var m := w.process.message;
    var row := Row(w.store.nextRow, m);
    var t := Enqueued(w.store, m);
    forall c | c in w.store.mappings ensures Attended(t, Acknowledging(m, w.process.session), c) {
      assert Attended(w.store, w.process, c);
      LaneAppend(w.store.pending, row, c);
      assert Lane(w.store.pending, c) + [] == Lane(w.store.pending, c);
    }
  }

  lemma LaunchWatches(config: Config, w: World)
    requires Inv(config, w) && Watching(w) && w.process.Launching?
    ensures Watching(LaunchRound(config, w))
  {
    hide KeyBytes, Lane, Owns, Turns, Ordered, Running, Rows, Sessions, LaunchRound;
    OwnsGrows(config, w, Launch);
    assert Do(config, w, Launch) == LaunchRound(config, w);
    var session := w.process.session;
    var c :| c in w.store.mappings && w.store.mappings[c] == session;
    LaunchLane(config, w, c);
    var after := LaunchRound(config, w);
    forall d | d in w.store.mappings ensures Attended(w.store, after.process, d) {
      assert Attended(w.store, w.process, d);
      OneConversation(w.store, w.hub, c, d);
    }
  }

  lemma OneConversation(s: Store, h: Hub, c: Text, d: Text)
    requires Sessions(s.mappings, h.nextSession) && c in s.mappings && d in s.mappings
    ensures s.mappings[c] == s.mappings[d] ==> c == d
  {
  }

  lemma SettleWatches(config: Config, w: World)
    requires Inv(config, w) && Watching(w) && w.process.Answered?
    ensures Watching(Settling(w))
  {
    hide KeyBytes, Lane, Owns, Turns, Ordered, Running, Delete;
    var row, c := w.process.row, w.process.row.message.conversation;
    var after := Settling(w);
    forall d | d in w.store.mappings ensures Attended(after.store, after.process, d) {
      assert Attended(w.store, w.process, d);
      LaneDelete(w.store.pending, c, d);
    }
  }

  lemma TurnEventWatches(config: Config, w: World, turn: TurnId)
    requires Inv(config, w) && Watching(w) && w.process == Ready(NOTHING)
    ensures Watching(Finishing(w, turn, NOTHING))
  {
    hide KeyBytes, Lane, Owns, Inv;
    if session :| IsActive(w.store, session, turn) {
      ActiveOwned(config, w, session, turn);
      OnlyOwner(config, w, session, turn);
      FreedIsDue(w.store, w.process, session, turn, NOTHING);
    } else {
      forall c | c in w.store.mappings ensures Attended(Finished(w.store, turn), Ready(NOTHING), c) {
        assert Attended(w.store, w.process, c);
        assert !IsActive(w.store, w.store.mappings[c], turn);
      }
    }
  }

  lemma StepWatches(config: Config, w: World, step: Step)
    requires Inv(config, w) && Watching(w) && Enabled(w, step)
    ensures Watching(Do(config, w, step))
  {
    hide KeyBytes, Inv, Lane, Owns, Terminal, Lists, LaunchRound, Settling, Recovering, Finishing, Mapped, Enqueueing;
    OwnsGrows(config, w, step);
    match step {
      case Open(todo) => OpenWatches(config, w, todo);
      case Recover => RecoverWatches(config, w);
      case Map => MapWatches(config, w);
      case Enqueue => EnqueueWatches(config, w);
      case Launch => LaunchWatches(config, w);
      case Settle => SettleWatches(config, w);
      case TurnEvent(turn) => TurnEventWatches(config, w, turn);
      case Attach(conversation, session) => AttachWatches(config, w, conversation, session);
      case Receive(m) => ReceiveWatches(config, w, m);
      case Acknowledge => AcknowledgeWatches(config, w);
      case HubFinishes(_, _) =>
      case Crash =>
    }
  }

  lemma ReceiveWatches(config: Config, w: World, m: Message)
    requires Watching(w) && w.process == Ready(NOTHING)
    ensures Watching(Receiving(config, w, m))
  {
    hide Lane, Owns;
    var after := Receiving(config, w, m);
    forall c | c in w.store.mappings ensures Attended(after.store, after.process, c) {
      assert Attended(w.store, w.process, c);
    }
  }

  lemma AcknowledgeWatches(config: Config, w: World)
    requires Watching(w) && w.process.Acknowledging?
    ensures Watching(Do(config, w, Acknowledge))
  {
    hide Lane, Owns;
    forall c | c in w.store.mappings ensures Attended(w.store, Launching(w.process.session, NOTHING), c) {
      assert Attended(w.store, w.process, c);
    }
  }

  lemma {:induction false} RunWatches(config: Config, w: World, steps: seq<Step>)
    requires Inv(config, w) && Watching(w) && Legal(config, w, steps)
    ensures Inv(config, Run(config, w, steps)) && Watching(Run(config, w, steps))
    decreases |steps|
  {
    hide Inv, Do, Enabled, Watching;
    if steps != [] {
      DoKeeps(config, w, steps[0]);
      StepWatches(config, w, steps[0]);
      RunWatches(config, Do(config, w, steps[0]), steps[1..]);
    }
  }

  // ---------------------------------------------------------------- every run

  /** With nothing in hand, a conversation that has pending messages has a recorded turn, and that turn is
      still running or its event can be handled. */
  lemma NothingStranded(config: Config, steps: seq<Step>, conversation: Text)
    requires Legal(config, INITIAL, steps)
    requires Run(config, INITIAL, steps).process == Ready(NOTHING)
    requires conversation in Run(config, INITIAL, steps).store.mappings
    requires Lane(Run(config, INITIAL, steps).store.pending, conversation) != []
    ensures var w := Run(config, INITIAL, steps);
            var session := w.store.mappings[conversation];
            && session in w.store.active
            && exists k :: k in w.hub.turns && k.0 == session && w.hub.turns[k].id == w.store.active[session]
                           && (w.hub.turns[k].running || Enabled(w, TurnEvent(w.store.active[session])))
  {
    hide KeyBytes, Run, Inv, Lane;
    InitialInv(config);
    RunWatches(config, INITIAL, steps);
    var w := Run(config, INITIAL, steps);
    assert Attended(w.store, w.process, conversation);
    var session := w.store.mappings[conversation];
    ActiveOwned(config, w, session, w.store.active[session]);
    var k :| k in w.hub.turns && k.0 == session && w.hub.turns[k].id == w.store.active[session];
    assert w.hub.turns[k].running || Terminal(w.hub, w.store.active[session]);
  }
}
