/** The main results about the durable inbox, for every run with crashes, redeliveries, lost replies and
    turns finishing at any moment; and the Channel's own code as runs of those operations. */
module InboxRuns {
  import opened Wrappers
  import opened TurnKeys
  import opened InboxModel
  import opened InboxLaws
  import opened InboxSteps

  predicate HasTurn(config: Config, w: World, id: Id) {
    id.conversation in w.store.mappings && KeyOf(config, w.store.mappings, id) in w.hub.turns
  }

  /** An acknowledged message is never lost: it is stored as pending or the Hub has its turn. */
  lemma AcknowledgedIsKept(config: Config, steps: seq<Step>, id: Id)
    requires Legal(config, INITIAL, steps)
    requires id in Run(config, INITIAL, steps).past.acknowledged
    ensures var w := Run(config, INITIAL, steps);
            Stored(w.store.pending, id) || HasTurn(config, w, id)
  {
    hide KeyBytes, Run, Running, Rows, Holds, Sessions;
    InitialInv(config);
    RunKeeps(config, INITIAL, steps);
    var w := Run(config, INITIAL, steps);
    ArrivedMeans(w.store.pending, w.past, id);
  }

  /** However often a message is delivered and wherever crashes fall, the Hub creates at most one turn
      for it, and no other message shares that turn. */
  lemma OneTurnPerMessage(config: Config, steps: seq<Step>)
    requires Legal(config, INITIAL, steps)
    ensures var w := Run(config, INITIAL, steps);
            && (forall i, j :: 0 <= i < j < |w.past.created| ==> w.past.created[i] != w.past.created[j])
            && (forall id :: id in w.past.created <==> HasTurn(config, w, id))
            && (forall id, other :: HasTurn(config, w, id) && HasTurn(config, w, other) && id != other ==>
                  w.hub.turns[KeyOf(config, w.store.mappings, id)].id
                  != w.hub.turns[KeyOf(config, w.store.mappings, other)].id)
  {
    hide KeyBytes, Run, Running, Rows, Holds, Sessions, Of, Fresh, Lane;
    InitialInv(config);
    RunKeeps(config, INITIAL, steps);
    var w := Run(config, INITIAL, steps);
    forall id | HasTurn(config, w, id) ensures id in w.past.created {
      AskKnown(config, w.store, w.hub, w.past.created, Row(0, Message(id.externalId, id.conversation, [], [])));
    }
    forall id, other | HasTurn(config, w, id) && HasTurn(config, w, other) && id != other
      ensures w.hub.turns[KeyOf(config, w.store.mappings, id)].id
              != w.hub.turns[KeyOf(config, w.store.mappings, other)].id
    {
      if KeyOf(config, w.store.mappings, id) == KeyOf(config, w.store.mappings, other) {
        KeyOfInjective(config, w.store.mappings, id, other);
      }
    }
  }

  /** The turns of a conversation are created in the order in which its messages first arrived, and
      those without a turn wait in that order behind them. */
  lemma TurnsInArrivalOrder(config: Config, steps: seq<Step>, conversation: Text)
    requires Legal(config, INITIAL, steps)
    ensures var w := Run(config, INITIAL, steps);
            && Of(w.past.created, conversation) <= Of(w.past.arrivals, conversation)
            && Of(w.past.arrivals, conversation)
               == Of(w.past.created, conversation) + Fresh(Lane(w.store.pending, conversation), w.past.created)
  {
    hide KeyBytes, Run, Running, Rows, Holds, Sessions, Of, Fresh, Lane, Turns;
    InitialInv(config);
    RunKeeps(config, INITIAL, steps);
  }

  /** The Channel never has two running turns in one Session, although a crash can separate creating a
      turn from recording it. */
  lemma OneRunningTurnPerSession(config: Config, steps: seq<Step>, k: (Session, seq<byte>), l: (Session, seq<byte>))
    requires Legal(config, INITIAL, steps)
    requires var h := Run(config, INITIAL, steps).hub;
             k in h.turns && l in h.turns && h.turns[k].running && h.turns[l].running && k.0 == l.0
    ensures k == l
  {
    hide KeyBytes, Run, Rows, Holds, Of, Fresh, Lane, Ordered;
    InitialInv(config);
    RunKeeps(config, INITIAL, steps);
    var w := Run(config, INITIAL, steps);
    var mappings := w.store.mappings;
    var a :| a in w.past.created && a.conversation in mappings && KeyOf(config, mappings, a) == k;
    var b :| b in w.past.created && b.conversation in mappings && KeyOf(config, mappings, b) == l;
    assert Watched(w.store.active, w.store.pending, w.hub, a, k);
    assert Watched(w.store.active, w.store.pending, w.hub, b, l);
  }

  /** Apart from crashes the process never stops: no table constraint is ever violated and no Session
      lacks its conversation. */
  lemma OnlyCrashesStopIt(config: Config, steps: seq<Step>, step: Step)
    requires Legal(config, INITIAL, steps + [step])
    requires Legal(config, INITIAL, steps) && Enabled(Run(config, INITIAL, steps), step)
    requires !Run(config, INITIAL, steps).process.Down? && !step.Crash?
    ensures !Do(config, Run(config, INITIAL, steps), step).process.Down?
  {
    hide Inv, Do, Enabled, Run;
    InitialInv(config);
    RunKeeps(config, INITIAL, steps);
    DoKeeps(config, Run(config, INITIAL, steps), step);
  }

  // ---------------------------------------------------------------- the Channel's code

  lemma {:induction false} RunConcat(config: Config, w: World, first: seq<Step>, second: seq<Step>)
    requires Legal(config, w, first) && Legal(config, Run(config, w, first), second)
    ensures Legal(config, w, first + second)
    ensures Run(config, w, first + second) == Run(config, Run(config, w, first), second)
    decreases |first|
  {
    hide Do, Enabled;
    if first == [] {
      assert first + second == second;
    } else {
      RunConcat(config, Do(config, w, first[0]), first[1..], second);
      assert (first + second)[1..] == first[1..] + second;
    }
  }

  lemma RunOne(config: Config, w: World, step: Step)
    requires Enabled(w, step)
    ensures Legal(config, w, [step]) && Run(config, w, [step]) == Do(config, w, step)
  {
  }

  /** The id is that of the row at `i` and of no other. */
  predicate OnlyAt(pending: seq<Row>, i: nat, id: nat) {
    i < |pending| && forall j :: 0 <= j < |pending| ==> (pending[j].id == id <==> j == i)
  }

  lemma {:induction false} DeleteCuts(pending: seq<Row>, i: nat, id: nat)
    requires OnlyAt(pending, i, id)
    ensures Delete(pending, id) == pending[..i] + pending[i + 1..]
  {
    var rest := pending[1..];
    assert forall j :: 0 <= j < |rest| ==> rest[j] == pending[j + 1];
    if i == 0 {
      DeleteAbsent(rest, id);
    } else {
      DeleteCuts(rest, i - 1, id);
      assert pending[..i] == [pending[0]] + rest[..i - 1];
      assert pending[i + 1..] == rest[i..];
    }
  }

  lemma {:induction false} LaneHead(pending: seq<Row>, c: Text)
    requires forall i, j :: 0 <= i < j < |pending| ==> pending[i].id < pending[j].id
    ensures Lane(pending, c) != [] ==>
              forall i :: 0 <= i < |pending| && pending[i].message.conversation == c ==> Lane(pending, c)[0].id <= pending[i].id
  {
    if pending != [] {
      LaneHead(pending[1..], c);
      LaneMembers(pending[1..], c);
      assert forall j :: 0 <= j < |pending[1..]| ==> pending[1..][j] == pending[j + 1];
    }
  }

  lemma {:induction false} LaneEmpty(pending: seq<Row>, c: Text)
    ensures Lane(pending, c) == [] <==> forall i :: 0 <= i < |pending| ==> pending[i].message.conversation != c
  {
    if pending != [] {
      LaneEmpty(pending[1..], c);
      assert forall j :: 0 <= j < |pending[1..]| ==> pending[1..][j] == pending[j + 1];
    }
  }

  /** The row with the least id of a conversation is the head of its lane. */
  lemma LeastIsHead(config: Config, s: Store, c: Text, row: Row)
    requires Rows(config, s) && row in s.pending && row.message.conversation == c
    requires forall i :: 0 <= i < |s.pending| && s.pending[i].message.conversation == c ==> row.id <= s.pending[i].id
    ensures Lane(s.pending, c) != [] && Lane(s.pending, c)[0] == row
  {
    hide Lane, Acceptable;
    LaneMembers(s.pending, c);
    LaneHead(s.pending, c);
    var i :| 0 <= i < |s.pending| && s.pending[i] == row;
    var j :| 0 <= j < |s.pending| && s.pending[j] == Lane(s.pending, c)[0];
  }

  /** The SQLite tables; each method is one statement or one transaction. */
  class MappingStore {
    var mappings: map<Text, Session>
    var pending: seq<Row>
    var nextRow: nat
    var active: map<Session, TurnId>

    function View(): Store
      reads this
    {
      Store(mappings, pending, nextRow, active)
    }

    constructor (s: Store)
      ensures View() == s
    {
      mappings, pending, nextRow, active := s.mappings, s.pending, s.nextRow, s.active;
    }

    method Insert(conversation: Text, session: Session) returns (ok: bool)
      modifies this
      ensures ok <==> old(conversation !in mappings && session !in mappings.Values)
      ensures View() == if ok then old(View()).(mappings := old(mappings)[conversation := session]) else old(View())
    {
      ok := conversation !in mappings && session !in mappings.Values;
      if ok { mappings := mappings[conversation := session]; }
    }

    method Enqueue(m: Message)
      modifies this
      ensures View() == Enqueued(old(View()), m)
    {
      if !Stored(pending, IdOf(m)) {
        pending := pending + [Row(nextRow, m)];
        nextRow := nextRow + 1;
      }
    }

    /** Every mapping, in some order. */
    method Mappings() returns (rows: seq<(Text, Session)>)
      ensures forall c :: c in mappings ==> (c, mappings[c]) in rows
      ensures forall i :: 0 <= i < |rows| ==> rows[i].0 in mappings && mappings[rows[i].0] == rows[i].1
    {
      rows := [];
      var left := mappings.Keys;
      while left != {}
        invariant left <= mappings.Keys
        invariant forall c :: c in mappings && c !in left ==> (c, mappings[c]) in rows
        invariant forall i :: 0 <= i < |rows| ==> rows[i].0 in mappings && mappings[rows[i].0] == rows[i].1
      {
        var c :| c in left;
        left := left - {c};
        rows := rows + [(c, mappings[c])];
      }
    }

    /** Every recorded active turn, in some order. */
    method ActiveTurns() returns (rows: seq<(Session, TurnId)>)
      ensures forall session :: session in active ==> (session, active[session]) in rows
      ensures forall i :: 0 <= i < |rows| ==> rows[i].0 in active && active[rows[i].0] == rows[i].1
    {
      rows := [];
      var left := active.Keys;
      while left != {}
        invariant left <= active.Keys
        invariant forall session :: session in active && session !in left ==> (session, active[session]) in rows
        invariant forall i :: 0 <= i < |rows| ==> rows[i].0 in active && active[rows[i].0] == rows[i].1
      {
        var session :| session in left;
        left := left - {session};
        rows := rows + [(session, active[session])];
      }
    }

    method ConversationOf(session: Session) returns (conversation: Option<Text>)
      ensures conversation.None? <==> forall c :: c in mappings ==> mappings[c] != session
      ensures conversation.Some? ==> conversation.value in mappings && mappings[conversation.value] == session
    {
      if c :| c in mappings && mappings[c] == session {
        conversation := Some(c);
      } else {
        conversation := None;
      }
    }

    /** The pending message of a conversation with the least id, if it has any. */
    method Next(conversation: Text) returns (row: Option<Row>)
      ensures row.None? <==> forall i :: 0 <= i < |pending| ==> pending[i].message.conversation != conversation
      ensures row.Some? ==> row.value in pending && row.value.message.conversation == conversation
      ensures row.Some? ==> forall i :: 0 <= i < |pending| && pending[i].message.conversation == conversation ==>
                              row.value.id <= pending[i].id
    {
      row := None;
      for i := 0 to |pending|
        invariant row.None? <==> forall j :: 0 <= j < i ==> pending[j].message.conversation != conversation
        invariant row.Some? ==> row.value in pending && row.value.message.conversation == conversation
        invariant row.Some? ==> forall j :: 0 <= j < i && pending[j].message.conversation == conversation ==>
                                  row.value.id <= pending[j].id
      {
        if pending[i].message.conversation == conversation && (row.None? || pending[i].id < row.value.id) {
          row := Some(pending[i]);
        }
      }
    }

    method MarkStarted(row: nat, session: Session, turn: TurnId) returns (ok: bool)
      modifies this
      ensures ok <==> old(session !in active && turn !in active.Values)
      ensures View() == if ok then Started(old(View()), row, session, turn) else old(View())
    {
      ok := session !in active && turn !in active.Values;
      if ok {
        active := active[session := turn];
        pending := Delete(pending, row);
      }
    }

    /** Removes the record of a finished turn and says whose it was. */
    method FinishTurn(turn: TurnId) returns (session: Option<Session>)
      modifies this
      ensures View() == Finished(old(View()), turn)
      ensures session.Some? ==> IsActive(old(View()), session.value, turn)
      ensures session.None? ==> forall s :: !IsActive(old(View()), s, turn)
    {
      if s :| s in active && active[s] == turn {
        session := Some(s);
      } else {
        session := None;
      }
      active := map s | s in active && active[s] != turn :: active[s];
    }

    /** Exactly the row with this id goes, the others stay as they stand, and no other table changes. */
    method DiscardPending(row: nat)
      modifies this
      ensures View() == old(View()).(pending := pending)
      ensures (forall i :: 0 <= i < old(|pending|) ==> old(pending)[i].id != row) ==> pending == old(pending)
      ensures forall i :: 0 <= i < old(|pending|) && OnlyAt(old(pending), i, row) ==>
                pending == old(pending)[..i] + old(pending)[i + 1..]
      ensures View() == Discarded(old(View()), row)
    {
      forall i | 0 <= i < |pending| && OnlyAt(pending, i, row)
        ensures Delete(pending, row) == pending[..i] + pending[i + 1..]
      {
        DeleteCuts(pending, i, row);
      }
      if forall i :: 0 <= i < |pending| ==> pending[i].id != row { DeleteAbsent(pending, row); }
      pending := Delete(pending, row);
    }
  }

  /** The Channel process between crashes. `past` is the history and `process` the point reached. */
  class ChannelRuntime {
    const config: Config
    const store: MappingStore
    var hub: Hub
    ghost var past: Past

    ghost function At(process: Process): World
      reads this, store
    {
      World(store.View(), hub, process, past)
    }

    constructor (config: Config, store: MappingStore, hub: Hub, ghost past: Past)
      ensures this.config == config && this.store == store && this.hub == hub && this.past == past
    {
      this.config, this.store, this.hub, this.past := config, store, hub, past;
    }

    /** `start_turn_idempotent` as the Hub answers it. */
    method StartTurn(session: Session, row: Row, ghost todo: Todo) returns (turn: Turn)
      modifies this
      ensures At(Answered(row, session, turn, todo)) == Ask(config, old(At(Launching(session, todo))), session, row)
      ensures store.View() == old(store.View()) && past.acknowledged == old(past.acknowledged)
    {
      var k := (session, Key(config, IdOf(row.message)));
      if k in hub.turns {
        turn := hub.turns[k];
      } else {
        turn := Turn(hub.nextTurn, true);
        hub := hub.(turns := hub.turns[k := turn], nextTurn := hub.nextTurn + 1);
        past := past.(created := past.created + [IdOf(row.message)]);
      }
    }

    /** One turn of the loop in `launch_next` for the oldest pending message of its conversation:
        ask the Hub, then record a running turn, or discard the message of a terminal one. */
    method LaunchRow(conversation: Text, session: Session, ghost todo: Todo, ghost start: World, ghost steps: seq<Step>)
      returns (running: bool)
      requires Reached(config, start, steps, At(Launching(session, todo)))
      requires Idle(store.View(), conversation, session) && Lane(store.pending, conversation) != []
      modifies this, store
      ensures Reached(config, start, steps + [Launch] + [Settle], At(if running then Ready(todo) else Launching(session, todo)))
      ensures !running ==> Idle(store.View(), conversation, session) && |store.pending| < old(|store.pending|)
      ensures past.acknowledged == old(past.acknowledged)
    {
      hide Do, Inv, Legal, Run, Ask, Lane, Delete;
      ghost var before := At(Launching(session, todo));
      LaneEmpty(store.pending, conversation);
      var next := store.Next(conversation);
      var row := next.value;
      NextIsHead(config, before, conversation, row);
      AskIsLaunch(config, before, conversation);
      if !Acceptable(config, row.message) {
        // Every stored message passed this check when it arrived.
        assert false;
      }
      Extend(config, start, steps, before, Launch);
      var turn := StartTurn(session, row, todo);
      ghost var asked := At(Answered(row, session, turn, todo));
      assert asked == Do(config, before, Launch);
      SettleIs(config, asked);
      Extend(config, start, steps + [Launch], asked, Settle);
      running := turn.running;
      if running {
        var ok := store.MarkStarted(row.id, session, turn.id);
      } else {
        store.DiscardPending(row.id);
      }
    }

    /** `launch_next`: its loop is a run of launches and settlements that ends ready. */
    method LaunchNext(session: Session, ghost todo: Todo) returns (ghost steps: seq<Step>)
      requires Inv(config, At(Launching(session, todo)))
      modifies this, store
      ensures forall i :: 0 <= i < |steps| ==> steps[i].Launch? || steps[i].Settle?
      ensures Reached(config, old(At(Launching(session, todo))), steps, At(Ready(todo)))
      ensures past.acknowledged == old(past.acknowledged)
    {
      hide Do, Inv, Legal, Run, Lane;
      ghost var start := At(Launching(session, todo));
      steps := [];
      Start(config, start);
      MappedSession(config, start);
      if session in store.active {
        FinishLaunch(start, session, todo, steps);
        steps := steps + [Launch];
        return;
      }
      var conversation := store.ConversationOf(session);
      while true
        invariant conversation.Some? && Idle(store.View(), conversation.value, session)
        invariant forall i :: 0 <= i < |steps| ==> steps[i].Launch? || steps[i].Settle?
        invariant Reached(config, start, steps, At(Launching(session, todo)))
        invariant past.acknowledged == old(past.acknowledged)
        decreases |store.pending|
      {
        var next := store.Next(conversation.value);
        LaneEmpty(store.pending, conversation.value);
        if next.None? {
          FinishLaunch(start, session, todo, steps);
          steps := steps + [Launch];
          return;
        }
        var running := LaunchRow(conversation.value, session, todo, start, steps);
        steps := steps + [Launch] + [Settle];
        if running { return; }
      }
    }

    /** The recovery of `open`: first every recorded turn that is over, then every mapped Session; a run from
        where a crash left the store to a process with nothing in hand. */
    method Open() returns (ghost steps: seq<Step>)
      requires Inv(config, At(Process.Down))
      modifies this, store
      ensures Reached(config, old(At(Process.Down)), steps, At(Ready(NOTHING)))
    {
      hide Do, Enabled, Inv, Legal, Run, Reached, Terminal;
      ghost var start := At(Process.Down);
      var mapped := store.Mappings();
      var actives := store.ActiveTurns();
      var sessions := SessionsOf(mapped);
      Start(config, start);
      OpenIs(config, start, mapped, actives);
      Extend(config, start, [], start, Step.Open(Todo(actives, sessions)));
      steps := [] + [Step.Open(Todo(actives, sessions))];
      assert actives[0..] == actives;
      for i := 0 to |actives|
        invariant Reached(config, start, steps, At(Ready(Todo(actives[i..], sessions))))
      {
        var (session, turn) := actives[i];
        ghost var before := At(Ready(Todo(actives[i..], sessions)));
        assert actives[i..][0] == actives[i] && actives[i..][1..] == actives[i + 1..];
        RecoverIs(config, before);
        Extend(config, start, steps, before, Recover);
        steps := steps + [Recover];
        if Terminal(hub, turn) {
          var freed := store.FinishTurn(turn);
          ghost var rest := Todo(actives[i + 1..], sessions);
          ghost var launching := At(Launching(session, rest));
          ReachedInv(config, start, steps, launching);
          ghost var more := LaunchNext(session, rest);
          Join(config, start, steps, launching, more, At(Ready(rest)));
          steps := steps + more;
        }
      }
      assert actives[|actives|..] == [] && sessions[0..] == sessions;
      for i := 0 to |sessions|
        invariant Reached(config, start, steps, At(Ready(Todo([], sessions[i..]))))
      {
        ghost var before := At(Ready(Todo([], sessions[i..])));
        assert sessions[i..][0] == sessions[i] && sessions[i..][1..] == sessions[i + 1..];
        RecoverIs(config, before);
        Extend(config, start, steps, before, Recover);
        steps := steps + [Recover];
        ghost var rest := Todo([], sessions[i + 1..]);
        ghost var launching := At(Launching(sessions[i], rest));
        ReachedInv(config, start, steps, launching);
        ghost var more := LaunchNext(sessions[i], rest);
        Join(config, start, steps, launching, more, At(Ready(rest)));
        steps := steps + more;
      }
      assert sessions[|sessions|..] == [];
    }

    /** `handle_inbound`: an unacceptable message is rejected and leaves no trace; any other one is stored
        before it is acknowledged, and then its Session's next turn is launched. */
    method HandleInbound(m: Message) returns (accepted: bool, ghost steps: seq<Step>)
      requires Inv(config, At(Ready(NOTHING)))
      modifies this, store
      ensures accepted == Acceptable(config, m)
      ensures !accepted ==> steps == [] && At(Ready(NOTHING)) == old(At(Ready(NOTHING)))
      ensures accepted ==> IdOf(m) in past.acknowledged
      ensures Reached(config, old(At(Ready(NOTHING))), steps, At(Ready(NOTHING)))
    {
      hide Do, Enabled, Inv, Legal, Run, Reached, Acceptable;
      ghost var start := At(Ready(NOTHING));
      steps := [];
      Start(config, start);
      accepted := Acceptable(config, m);
      if !accepted { return; }
      ReceiveIs(config, start, m);
      Extend(config, start, steps, start, Receive(m));
      steps := steps + [Receive(m)];
      var session;
      if m.conversation in store.mappings {
        session := store.mappings[m.conversation];
      } else {
        session := hub.nextSession;
        hub := hub.(nextSession := hub.nextSession + 1);
        ghost var mapping := At(Mapping(m, session));
        MapIs(config, start, mapping);
        var ok := store.Insert(m.conversation, session);
        Extend(config, start, steps, mapping, Map);
        steps := steps + [Map];
      }
      ghost var enqueuing := At(Enqueuing(m, session));
      EnqueueIs(config, enqueuing);
      store.Enqueue(m);
      if IdOf(m) !in past.arrivals { past := past.(arrivals := past.arrivals + [IdOf(m)]); }
      Extend(config, start, steps, enqueuing, Enqueue);
      steps := steps + [Enqueue];
      ghost var acknowledging := At(Acknowledging(m, session));
      AcknowledgeIs(config, acknowledging);
      past := past.(acknowledged := past.acknowledged + {IdOf(m)});
      Extend(config, start, steps, acknowledging, Acknowledge);
      steps := steps + [Acknowledge];
      ghost var launching := At(Launching(session, NOTHING));
      ReachedInv(config, start, steps, launching);
      ghost var more := LaunchNext(session, NOTHING);
      Join(config, start, steps, launching, more, At(Ready(NOTHING)));
      steps := steps + more;
    }

    /** `attach`: an existing Session is mapped to a conversation, unless either is mapped already. */
    method AttachSession(conversation: Text, session: Session) returns (ok: bool)
      requires Inv(config, At(Ready(NOTHING)))
      modifies this, store
      ensures ok <==> old(conversation !in store.mappings && session !in store.mappings.Values)
      ensures Reached(config, old(At(Ready(NOTHING))), [Attach(conversation, session)], At(Ready(NOTHING)))
      ensures ok ==> store.mappings == old(store.mappings)[conversation := session]
      ensures !ok ==> At(Ready(NOTHING)) == old(At(Ready(NOTHING)))
    {
      hide Do, Enabled, Inv, Legal, Run, Reached;
      ghost var start := At(Ready(NOTHING));
      Start(config, start);
      AttachIs(config, start, conversation, session);
      Extend(config, start, [], start, Attach(conversation, session));
      assert [] + [Attach(conversation, session)] == [Attach(conversation, session)];
      ok := store.Insert(conversation, session);
      if ok && session >= hub.nextSession { hub := hub.(nextSession := session + 1); }
    }

    /** `handle_turn_state` for a terminal turn: its record goes, and the freed Session launches its next. */
    method HandleTurnState(turn: TurnId) returns (ghost steps: seq<Step>)
      requires Inv(config, At(Ready(NOTHING))) && Terminal(hub, turn)
      modifies this, store
      ensures Reached(config, old(At(Ready(NOTHING))), steps, At(Ready(NOTHING)))
    {
      hide Do, Enabled, Inv, Legal, Run, Reached;
      ghost var start := At(Ready(NOTHING));
      Start(config, start);
      TurnEventIs(config, start, turn);
      Extend(config, start, [], start, TurnEvent(turn));
      var session := store.FinishTurn(turn);
      steps := [] + [TurnEvent(turn)];
      if session.Some? {
        ghost var launching := At(Launching(session.value, NOTHING));
        ReachedInv(config, start, steps, launching);
        ghost var more := LaunchNext(session.value, NOTHING);
        Join(config, start, steps, launching, more, At(Ready(NOTHING)));
        steps := steps + more;
      }
    }

    /** The last step of a launch that finds nothing to do. */
    lemma FinishLaunch(start: World, session: Session, todo: Todo, steps: seq<Step>)
      requires Reached(config, start, steps, At(Launching(session, todo)))
      requires session in store.active || exists c :: Idle(store.View(), c, session) && Lane(store.pending, c) == []
      ensures Reached(config, start, steps + [Launch], At(Ready(todo)))
    {
      hide Do, Legal, Run, Lane, LaunchRound, KeyBytes, Turns, Ordered, Running;
      var w := At(Launching(session, todo));
      assert Inv(config, w);
      var c :| c in store.mappings && store.mappings[c] == session;
      LaunchLane(config, w, c);
      Extend(config, start, steps, w, Launch);
      LaunchDo(config, w);
    }
  }

  lemma NextIsHead(config: Config, w: World, c: Text, row: Row)
    requires Inv(config, w) && row in w.store.pending && row.message.conversation == c
    requires forall i :: 0 <= i < |w.store.pending| && w.store.pending[i].message.conversation == c ==> row.id <= w.store.pending[i].id
    ensures Lane(w.store.pending, c) != [] && Lane(w.store.pending, c)[0] == row
  {
    hide Lane, Rows, Turns, Ordered, Running, Holds, Sessions;
    LeastIsHead(config, w.store, c, row);
  }

  /** The conversation of a Session without a recorded active turn. */
  predicate Idle(s: Store, conversation: Text, session: Session) {
    conversation in s.mappings && s.mappings[conversation] == session && session !in s.active
  }

  ghost predicate Reached(config: Config, start: World, steps: seq<Step>, w: World) {
    Legal(config, start, steps) && Run(config, start, steps) == w && Inv(config, w)
  }

  lemma Start(config: Config, w: World)
    requires Inv(config, w)
    ensures Reached(config, w, [], w)
  {
  }

  lemma MappedSession(config: Config, w: World)
    requires Inv(config, w) && w.process.Launching?
    ensures IsMapped(w.store.mappings, w.process.session)
  {
  }

  lemma ReachedInv(config: Config, start: World, steps: seq<Step>, w: World)
    requires Reached(config, start, steps, w)
    ensures Inv(config, w)
  {
  }

  lemma Join(config: Config, start: World, first: seq<Step>, middle: World, second: seq<Step>, end: World)
    requires Reached(config, start, first, middle) && Reached(config, middle, second, end)
    ensures Reached(config, start, first + second, end)
  {
    hide Do, Enabled, Inv, Legal, Run;
    RunConcat(config, start, first, second);
  }

  lemma ReceiveIs(config: Config, w: World, m: Message)
    requires w.process == Ready(NOTHING)
    ensures Enabled(w, Receive(m)) && Do(config, w, Receive(m)) == Receiving(config, w, m)
  {
  }

  /** A Session that the Hub has just created is mapped to no other conversation. */
  lemma MapIs(config: Config, start: World, w: World)
    requires Inv(config, start) && w.process.Mapping? && w.store == start.store && w.process.session == start.hub.nextSession
    requires w.process.message.conversation !in w.store.mappings
    ensures w.process.session !in w.store.mappings.Values
    ensures Enabled(w, Map) && Do(config, w, Map) == Mapped(w)
  {
    hide KeyBytes, Turns, Ordered, Running, Rows, Holds;
  }

  function SessionsOf(mapped: seq<(Text, Session)>): seq<Session> {
    seq(|mapped|, i requires 0 <= i < |mapped| => mapped[i].1)
  }

  lemma OpenIs(config: Config, w: World, mapped: seq<(Text, Session)>, actives: seq<(Session, TurnId)>)
    requires w.process.Down?
    requires forall c :: c in w.store.mappings ==> (c, w.store.mappings[c]) in mapped
    requires forall i :: 0 <= i < |mapped| ==> mapped[i].0 in w.store.mappings && w.store.mappings[mapped[i].0] == mapped[i].1
    requires forall session :: session in w.store.active ==> (session, w.store.active[session]) in actives
    requires forall i :: 0 <= i < |actives| ==> IsActive(w.store, actives[i].0, actives[i].1)
    ensures var todo := Todo(actives, SessionsOf(mapped));
            Enabled(w, Step.Open(todo)) && Do(config, w, Step.Open(todo)) == w.(process := Ready(todo))
  {
    var sessions := SessionsOf(mapped);
    forall c | c in w.store.mappings ensures w.store.mappings[c] in sessions {
      var i :| 0 <= i < |mapped| && mapped[i] == (c, w.store.mappings[c]);
      assert sessions[i] == w.store.mappings[c];
    }
  }

  lemma RecoverIs(config: Config, w: World)
    requires w.process.Ready? && w.process.todo != NOTHING
    ensures Enabled(w, Recover) && Do(config, w, Recover) == Recovering(w)
  {
  }

  lemma AttachIs(config: Config, w: World, conversation: Text, session: Session)
    requires w.process == Ready(NOTHING)
    ensures Enabled(w, Attach(conversation, session))
    ensures Do(config, w, Attach(conversation, session)) == Attaching(w, conversation, session)
  {
  }

  lemma EnqueueIs(config: Config, w: World)
    requires w.process.Enqueuing?
    ensures Enabled(w, Enqueue) && Do(config, w, Enqueue) == Enqueueing(w)
  {
  }

  lemma AcknowledgeIs(config: Config, w: World)
    requires w.process.Acknowledging?
    ensures Enabled(w, Acknowledge)
    ensures Do(config, w, Acknowledge)
            == w.(past := w.past.(acknowledged := w.past.acknowledged + {IdOf(w.process.message)}),
                  process := Launching(w.process.session, NOTHING))
  {
  }

  /** At most one Session has this turn recorded, so the one found is the one freed. */
  lemma TurnEventIs(config: Config, w: World, turn: TurnId)
    requires Inv(config, w) && w.process == Ready(NOTHING) && Terminal(w.hub, turn)
    ensures Enabled(w, TurnEvent(turn)) && Do(config, w, TurnEvent(turn)) == Finishing(w, turn, NOTHING)
    ensures forall s, t :: IsActive(w.store, s, turn) && IsActive(w.store, t, turn) ==> s == t
  {
    hide KeyBytes, Ordered, Rows, Holds, Sessions, Watched, Terminal;
    forall s, t | IsActive(w.store, s, turn) && IsActive(w.store, t, turn) ensures s == t {
      var k :| k in w.hub.turns && k.0 == s && w.hub.turns[k].id == w.store.active[s];
      var l :| l in w.hub.turns && l.0 == t && w.hub.turns[l].id == w.store.active[t];
      assert k == l;
    }
  }

  lemma LaunchDo(config: Config, w: World)
    requires w.process.Launching?
    ensures Enabled(w, Launch) && Do(config, w, Launch) == LaunchRound(config, w)
  {
  }

  /** Settling as the Channel's code does it: no constraint fails and the row asked about is gone. */
  lemma SettleIs(config: Config, w: World)
    requires Inv(config, w) && w.process.Answered?
    ensures Enabled(w, Settle)
    ensures var p := w.process;
            && |Delete(w.store.pending, p.row.id)| < |w.store.pending|
            && p.session !in w.store.active && p.turn.id !in w.store.active.Values
            && p.row.message.conversation in w.store.mappings && w.store.mappings[p.row.message.conversation] == p.session
            && (p.turn.running ==>
                  Do(config, w, Settle)
                  == w.(store := Started(w.store, p.row.id, p.session, p.turn.id), process := Ready(p.todo)))
            && (!p.turn.running ==>
                  Do(config, w, Settle)
                  == w.(store := Discarded(w.store, p.row.id), process := Launching(p.session, p.todo)))
  {
    hide KeyBytes, Turns, Ordered, Running, Rows, Delete;
    HeadShrinks(w);
    var k := KeyOf(config, w.store.mappings, IdOf(w.process.row.message));
    if w.process.turn.id in w.store.active.Values {
      ActiveUnique(config, w.store, w.hub, w.past.created, k);
    }
  }

  lemma AskIsLaunch(config: Config, w: World, c: Text)
    requires Inv(config, w) && w.process.Launching? && w.process.session !in w.store.active
    requires c in w.store.mappings && w.store.mappings[c] == w.process.session && Lane(w.store.pending, c) != []
    ensures Acceptable(config, Lane(w.store.pending, c)[0].message)
    ensures Do(config, w, Launch) == Ask(config, w, w.process.session, Lane(w.store.pending, c)[0])
  {
    hide Lane, Ask, LaunchRound, KeyBytes, Acceptable, Turns, Ordered, Running, Holds;
    LaunchLane(config, w, c);
    LaneMembers(w.store.pending, c);
    var i :| 0 <= i < |w.store.pending| && w.store.pending[i] == Lane(w.store.pending, c)[0];
  }

  lemma Extend(config: Config, start: World, steps: seq<Step>, w: World, step: Step)
    requires Reached(config, start, steps, w) && Enabled(w, step)
    ensures Reached(config, start, steps + [step], Do(config, w, step))
  {
    hide Do, Enabled, Inv, Legal, Run;
    DoKeeps(config, w, step);
    RunOne(config, w, step);
    RunConcat(config, start, steps, [step]);
  }

  /** Discarding the row that was asked about leaves fewer pending rows. */
  lemma HeadShrinks(w: World)
    requires w.process.Answered? && IsRowHead(w.store.pending, w.process.row)
    ensures |Delete(w.store.pending, w.process.row.id)| < |w.store.pending|
  {
    LaneMembers(w.store.pending, w.process.row.message.conversation);
    DeleteShrinks(w.store.pending, w.process.row.id);
  }

  lemma {:induction false} DeleteShrinks(pending: seq<Row>, id: nat)
    ensures |Delete(pending, id)| <= |pending|
    ensures (exists i :: 0 <= i < |pending| && pending[i].id == id) ==> |Delete(pending, id)| < |pending|
  {
    if pending != [] {
      DeleteShrinks(pending[1..], id);
      if i :| 0 < i < |pending| && pending[i].id == id {
        assert pending[1..][i - 1].id == id;
      }
    }
  }
}
