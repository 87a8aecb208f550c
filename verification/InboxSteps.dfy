/** Every operation of the durable inbox, every Hub-side change and every crash keeps the invariant. */
module InboxSteps {
  import opened TurnKeys
  import opened InboxModel
  import opened InboxLaws

  // ---------------------------------------------------------------- the Hub finishes a turn

  function Closed(h: Hub, k: (Session, seq<byte>)): Hub
    requires k in h.turns
  {
    h.(turns := h.turns[k := h.turns[k].(running := false)])
  }

  lemma HubFinishesTurns(config: Config, mappings: map<Text, Session>, h: Hub, created: seq<Id>, k: (Session, seq<byte>))
    requires Turns(config, mappings, h, created) && k in h.turns
    ensures Turns(config, mappings, Closed(h, k), created)
  {
    hide KeyBytes;
    assert Closed(h, k).turns.Keys == h.turns.Keys;
  }

  lemma HubFinishesRunning(config: Config, s: Store, h: Hub, created: seq<Id>, k: (Session, seq<byte>))
    requires Running(config, s, h, created) && k in h.turns
    ensures Running(config, s, Closed(h, k), created)
  {
  }

  lemma HubFinishesKeeps(config: Config, w: World, session: Session, key: seq<byte>)
    requires Inv(config, w) && (session, key) in w.hub.turns
    ensures Inv(config, Do(config, w, HubFinishes(session, key)))
  {
    hide Turns, Running, Rows, Ordered, Sessions, Planned, IsRowHead, KeyBytes;
    HubFinishesTurns(config, w.store.mappings, w.hub, w.past.created, (session, key));
    HubFinishesRunning(config, w.store, w.hub, w.past.created, (session, key));
  }

  // ---------------------------------------------------------------- an inbound message

  lemma MapKeeps(config: Config, w: World)
    requires Inv(config, w) && w.process.Mapping?
    ensures Inv(config, Do(config, w, Map))
  {
    hide Ordered, Turns, Running, KeyBytes;
    var m, session := w.process.message, w.process.session;
    assert session !in w.store.mappings.Values;
    var mappings := w.store.mappings[m.conversation := session];
    assert Do(config, w, Map).store == w.store.(mappings := mappings);
    MapTurns(config, w.store, w.hub, w.past.created, m.conversation, session);
  }

  lemma MapTurns(config: Config, s: Store, h: Hub, created: seq<Id>, c: Text, session: Session)
    requires Turns(config, s.mappings, h, created) && Running(config, s, h, created) && c !in s.mappings
    ensures var mappings := s.mappings[c := session];
            Turns(config, mappings, h, created) && Running(config, s.(mappings := mappings), h, created)
  {
    hide KeyBytes, Watched;
    var mappings := s.mappings[c := session];
    forall id | id in created
      ensures id.conversation in s.mappings && KeyOf(config, mappings, id) == KeyOf(config, s.mappings, id)
    {
    }
  }

  lemma AttachKeeps(config: Config, w: World, conversation: Text, session: Session)
    requires Inv(config, w) && w.process == Ready(NOTHING)
    ensures Inv(config, Attaching(w, conversation, session))
  {
    hide Ordered, Turns, Running, KeyBytes;
    if conversation !in w.store.mappings && session !in w.store.mappings.Values {
      var next := if session < w.hub.nextSession then w.hub.nextSession else session + 1;
      MapTurns(config, w.store, w.hub, w.past.created, conversation, session);
      LaterSession(config, w.store.(mappings := w.store.mappings[conversation := session]), w.hub, w.past.created, next);
    }
  }

  lemma EnqueueKeeps(config: Config, w: World)
    requires Inv(config, w) && w.process.Enqueuing?
    ensures Inv(config, Do(config, w, Enqueue))
  {
    hide Lane, Of, Fresh, KeyBytes, Ordered, Turns, Running, Sessions;
    var m := w.process.message;
    if Stored(w.store.pending, IdOf(m)) {
      ArrivedMeans(w.store.pending, w.past, IdOf(m));
    } else {
      EnqueueOrdered(config, w.store, w.past, m);
      EnqueueRunning(config, w.store, w.hub, w.past.created, m);
    }
  }

  lemma EnqueueRunning(config: Config, s: Store, h: Hub, created: seq<Id>, m: Message)
    requires Running(config, s, h, created) && !Stored(s.pending, IdOf(m))
    ensures Running(config, Enqueued(s, m), h, created)
  {
    hide Lane, KeyBytes;
    forall id | IsHead(s.pending, id) ensures IsHead(Enqueued(s, m).pending, id) {
      LaneAppend(s.pending, Row(s.nextRow, m), id.conversation);
    }
  }

  lemma EnqueueOrdered(config: Config, s: Store, p: Past, m: Message)
    requires Ordered(s.pending, p) && !Stored(s.pending, IdOf(m))
    ensures Ordered(Enqueued(s, m).pending,
                    if IdOf(m) in p.arrivals then p else p.(arrivals := p.arrivals + [IdOf(m)]))
  {
    hide Lane, Of, Fresh;
    var id, row := IdOf(m), Row(s.nextRow, m);
    ArrivedMeans(s.pending, p, id);
    var q := if id in p.arrivals then p else p.(arrivals := p.arrivals + [id]);
    forall c ensures Of(q.arrivals, c) == Of(q.created, c) + Fresh(Lane(s.pending + [row], c), q.created) {
      LaneAppend(s.pending, row, c);
      FreshAppend(Lane(s.pending, c), row, p.created);
      OfAppend(p.arrivals, id, c);
      assert Lane(s.pending, c) + [] == Lane(s.pending, c);
      assert Of(p.arrivals, c) + [] == Of(p.arrivals, c);
    }
    assert Distinct(q.created);
    assert forall other :: other in q.acknowledged ==> other in q.arrivals;
  }

  /** A message that has arrived has a turn or is pending. */
  lemma ArrivedMeans(pending: seq<Row>, p: Past, id: Id)
    requires Ordered(pending, p)
    ensures id in p.arrivals <==> id in p.created || Stored(pending, id)
  {
    hide Lane;
    var c := id.conversation;
    var lane := Lane(pending, c);
    FreshMembers(lane, p.created);
    OfMembers(p.created, c);
    OfMembers(p.arrivals, c);
    StoredInLane(pending, id);
    assert id in Of(p.arrivals, c) <==> id in Of(p.created, c) || id in Fresh(lane, p.created);
  }

  lemma StoredInLane(pending: seq<Row>, id: Id)
    ensures Stored(pending, id) <==> Stored(Lane(pending, id.conversation), id)
  {
    hide Lane;
    var lane := Lane(pending, id.conversation);
    LaneMembers(pending, id.conversation);
    if Stored(pending, id) {
      var i :| 0 <= i < |pending| && IdOf(pending[i].message) == id;
      var j :| 0 <= j < |lane| && lane[j] == pending[i];
    }
    if Stored(lane, id) {
      var i :| 0 <= i < |lane| && IdOf(lane[i].message) == id;
      var j :| 0 <= j < |pending| && pending[j] == lane[i];
    }
  }

  // ---------------------------------------------------------------- launching

  /** The conversation a launch looks at is the one mapped to its Session. */
  lemma LaunchLane(config: Config, w: World, c: Text)
    requires Sessions(w.store.mappings, w.hub.nextSession) && Rows(config, w.store) && w.process.Launching?
    requires c in w.store.mappings && w.store.mappings[c] == w.process.session
    ensures var lane := Lane(w.store.pending, c);
            LaunchRound(config, w)
            == if w.process.session in w.store.active || lane == [] then w.(process := Ready(w.process.todo))
               else Ask(config, w, w.process.session, lane[0])
    ensures Lane(w.store.pending, c) != [] ==> Lane(w.store.pending, c)[0].message.conversation == c
  {
    hide Lane, KeyBytes, Ask;
    LaneMembers(w.store.pending, c);
    var lane := Lane(w.store.pending, c);
    if lane != [] {
      var i :| 0 <= i < |w.store.pending| && w.store.pending[i] == lane[0];
    }
  }

  lemma LaunchKeeps(config: Config, w: World)
    requires Inv(config, w) && w.process.Launching?
    ensures Inv(config, Do(config, w, Launch))
    ensures !Do(config, w, Launch).process.Down?
  {
    hide Lane, Of, Fresh, KeyBytes, Turns, Ordered, Running, Rows, Sessions, LaunchRound;
    var c :| c in w.store.mappings && w.store.mappings[c] == w.process.session;
    LaunchLane(config, w, c);
    var lane := Lane(w.store.pending, c);
    if w.process.session !in w.store.active && lane != [] {
      var row := lane[0];
      if KeyOf(config, w.store.mappings, IdOf(row.message)) in w.hub.turns {
        AskKnown(config, w.store, w.hub, w.past.created, row);
      } else {
        AskNewTurns(config, w.store.mappings, w.hub, w.past.created, IdOf(row.message));
        AskNewOrdered(config, w.store, w.past, row);
        AskNewRunning(config, w.store, w.hub, w.past.created, row);
      }
    }
  }

  lemma AskKnown(config: Config, s: Store, h: Hub, created: seq<Id>, row: Row)
    requires Turns(config, s.mappings, h, created) && row.message.conversation in s.mappings
    requires KeyOf(config, s.mappings, IdOf(row.message)) in h.turns
    ensures IdOf(row.message) in created
  {
    hide KeyBytes;
    var k := KeyOf(config, s.mappings, IdOf(row.message));
    var id :| id in created && id.conversation in s.mappings && KeyOf(config, s.mappings, id) == k;
    KeyOfInjective(config, s.mappings, id, IdOf(row.message));
  }

  function Opened(h: Hub, k: (Session, seq<byte>)): Hub {
    h.(turns := h.turns[k := Turn(h.nextTurn, true)], nextTurn := h.nextTurn + 1)
  }

  lemma AskNewTurns(config: Config, mappings: map<Text, Session>, h: Hub, created: seq<Id>, id: Id)
    requires Turns(config, mappings, h, created) && id.conversation in mappings
    requires KeyOf(config, mappings, id) !in h.turns
    ensures id !in created
    ensures Turns(config, mappings, Opened(h, KeyOf(config, mappings, id)), created + [id])
  {
    hide KeyBytes;
    var t := Opened(h, KeyOf(config, mappings, id));
    forall k | k in t.turns
      ensures exists other :: other in created + [id] && other.conversation in mappings && KeyOf(config, mappings, other) == k
    {
      if k in h.turns {
        var other :| other in created && other.conversation in mappings && KeyOf(config, mappings, other) == k;
        assert other in created + [id];
      } else {
        assert id in created + [id];
      }
    }
  }

  lemma AskNewOrdered(config: Config, s: Store, p: Past, row: Row)
    requires Ordered(s.pending, p) && Rows(config, s) && IsRowHead(s.pending, row) && IdOf(row.message) !in p.created
    ensures Ordered(s.pending, p.(created := p.created + [IdOf(row.message)]))
  {
    hide Lane, Of, Fresh;
    var id := IdOf(row.message);
    var created := p.created + [id];
    forall d ensures Of(p.arrivals, d) == Of(created, d) + Fresh(Lane(s.pending, d), created) {
      OfAppend(p.created, id, d);
      LaneMembers(s.pending, d);
      if d == id.conversation {
        HeadCreated(config, s, d, p.created);
      } else {
        FreshUnaffected(Lane(s.pending, d), p.created, id);
      }
    }
  }

  /** Once the oldest pending message has a turn, the fresh ones are those behind it. */
  lemma HeadCreated(config: Config, s: Store, c: Text, created: seq<Id>)
    requires Rows(config, s) && Lane(s.pending, c) != []
    requires IdOf(Lane(s.pending, c)[0].message) !in created
    ensures var lane := Lane(s.pending, c);
            var id := IdOf(lane[0].message);
            Fresh(lane, created) == [id] + Fresh(lane, created + [id])
  {
    hide Lane;
    var lane := Lane(s.pending, c);
    var id := IdOf(lane[0].message);
    LaneDistinct(s.pending, c);
    FreshUnaffected(lane[1..], created, id);
  }

  predicate DistinctRows(q: seq<Row>) {
    forall i, j :: 0 <= i < j < |q| ==> IdOf(q[i].message) != IdOf(q[j].message)
  }

  lemma DistinctCons(first: Row, rest: seq<Row>)
    requires DistinctRows(rest)
    requires forall i :: 0 <= i < |rest| ==> IdOf(rest[i].message) != IdOf(first.message)
    ensures DistinctRows([first] + rest)
  {
  }

  lemma {:induction false} LaneDistinct(pending: seq<Row>, c: Text)
    requires DistinctRows(pending)
    ensures DistinctRows(Lane(pending, c))
  {
    if pending != [] {
      var first, rest := pending[0], Lane(pending[1..], c);
      LaneDistinct(pending[1..], c);
      LaneMembers(pending[1..], c);
      forall i | 0 <= i < |rest| ensures IdOf(rest[i].message) != IdOf(first.message) {
        var j :| 0 <= j < |pending[1..]| && pending[1..][j] == rest[i];
        assert pending[j + 1] == rest[i];
      }
      DistinctCons(first, rest);
      assert Lane(pending, c) == if first.message.conversation == c then [first] + rest else rest;
    }
  }

  lemma AskNewRunning(config: Config, s: Store, h: Hub, created: seq<Id>, row: Row)
    requires Running(config, s, h, created) && row.message.conversation in s.mappings
    requires IsRowHead(s.pending, row) && s.mappings[row.message.conversation] !in s.active
    requires KeyOf(config, s.mappings, IdOf(row.message)) !in h.turns
    ensures Running(config, s, Opened(h, KeyOf(config, s.mappings, IdOf(row.message))), created + [IdOf(row.message)])
  {
    hide Lane, KeyBytes;
    var t := Opened(h, KeyOf(config, s.mappings, IdOf(row.message)));
    forall session | session in s.active
      ensures exists k :: k in t.turns && k.0 == session && t.turns[k].id == s.active[session]
    {
      var k :| k in h.turns && k.0 == session && h.turns[k].id == s.active[session];
      assert k in t.turns;
    }
    forall id | id in created && id.conversation in s.mappings
      ensures Watched(s.active, s.pending, t, id, KeyOf(config, s.mappings, id))
    {
      assert Watched(s.active, s.pending, h, id, KeyOf(config, s.mappings, id));
      if KeyOf(config, s.mappings, id) == KeyOf(config, s.mappings, IdOf(row.message)) {
        KeyOfInjective(config, s.mappings, id, IdOf(row.message));
      }
    }
  }

  // ---------------------------------------------------------------- the Hub's answer

  /** A terminal turn's message leaves the table; its turn stays. */
  lemma DiscardKeeps(config: Config, s: Store, h: Hub, p: Past, row: Row)
    requires Sessions(s.mappings, h.nextSession) && Rows(config, s) && Turns(config, s.mappings, h, p.created)
    requires Ordered(s.pending, p) && Running(config, s, h, p.created)
    requires row.message.conversation in s.mappings && IsRowHead(s.pending, row) && IdOf(row.message) in p.created
    requires !h.turns[KeyOf(config, s.mappings, IdOf(row.message))].running
    ensures var t := Discarded(s, row.id);
            Rows(config, t) && Ordered(t.pending, p) && Running(config, t, h, p.created)
  {
    hide Lane, Of, Fresh, KeyBytes, Delete;
    DeleteMembers(s.pending, row.id);
    RowsShrink(config, s, row.id);
    DeleteOrdered(config, s, p, row);
    DiscardRunning(config, s, h, p.created, row);
  }

  lemma RowsShrink(config: Config, s: Store, id: nat)
    requires Rows(config, s)
    ensures Rows(config, Discarded(s, id))
  {
    DeleteMembers(s.pending, id);
    var r := Delete(s.pending, id);
    forall i | 0 <= i < |r|
      ensures r[i].id < s.nextRow && r[i].message.conversation in s.mappings && Acceptable(config, r[i].message)
    {
      assert r[i] in s.pending;
      var j :| 0 <= j < |s.pending| && s.pending[j] == r[i];
    }
  }

  lemma DeleteOrdered(config: Config, s: Store, p: Past, row: Row)
    requires Rows(config, s) && Ordered(s.pending, p) && IsRowHead(s.pending, row) && IdOf(row.message) in p.created
    ensures Ordered(Delete(s.pending, row.id), p)
  {
    hide Lane, Of, Delete;
    var c := row.message.conversation;
    forall d ensures Fresh(Lane(Delete(s.pending, row.id), d), p.created) == Fresh(Lane(s.pending, d), p.created) {
      LaneDelete(s.pending, c, d);
    }
  }

  /** The conversation a created turn's key belongs to is the one mapped to its Session. */
  lemma DiscardRunning(config: Config, s: Store, h: Hub, created: seq<Id>, row: Row)
    requires Sessions(s.mappings, h.nextSession) && Rows(config, s) && Running(config, s, h, created)
    requires row.message.conversation in s.mappings && IsRowHead(s.pending, row)
    requires KeyOf(config, s.mappings, IdOf(row.message)) in h.turns
    requires !h.turns[KeyOf(config, s.mappings, IdOf(row.message))].running
    ensures Running(config, Discarded(s, row.id), h, created)
  {
    hide Lane, KeyBytes, Delete;
    var c := row.message.conversation;
    var t := Discarded(s, row.id);
    forall id | id in created && id.conversation in s.mappings
      ensures Watched(t.active, t.pending, h, id, KeyOf(config, s.mappings, id))
    {
      assert Watched(s.active, s.pending, h, id, KeyOf(config, s.mappings, id));
      LaneDelete(s.pending, c, id.conversation);
    }
  }

  /** Recording a running turn: its message leaves the table as its Session becomes active. */
  lemma StartRunning(config: Config, s: Store, h: Hub, created: seq<Id>, row: Row)
    requires Sessions(s.mappings, h.nextSession) && Rows(config, s) && Running(config, s, h, created)
    requires row.message.conversation in s.mappings && IsRowHead(s.pending, row)
    requires s.mappings[row.message.conversation] !in s.active
    requires KeyOf(config, s.mappings, IdOf(row.message)) in h.turns
    ensures var k := KeyOf(config, s.mappings, IdOf(row.message));
            Running(config, Started(s, row.id, k.0, h.turns[k].id), h, created)
  {
    hide Lane, KeyBytes, Delete;
    var c := row.message.conversation;
    var k := KeyOf(config, s.mappings, IdOf(row.message));
    var t := Started(s, row.id, k.0, h.turns[k].id);
    forall id | id in created && id.conversation in s.mappings
      ensures Watched(t.active, t.pending, h, id, KeyOf(config, s.mappings, id))
    {
      assert Watched(s.active, s.pending, h, id, KeyOf(config, s.mappings, id));
      LaneDelete(s.pending, c, id.conversation);
    }
    forall session | session in t.active
      ensures exists l :: l in h.turns && l.0 == session && h.turns[l].id == t.active[session]
    {
      if session == k.0 {
        assert h.turns[k].id == t.active[session];
      } else {
        var l :| l in h.turns && l.0 == session && h.turns[l].id == s.active[session];
      }
    }
  }

  /** No two Sessions record the same turn. */
  lemma ActiveUnique(config: Config, s: Store, h: Hub, created: seq<Id>, k: (Session, seq<byte>))
    requires Turns(config, s.mappings, h, created) && Running(config, s, h, created)
    requires k in h.turns && h.turns[k].id in s.active.Values
    ensures k.0 in s.active && s.active[k.0] == h.turns[k].id
  {
  }

  lemma SettleKeeps(config: Config, w: World)
    requires Inv(config, w) && w.process.Answered?
    ensures Inv(config, Do(config, w, Settle))
    ensures !Do(config, w, Settle).process.Down?
  {
    hide Lane, Of, Fresh, KeyBytes, Delete, Turns, Ordered, Running, Rows, Sessions;
    var row, turn := w.process.row, w.process.turn;
    var k := KeyOf(config, w.store.mappings, IdOf(row.message));
    if !turn.running {
      DiscardKeeps(config, w.store, w.hub, w.past, row);
    } else {
      if turn.id in w.store.active.Values {
        ActiveUnique(config, w.store, w.hub, w.past.created, k);
      }
      StartRunning(config, w.store, w.hub, w.past.created, row);
      DeleteOrdered(config, w.store, w.past, row);
      RowsShrink(config, w.store, row.id);
      StartedRows(config, w.store, row.id, k.0, turn.id);
    }
  }

  lemma StartedRows(config: Config, s: Store, row: nat, session: Session, turn: TurnId)
    requires Rows(config, Discarded(s, row))
    ensures Rows(config, Started(s, row, session, turn))
  {
  }

  // ---------------------------------------------------------------- a turn is over

  lemma FinishRunning(config: Config, s: Store, h: Hub, created: seq<Id>, turn: TurnId)
    requires Turns(config, s.mappings, h, created) && Running(config, s, h, created) && Terminal(h, turn)
    ensures Running(config, Finished(s, turn), h, created)
  {
    hide Lane, KeyBytes;
    var t := Finished(s, turn);
    var over :| over in h.turns && h.turns[over].id == turn && !h.turns[over].running;
    forall id | id in created && id.conversation in s.mappings
      ensures Watched(t.active, t.pending, h, id, KeyOf(config, s.mappings, id))
    {
      var k := KeyOf(config, s.mappings, id);
      assert Watched(s.active, s.pending, h, id, k);
      assert h.turns[k].running ==> h.turns[k].id != turn;
    }
  }

  lemma FinishedRows(config: Config, s: Store, turn: TurnId)
    requires Rows(config, s)
    ensures Rows(config, Finished(s, turn))
  {
  }

  /** A recorded active turn belongs to a mapped Session. */
  lemma ActiveMapped(config: Config, s: Store, h: Hub, created: seq<Id>, session: Session)
    requires Turns(config, s.mappings, h, created) && Running(config, s, h, created) && session in s.active
    ensures IsMapped(s.mappings, session)
  {
  }

  lemma TurnEventKeeps(config: Config, w: World, turn: TurnId)
    requires Inv(config, w) && w.process == Ready(NOTHING) && Terminal(w.hub, turn)
    ensures Inv(config, Do(config, w, TurnEvent(turn)))
    ensures !Do(config, w, TurnEvent(turn)).process.Down?
  {
    hide Lane, Of, Fresh, KeyBytes, Turns, Ordered, Running, Rows, Sessions, Terminal;
    FinishRunning(config, w.store, w.hub, w.past.created, turn);
    FinishedRows(config, w.store, turn);
    forall session | IsActive(w.store, session, turn) ensures IsMapped(w.store.mappings, session) {
      ActiveMapped(config, w.store, w.hub, w.past.created, session);
    }
  }

  // ---------------------------------------------------------------- opening

  lemma OpenKeeps(config: Config, w: World, todo: Todo)
    requires Inv(config, w) && w.process.Down? && Lists(todo, w.store)
    ensures Inv(config, Do(config, w, Open(todo)))
  {
    hide KeyBytes, Turns, Ordered, Running, Rows, Sessions;
    forall i | 0 <= i < |todo.actives| ensures IsMapped(w.store.mappings, todo.actives[i].0) {
      assert IsActive(w.store, todo.actives[i].0, todo.actives[i].1);
      ActiveMapped(config, w.store, w.hub, w.past.created, todo.actives[i].0);
    }
    forall i | 0 <= i < |todo.sessions| ensures IsMapped(w.store.mappings, todo.sessions[i]) {
      assert todo.sessions[i] in w.store.mappings.Values;
    }
  }

  lemma RecoverKeeps(config: Config, w: World)
    requires Inv(config, w) && Enabled(w, Recover)
    ensures Inv(config, Do(config, w, Recover))
    ensures !Do(config, w, Recover).process.Down?
  {
    hide KeyBytes, Turns, Ordered, Running, Rows, Sessions, Terminal, IsMapped;
    var todo := w.process.todo;
    assert Planned(w.store.mappings, todo);
    if todo.actives != [] {
      var (session, turn) := todo.actives[0];
      assert IsMapped(w.store.mappings, todo.actives[0].0);
      PlannedTail(w.store.mappings, todo);
      if Terminal(w.hub, turn) {
        FinishRunning(config, w.store, w.hub, w.past.created, turn);
        FinishedRows(config, w.store, turn);
      }
    } else {
      assert IsMapped(w.store.mappings, todo.sessions[0]);
      PlannedTail(w.store.mappings, todo);
    }
  }

  lemma PlannedTail(mappings: map<Text, Session>, todo: Todo)
    requires Planned(mappings, todo)
    ensures todo.actives != [] ==> Planned(mappings, todo.(actives := todo.actives[1..]))
    ensures todo.sessions != [] ==> Planned(mappings, todo.(sessions := todo.sessions[1..]))
  {
  }

  // ---------------------------------------------------------------- every run

  /** Only a crash takes the process down: no operation violates a table constraint or misses a mapping. */
  lemma DoKeeps(config: Config, w: World, step: Step)
    requires Inv(config, w) && Enabled(w, step)
    ensures Inv(config, Do(config, w, step))
    ensures !w.process.Down? && !step.Crash? ==> !Do(config, w, step).process.Down?
  {
    hide KeyBytes, Turns, Ordered, Running, Rows, Sessions, Terminal, LaunchRound, Settling, Recovering, Finishing;
    match step {
      case HubFinishes(session, key) => HubFinishesKeeps(config, w, session, key);
      case Open(todo) => OpenKeeps(config, w, todo);
      case Recover => RecoverKeeps(config, w);
      case Receive(m) => ReceiveKeeps(config, w, m);
      case Map => MapKeeps(config, w);
      case Enqueue => EnqueueKeeps(config, w);
      case Launch => LaunchKeeps(config, w);
      case Settle => SettleKeeps(config, w);
      case TurnEvent(turn) => TurnEventKeeps(config, w, turn);
      case Attach(conversation, session) => AttachKeeps(config, w, conversation, session);
      case Acknowledge => AcknowledgeKeeps(config, w);
      case Crash =>
    }
  }

  lemma ReceiveKeeps(config: Config, w: World, m: Message)
    requires Inv(config, w) && w.process == Ready(NOTHING)
    ensures Inv(config, Receiving(config, w, m))
  {
    hide KeyBytes, Ordered, Rows, Turns, Running;
    if Acceptable(config, m) && m.conversation !in w.store.mappings {
      LaterSession(config, w.store, w.hub, w.past.created, w.hub.nextSession + 1);
    }
  }

  /** The Hub's turns do not depend on which Session it would open next. */
  lemma LaterSession(config: Config, s: Store, h: Hub, created: seq<Id>, next: Session)
    requires Turns(config, s.mappings, h, created) && Running(config, s, h, created)
    ensures var t := h.(nextSession := next);
            Turns(config, s.mappings, t, created) && Running(config, s, t, created)
  {
  }

  lemma AcknowledgeKeeps(config: Config, w: World)
    requires Inv(config, w) && w.process.Acknowledging?
    ensures Inv(config, Do(config, w, Acknowledge))
  {
    hide KeyBytes, Rows, Sessions, Turns, Running, Of, Fresh, Lane;
  }

  lemma {:induction false} RunKeeps(config: Config, w: World, steps: seq<Step>)
    requires Inv(config, w) && Legal(config, w, steps)
    ensures Inv(config, Run(config, w, steps))
    decreases |steps|
  {
    hide Inv, Do, Enabled;
    if steps != [] {
      DoKeeps(config, w, steps[0]);
      RunKeeps(config, Do(config, w, steps[0]), steps[1..]);
    }
  }

  lemma InitialInv(config: Config)
    ensures Inv(config, INITIAL)
  {
  }
}
