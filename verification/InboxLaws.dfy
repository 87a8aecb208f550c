/** What every atomic operation of the durable inbox keeps. */
module InboxLaws {
  import opened TurnKeys
  import opened InboxModel

  // ---------------------------------------------------------------- views

  function Of(log: seq<Id>, conversation: Text): seq<Id> {
    if log == [] then []
    else
      var last := log[|log| - 1];
      Of(log[..|log| - 1], conversation) + (if last.conversation == conversation then [last] else [])
  }

  /** The messages of a lane that have no turn yet, oldest first. */
  function Fresh(lane: seq<Row>, created: seq<Id>): seq<Id> {
    if lane == [] then []
    else
      (if IdOf(lane[0].message) in created then [] else [IdOf(lane[0].message)]) + Fresh(lane[1..], created)
  }

  function KeyOf(config: Config, mappings: map<Text, Session>, id: Id): (Session, seq<byte>)
    requires id.conversation in mappings
  {
    (mappings[id.conversation], Key(config, id))
  }

  // ---------------------------------------------------------------- invariants

  predicate Sessions(mappings: map<Text, Session>, nextSession: Session) {
    && (forall c, d :: c in mappings && d in mappings && mappings[c] == mappings[d] ==> c == d)
    && (forall c :: c in mappings ==> mappings[c] < nextSession)
  }

  predicate Rows(config: Config, s: Store) {
    && (forall i, j :: 0 <= i < j < |s.pending| ==> s.pending[i].id < s.pending[j].id)
    && (forall i, j :: 0 <= i < j < |s.pending| ==> IdOf(s.pending[i].message) != IdOf(s.pending[j].message))
    && (forall i :: 0 <= i < |s.pending| ==>
          && s.pending[i].id < s.nextRow
          && s.pending[i].message.conversation in s.mappings
          && Acceptable(config, s.pending[i].message))
  }

  /** The Hub's turns are exactly the created ones, each under the key of its own message. */
  ghost predicate Turns(config: Config, mappings: map<Text, Session>, h: Hub, created: seq<Id>) {
    && (forall k :: k in h.turns ==> h.turns[k].id < h.nextTurn)
    && (forall k, l :: k in h.turns && l in h.turns && h.turns[k].id == h.turns[l].id ==> k == l)
    && (forall k :: k in h.turns ==>
          exists id :: id in created && id.conversation in mappings && KeyOf(config, mappings, id) == k)
    && (forall id :: id in created ==> id.conversation in mappings && KeyOf(config, mappings, id) in h.turns)
  }

  predicate Distinct(log: seq<Id>) {
    forall i, j :: 0 <= i < j < |log| ==> log[i] != log[j]
  }

  /** Per conversation, the messages in the order of their first arrival are those with a turn, in the
      order the turns were created, then the pending ones without. */
  ghost predicate Ordered(pending: seq<Row>, p: Past) {
    && Distinct(p.created)
    && (forall c :: Of(p.arrivals, c) == Of(p.created, c) + Fresh(Lane(pending, c), p.created))
    && (forall id :: id in p.acknowledged ==> id in p.arrivals)
  }

  predicate IsHead(pending: seq<Row>, id: Id) {
    var lane := Lane(pending, id.conversation);
    lane != [] && IdOf(lane[0].message) == id
  }

  /** A running turn is the recorded active turn of its Session, or the Session has none recorded and
      the turn belongs to the oldest pending message of the conversation. */
  ghost predicate Running(config: Config, s: Store, h: Hub, created: seq<Id>) {
    && (forall id :: id in created && id.conversation in s.mappings ==>
          Watched(s.active, s.pending, h, id, KeyOf(config, s.mappings, id)))
    && (forall session :: session in s.active ==>
          exists k :: k in h.turns && k.0 == session && h.turns[k].id == s.active[session])
  }

  predicate Watched(active: map<Session, TurnId>, pending: seq<Row>, h: Hub, id: Id, k: (Session, seq<byte>)) {
    k in h.turns && h.turns[k].running ==>
      (k.0 in active && active[k.0] == h.turns[k].id) || (k.0 !in active && IsHead(pending, id))
  }

  predicate IsMapped(mappings: map<Text, Session>, session: Session) {
    exists c :: c in mappings && mappings[c] == session
  }

  /** What the process knows between two operations. */
  ghost predicate Holds(config: Config, w: World) {
    var mappings := w.store.mappings;
    match w.process
    case Down => true
    case Ready(todo) => Planned(mappings, todo)
    case Mapping(m, session) =>
      && Acceptable(config, m)
      && m.conversation !in mappings
      && session < w.hub.nextSession
      && !IsMapped(mappings, session)
    case Enqueuing(m, session) =>
      Acceptable(config, m) && m.conversation in mappings && mappings[m.conversation] == session
    case Acknowledging(m, session) =>
      m.conversation in mappings && mappings[m.conversation] == session && IdOf(m) in w.past.arrivals
    case Launching(session, todo) => Planned(mappings, todo) && IsMapped(mappings, session)
    case Answered(row, session, turn, todo) =>
      && Planned(mappings, todo)
      && row.message.conversation in mappings && mappings[row.message.conversation] == session
      && session !in w.store.active
      && IsRowHead(w.store.pending, row)
      && IdOf(row.message) in w.past.created
      && Answers(w.hub, KeyOf(config, mappings, IdOf(row.message)), turn)
  }

  predicate IsRowHead(pending: seq<Row>, row: Row) {
    var lane := Lane(pending, row.message.conversation);
    lane != [] && lane[0] == row
  }

  /** A turn as the Hub returned it: it may have become terminal since, never the other way round. */
  predicate Answers(h: Hub, k: (Session, seq<byte>), turn: Turn) {
    k in h.turns && h.turns[k].id == turn.id && (!turn.running ==> !h.turns[k].running)
  }

  predicate Planned(mappings: map<Text, Session>, todo: Todo) {
    && (forall i :: 0 <= i < |todo.actives| ==> IsMapped(mappings, todo.actives[i].0))
    && (forall i :: 0 <= i < |todo.sessions| ==> IsMapped(mappings, todo.sessions[i]))
  }

  ghost predicate Inv(config: Config, w: World) {
    && Sessions(w.store.mappings, w.hub.nextSession)
    && Rows(config, w.store)
    && Turns(config, w.store.mappings, w.hub, w.past.created)
    && Ordered(w.store.pending, w.past)
    && Running(config, w.store, w.hub, w.past.created)
    && Holds(config, w)
  }

  // ---------------------------------------------------------------- the lanes

  lemma {:induction false} LaneAppend(pending: seq<Row>, row: Row, c: Text)
    ensures Lane(pending + [row], c) == Lane(pending, c) + if row.message.conversation == c then [row] else []
  {
    if pending == [] {
      assert pending + [row] == [row];
      assert [row][1..] == [];
    } else {
      LaneAppend(pending[1..], row, c);
      assert (pending + [row])[1..] == pending[1..] + [row];
    }
  }

  lemma {:induction false} LaneMembers(pending: seq<Row>, c: Text)
    ensures forall i :: 0 <= i < |Lane(pending, c)| ==>
              Lane(pending, c)[i] in pending && Lane(pending, c)[i].message.conversation == c
    ensures forall i :: 0 <= i < |pending| && pending[i].message.conversation == c ==> pending[i] in Lane(pending, c)
  {
    if pending != [] {
      LaneMembers(pending[1..], c);
    }
  }

  lemma {:induction false} DeleteHas(pending: seq<Row>, id: nat)
    ensures forall row :: row in Delete(pending, id) <==> row in pending && row.id != id
  {
    if pending != [] {
      DeleteHas(pending[1..], id);
      assert pending == [pending[0]] + pending[1..];
    }
  }

  predicate Increasing(q: seq<Row>) {
    && (forall i, j :: 0 <= i < j < |q| ==> q[i].id < q[j].id)
    && (forall i, j :: 0 <= i < j < |q| ==> IdOf(q[i].message) != IdOf(q[j].message))
  }

  lemma IncreasingCons(first: Row, rest: seq<Row>)
    requires Increasing(rest)
    requires forall row :: row in rest ==> first.id < row.id && IdOf(row.message) != IdOf(first.message)
    ensures Increasing([first] + rest)
  {
  }

  lemma IncreasingTail(q: seq<Row>)
    requires q != [] && Increasing(q)
    ensures Increasing(q[1..])
    ensures forall row :: row in q[1..] ==> q[0].id < row.id && IdOf(row.message) != IdOf(q[0].message)
  {
  }

  lemma {:induction false} DeleteMembers(pending: seq<Row>, id: nat)
    requires Increasing(pending)
    ensures Increasing(Delete(pending, id))
    ensures forall row :: row in Delete(pending, id) <==> row in pending && row.id != id
  {
    hide Increasing, IdOf;
    DeleteHas(pending, id);
    if pending != [] {
      IncreasingTail(pending);
      DeleteMembers(pending[1..], id);
      IncreasingCons(pending[0], Delete(pending[1..], id));
      assert [] + Delete(pending[1..], id) == Delete(pending[1..], id);
    }
  }

  /** Deleting the oldest row of one conversation shortens that lane and leaves the others alone. */
  lemma {:induction false} LaneDelete(pending: seq<Row>, c: Text, d: Text)
    requires forall i, j :: 0 <= i < j < |pending| ==> pending[i].id < pending[j].id
    requires Lane(pending, c) != []
    ensures Lane(Delete(pending, Lane(pending, c)[0].id), d)
            == if d == c then Lane(pending, c)[1..] else Lane(pending, d)
  {
    var row := Lane(pending, c)[0];
    LaneMembers(pending, c);
    if pending[0].message.conversation == c {
      DeleteAbsent(pending[1..], row.id);
      assert Delete(pending, row.id) == pending[1..];
    } else {
      assert row in Lane(pending[1..], c);
      LaneMembers(pending[1..], c);
      LaneDelete(pending[1..], c, d);
      assert Delete(pending, row.id) == [pending[0]] + Delete(pending[1..], row.id);
      assert ([pending[0]] + Delete(pending[1..], row.id))[1..] == Delete(pending[1..], row.id);
    }
  }

  lemma {:induction false} DeleteAbsent(pending: seq<Row>, id: nat)
    requires forall i :: 0 <= i < |pending| ==> pending[i].id != id
    ensures Delete(pending, id) == pending
  {
    if pending != [] {
      DeleteAbsent(pending[1..], id);
    }
  }

  // ---------------------------------------------------------------- fresh messages

  lemma {:induction false} FreshAppend(lane: seq<Row>, row: Row, created: seq<Id>)
    ensures Fresh(lane + [row], created)
            == Fresh(lane, created) + if IdOf(row.message) in created then [] else [IdOf(row.message)]
  {
    if lane == [] {
      assert lane + [row] == [row];
      assert [row][1..] == [];
    } else {
      FreshAppend(lane[1..], row, created);
      assert (lane + [row])[1..] == lane[1..] + [row];
    }
  }

  lemma {:induction false} FreshUnaffected(lane: seq<Row>, created: seq<Id>, id: Id)
    requires forall i :: 0 <= i < |lane| ==> IdOf(lane[i].message) != id
    ensures Fresh(lane, created + [id]) == Fresh(lane, created)
  {
    if lane != [] {
      FreshUnaffected(lane[1..], created, id);
    }
  }

  lemma {:induction false} FreshMembers(lane: seq<Row>, created: seq<Id>)
    ensures forall id :: id in Fresh(lane, created) <==>
              id !in created && Stored(lane, id)
  {
    if lane != [] {
      FreshMembers(lane[1..], created);
      assert lane == [lane[0]] + lane[1..];
    }
  }

  lemma {:induction false} OfMembers(log: seq<Id>, c: Text)
    ensures forall id :: id in Of(log, c) <==> id in log && id.conversation == c
  {
    if log != [] {
      OfMembers(log[..|log| - 1], c);
      assert log == log[..|log| - 1] + [log[|log| - 1]];
    }
  }

  lemma OfAppend(log: seq<Id>, id: Id, c: Text)
    ensures Of(log + [id], c) == Of(log, c) + if id.conversation == c then [id] else []
  {
  }

  /** Two messages with the same Hub key are the same message. */
  lemma KeyOfInjective(config: Config, mappings: map<Text, Session>, id: Id, other: Id)
    requires id.conversation in mappings && other.conversation in mappings
    requires KeyOf(config, mappings, id) == KeyOf(config, mappings, other)
    ensures id == other
  {
    KeysInjective(config.consumer, id.conversation, id.externalId, config.consumer, other.conversation, other.externalId);
  }
}
