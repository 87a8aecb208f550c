/** The durable inbox of a Channel: messages from a platform are stored, acknowledged and handed to the
    Hub as idempotent turns, one running turn per Session, across crashes and redeliveries.

    `World` is everything durable (the Channel's SQLite tables, the Hub's turns) plus where the process
    is between two atomic operations; `Do` is one such operation, a Hub-side change, or a crash. */
module InboxModel {
  import opened TurnKeys

  type Session = nat
  type TurnId = nat

  datatype Message = Message(externalId: Text, conversation: Text, text: Text, metadata: Text)

  /** A message's identity on its platform. */
  datatype Id = Id(conversation: Text, externalId: Text)

  datatype Row = Row(id: nat, message: Message)

  /** The tables of the mapping store; `pending` is ordered by its AUTOINCREMENT id. */
  datatype Store = Store(mappings: map<Text, Session>, pending: seq<Row>, nextRow: nat, active: map<Session, TurnId>)

  datatype Turn = Turn(id: TurnId, running: bool)

  /** The Hub, as far as this Channel can see it: turns by Session and idempotency key. The key is the
      hashed bytes themselves, the hash being collision free. */
  datatype Hub = Hub(turns: map<(Session, seq<byte>), Turn>, nextTurn: TurnId, nextSession: Session)

  /** `valid` is the deterministic validation of a turn's input shared by the Channel and the Hub. */
  datatype Config = Config(consumer: Text, valid: Message -> bool)

  /** What opening still has to look at: the recorded active turns, then every mapped Session. */
  datatype Todo = Todo(actives: seq<(Session, TurnId)>, sessions: seq<Session>)

  datatype Process =
    | Down
    | Ready(todo: Todo)
    | Mapping(message: Message, session: Session)
    | Enqueuing(message: Message, session: Session)
    | Acknowledging(message: Message, session: Session)
    | Launching(session: Session, todo: Todo)
    | Answered(row: Row, session: Session, turn: Turn, todo: Todo)

  /** History: every message when it was first enqueued, the acknowledged ones, and every turn creation. */
  datatype Past = Past(arrivals: seq<Id>, acknowledged: set<Id>, created: seq<Id>)

  datatype World = World(store: Store, hub: Hub, process: Process, past: Past)

  datatype Step =
    | HubFinishes(session: Session, key: seq<byte>)
    | Crash
    | Open(todo: Todo)
    | Recover
    | Receive(message: Message)
    | Map
    | Enqueue
    | Acknowledge
    | Launch
    | Settle
    | TurnEvent(turn: TurnId)
    | Attach(conversation: Text, session: Session)

  const MAX_EXTERNAL_ID_BYTES: nat := 256
  const NOTHING := Todo([], [])
  const INITIAL := World(Store(map[], [], 1, map[]), Hub(map[], 0, 0), Down, Past([], {}, []))

  function IdOf(m: Message): Id {
    Id(m.conversation, m.externalId)
  }

  predicate Acceptable(config: Config, m: Message) {
    0 < |m.externalId| <= MAX_EXTERNAL_ID_BYTES && config.valid(m)
  }

  function Key(config: Config, id: Id): seq<byte> {
    KeyBytes(config.consumer, id.conversation, id.externalId)
  }

  // ---------------------------------------------------------------- the tables

  /** The pending rows of one conversation, oldest first. */
  function Lane(pending: seq<Row>, conversation: Text): seq<Row> {
    if pending == [] then []
    else (if pending[0].message.conversation == conversation then [pending[0]] else []) + Lane(pending[1..], conversation)
  }

  function Delete(pending: seq<Row>, id: nat): seq<Row> {
    if pending == [] then []
    else (if pending[0].id == id then [] else [pending[0]]) + Delete(pending[1..], id)
  }

  predicate Stored(pending: seq<Row>, id: Id) {
    exists i :: 0 <= i < |pending| && IdOf(pending[i].message) == id
  }

  /** `INSERT OR IGNORE` under `UNIQUE (conversation, external_id)`. */
  function Enqueued(s: Store, m: Message): Store {
    if Stored(s.pending, IdOf(m)) then s
    else s.(pending := s.pending + [Row(s.nextRow, m)], nextRow := s.nextRow + 1)
  }

  function Discarded(s: Store, row: nat): Store {
    s.(pending := Delete(s.pending, row))
  }

  function Started(s: Store, row: nat, session: Session, turn: TurnId): Store {
    s.(active := s.active[session := turn], pending := Delete(s.pending, row))
  }

  /** The Session whose recorded active turn is `turn`; both columns of the table are unique. */
  predicate IsActive(s: Store, session: Session, turn: TurnId) {
    session in s.active && s.active[session] == turn
  }

  function Finished(s: Store, turn: TurnId): Store {
    s.(active := map session | session in s.active && s.active[session] != turn :: s.active[session])
  }

  // ---------------------------------------------------------------- one atomic operation

  predicate Terminal(hub: Hub, turn: TurnId) {
    exists k :: k in hub.turns && hub.turns[k].id == turn && !hub.turns[k].running
  }

  /** Opening lists the two tables it recovers from, in whatever order the database returns rows. */
  ghost predicate Lists(todo: Todo, s: Store) {
    && (forall session :: session in s.active ==> (session, s.active[session]) in todo.actives)
    && (forall i :: 0 <= i < |todo.actives| ==> IsActive(s, todo.actives[i].0, todo.actives[i].1))
    && (forall c :: c in s.mappings ==> s.mappings[c] in todo.sessions)
    && (forall i :: 0 <= i < |todo.sessions| ==> todo.sessions[i] in s.mappings.Values)
  }

  ghost predicate Enabled(w: World, step: Step) {
    match step
    case HubFinishes(session, key) => (session, key) in w.hub.turns
    case Crash => true
    case Open(todo) => w.process.Down? && Lists(todo, w.store)
    case Recover => w.process.Ready? && w.process.todo != NOTHING
    case Receive(_) => w.process == Ready(NOTHING)
    case Map => w.process.Mapping?
    case Enqueue => w.process.Enqueuing?
    case Acknowledge => w.process.Acknowledging?
    case Launch => w.process.Launching?
    case Settle => w.process.Answered?
    case TurnEvent(turn) => w.process == Ready(NOTHING) && Terminal(w.hub, turn)
    case Attach(_, _) => w.process == Ready(NOTHING)
  }

  /** `handle_inbound` up to the point where the conversation has a Session. An unacceptable message is
      rejected at once and leaves no trace here. */
  function Receiving(config: Config, w: World, m: Message): World {
    if !Acceptable(config, m) then w
    else if m.conversation in w.store.mappings then
      w.(process := Enqueuing(m, w.store.mappings[m.conversation]))
    else
      w.(hub := w.hub.(nextSession := w.hub.nextSession + 1), process := Mapping(m, w.hub.nextSession))
  }

  /** `insert`: a conversation or Session that is already mapped violates the table and ends the process. */
  function Mapped(w: World): World
    requires w.process.Mapping?
  {
    var m, session := w.process.message, w.process.session;
    if m.conversation in w.store.mappings || session in w.store.mappings.Values then w.(process := Down)
    else
      w.(store := w.store.(mappings := w.store.mappings[m.conversation := session]), process := Enqueuing(m, session))
  }

  /** `attach`: any Session, however old, is mapped to a conversation, or the call fails on a table constraint
      and changes nothing. The Hub gives its identifier to no other Session. */
  function Attaching(w: World, conversation: Text, session: Session): World {
    if conversation in w.store.mappings || session in w.store.mappings.Values then w
    else
      w.(store := w.store.(mappings := w.store.mappings[conversation := session]),
         hub := w.hub.(nextSession := if session < w.hub.nextSession then w.hub.nextSession else session + 1))
  }

  function Enqueueing(w: World): World
    requires w.process.Enqueuing?
  {
    var m := w.process.message;
    w.(store := Enqueued(w.store, m),
       process := Acknowledging(m, w.process.session),
       past := if IdOf(m) in w.past.arrivals then w.past else w.past.(arrivals := w.past.arrivals + [IdOf(m)]))
  }

  /** The Hub's idempotent start: the turn of a known key, or a new running turn. */
  function Ask(config: Config, w: World, session: Session, row: Row): World
    requires w.process.Launching?
  {
    var k := (session, Key(config, IdOf(row.message)));
    if k in w.hub.turns then w.(process := Answered(row, session, w.hub.turns[k], w.process.todo))
    else
      var turn := Turn(w.hub.nextTurn, true);
      World(w.store, w.hub.(turns := w.hub.turns[k := turn], nextTurn := w.hub.nextTurn + 1),
            Answered(row, session, turn, w.process.todo),
            w.past.(created := w.past.created + [IdOf(row.message)]))
  }

  /** One round of the loop in `launch_next`, up to the Hub's answer. */
  ghost function LaunchRound(config: Config, w: World): World
    requires w.process.Launching?
  {
    var session, todo := w.process.session, w.process.todo;
    if session in w.store.active then w.(process := Ready(todo))
    else if forall c :: c in w.store.mappings ==> w.store.mappings[c] != session then w.(process := Down)
    else
      var c :| c in w.store.mappings && w.store.mappings[c] == session;
      var lane := Lane(w.store.pending, c);
      if lane == [] then w.(process := Ready(todo))
      else if !Acceptable(config, lane[0].message) then w.(store := Discarded(w.store, lane[0].id))
      else Ask(config, w, session, lane[0])
  }

  /** What `launch_next` does with the Hub's answer: a terminal turn's message is dropped and the loop
      goes on, a running turn is recorded and ends it. A violated table constraint ends the process. */
  function Settling(w: World): World
    requires w.process.Answered?
  {
    var p := w.process;
    if !p.turn.running then w.(store := Discarded(w.store, p.row.id), process := Launching(p.session, p.todo))
    else if p.session in w.store.active || p.turn.id in w.store.active.Values then w.(process := Down)
    else w.(store := Started(w.store, p.row.id, p.session, p.turn.id), process := Ready(p.todo))
  }

  /** `finish_turn` followed by the launch of the freed Session, if one was freed. */
  ghost function Finishing(w: World, turn: TurnId, todo: Todo): World {
    var store := Finished(w.store, turn);
    if exists session :: IsActive(w.store, session, turn) then
      var session :| IsActive(w.store, session, turn);
      w.(store := store, process := Launching(session, todo))
    else w.(store := store, process := Ready(todo))
  }

  /** One item of the recovery loops of `open`. */
  ghost function Recovering(w: World): World
    requires w.process.Ready? && w.process.todo != NOTHING
  {
    var todo := w.process.todo;
    if todo.actives != [] then
      var rest := todo.(actives := todo.actives[1..]);
      var (session, turn) := todo.actives[0];
      if Terminal(w.hub, turn) then
        w.(store := Finished(w.store, turn), process := Launching(session, rest))
      else w.(process := Ready(rest))
    else w.(process := Launching(todo.sessions[0], todo.(sessions := todo.sessions[1..])))
  }

  ghost function Do(config: Config, w: World, step: Step): World
    requires Enabled(w, step)
  {
    match step
    case HubFinishes(session, key) =>
      var turn := w.hub.turns[(session, key)];
      w.(hub := w.hub.(turns := w.hub.turns[(session, key) := turn.(running := false)]))
    case Crash => w.(process := Down)
    case Open(todo) => w.(process := Ready(todo))
    case Recover => Recovering(w)
    case Receive(m) => Receiving(config, w, m)
    case Map => Mapped(w)
    case Enqueue => Enqueueing(w)
    case Acknowledge =>
      var m := w.process.message;
      w.(past := w.past.(acknowledged := w.past.acknowledged + {IdOf(m)}),
         process := Launching(w.process.session, NOTHING))
    case Launch => LaunchRound(config, w)
    case Settle => Settling(w)
    case TurnEvent(turn) => Finishing(w, turn, NOTHING)
    case Attach(conversation, session) => Attaching(w, conversation, session)
  }

  ghost predicate Legal(config: Config, w: World, steps: seq<Step>)
    decreases |steps|
  {
    steps == [] || (Enabled(w, steps[0]) && Legal(config, Do(config, w, steps[0]), steps[1..]))
  }

  ghost function Run(config: Config, w: World, steps: seq<Step>): World
    requires Legal(config, w, steps)
    decreases |steps|
  {
    if steps == [] then w else Run(config, Do(config, w, steps[0]), steps[1..])
  }
}
