/**
 * The session-synchronisation protocol of the chess client, as pure state transitions.
 *
 * `State` gathers what the client's handlers change: the active game id, the engine's
 * move history (which stands for the `chess` object and hence the board), the messages
 * sent over the socket so far, and the games list shown to the user. Each transition
 * function below gives the state after one handler has run to completion; the class in
 * module ChessClient runs the same handlers imperatively and is proved to match them.
 */
module Protocol {
  import opened Wrappers
  import opened Rules

  /** A server-assigned game identifier. */
  type Id = string

  /** One game of a `gamesList` broadcast: its id and its number of moves. */
  datatype Summary = Summary(id: Id, moves: nat)

  /** Messages from the server, by their `type` field. */
  datatype Inbound =
    | GamesList(games: seq<Summary>)
    | Update(id: Id, moves: seq<string>)
    | GameCreated(id: Id)
    | Unrecognised(kind: string)

  /** Messages the client sends. */
  datatype Outbound =
    | CreateMsg
    | JoinMsg(id: Id)
    | MoveMsg(id: Id, move: string)

  /** A list item of the games list: its text, and the game its click joins. */
  datatype Entry = Entry(text: string, target: Id)

  datatype State = State(current: Option<Id>, history: seq<Move>, outbox: seq<Outbound>, games: seq<Entry>)

  /** At page load: no game, the start position, nothing sent, an empty list. */
  const Initial: State := State(None, [], [], [])

  /** JavaScript truthiness of `currentGameId`: `null` and the empty string are false. */
  predicate GameActive(current: Option<Id>)
  {
    current.Some? && current.value != ""
  }

  // ---- games-list labels ----

  function DigitChar(d: nat): char
    requires d < 10
  {
    ('0' as int + d) as char
  }

  predicate IsDigits(s: string)
  {
    forall i :: 0 <= i < |s| ==> '0' <= s[i] <= '9'
  }

  /** How JavaScript writes a count in a template string: its decimal digits. */
  function Decimal(n: nat): (s: string)
    ensures |s| >= 1 && IsDigits(s)
    decreases n
  {
    if n < 10 then [DigitChar(n)] else Decimal(n / 10) + [DigitChar(n % 10)]
  }

  /** Reads decimal digits back as a number. */
  function ParseDecimal(s: string): nat
    requires IsDigits(s)
    decreases |s|
  {
    if s == [] then 0 else 10 * ParseDecimal(s[..|s| - 1]) + (s[|s| - 1] as int - '0' as int)
  }

  /** The move count in a label can be read back exactly. */
  lemma {:induction false} DecimalRoundTrip(n: nat)
    ensures ParseDecimal(Decimal(n)) == n
    decreases n
  {
    var s := Decimal(n);
    if n >= 10 {
      assert s[..|s| - 1] == Decimal(n / 10);
      DecimalRoundTrip(n / 10);
    }
  }

  /** The text of a games-list item: `Game <id> - <moves> moves`. */
  function Label(g: Summary): string
  {
    "Game " + g.id + " - " + Decimal(g.moves) + " moves"
  }

  function EntryFor(g: Summary): Entry
  {
    Entry(Label(g), g.id)
  }

  /** The games list built from a broadcast: one entry per game, in the server's order. */
  function Entries(gs: seq<Summary>): (r: seq<Entry>)
    ensures |r| == |gs|
    ensures forall i :: 0 <= i < |gs| ==> r[i] == EntryFor(gs[i])
  {
    if gs == [] then [] else [EntryFor(gs[0])] + Entries(gs[1..])
  }

  // ---- transitions ----

  /** `joinGame(id)`. */
  function Joined(s: State, id: Id): State
  {
    s.(current := Some(id), outbox := s.outbox + [JoinMsg(id)])
  }

  /** The new-game button. */
  function Created(s: State): State
  {
    s.(outbox := s.outbox + [CreateMsg])
  }

  /** Clicking the `i`-th item of the games list. */
  function Selected(s: State, i: nat): State
    requires i < |s.games|
  {
    Joined(s, s.games[i].target)
  }

  /** Dropping the piece from square `from` on square `to`. */
  function Dropped(e: Engine, s: State, from: string, to: string): State
  {
    match e.play(s.history, Intent(from, to, Queen))
    case None => s
    case Some(m) =>
      var moved := s.(history := s.history + [m]);
      if GameActive(s.current) then moved.(outbox := s.outbox + [MoveMsg(s.current.value, m.san)]) else moved
  }

  /** `ws.onmessage`, dispatching on the message type. */
  function Received(e: Engine, s: State, msg: Inbound): State
  {
    match msg
    case GamesList(gs) => s.(games := Entries(gs))
    case Update(id, moves) => if s.current == Some(id) then s.(history := Replay(e, moves)) else s
    case GameCreated(id) => Joined(s, id)
    case Unrecognised(_) => s
  }

  // ---- properties ----

  /** An update for another game (or while no game is joined) changes nothing and sends nothing. */
  lemma StaleUpdateIgnored(e: Engine, s: State, id: Id, moves: seq<string>)
    requires s.current != Some(id)
    ensures Received(e, s, Update(id, moves)) == s
  {
  }

  /**
   * An update for the active game replaces the history with the server's moves replayed
   * from the start position, whatever the history was; nothing else changes.
   */
  lemma UpdateReplaces(e: Engine, s: State, id: Id, moves: seq<string>)
    requires s.current == Some(id)
    ensures Received(e, s, Update(id, moves)) == s.(history := Replay(e, moves))
    ensures forall h :: Received(e, s.(history := h), Update(id, moves)) == Received(e, s, Update(id, moves))
  {
  }

  /** Applying the same update twice gives the same state as applying it once. */
  lemma UpdateIdempotent(e: Engine, s: State, msg: Inbound)
    requires msg.Update?
    ensures Received(e, Received(e, s, msg), msg) == Received(e, s, msg)
  {
  }

  /**
   * An optimistic local move does not survive the next update for the active game:
   * the history is then exactly the server's, while the move message stays sent.
   */
  lemma OptimisticMoveOverwritten(e: Engine, s: State, from: string, to: string, id: Id, moves: seq<string>)
    requires s.current == Some(id)
    ensures Received(e, Dropped(e, s, from, to), Update(id, moves)).history == Replay(e, moves)
    ensures Received(e, Dropped(e, s, from, to), Update(id, moves)).outbox == Dropped(e, s, from, to).outbox
  {
  }

  /**
   * An update that confirms the local history (the server echoes the notation of the moves
   * played, and the engine replays them to the same moves) leaves the state as it was.
   */
  lemma ConfirmingUpdateChangesNothing(e: Engine, s: State, id: Id)
    requires s.current == Some(id) && Recorded(e, s.history)
    ensures Received(e, s, Update(id, Sans(s.history))) == s
  {
    ReplaySans(e, s.history);
  }

  /**
   * After switching to game `b`, a late update for the previously joined game `a` does
   * nothing: the state stays as the join left it.
   */
  lemma SwitchDiscardsOld(e: Engine, s: State, a: Id, b: Id, moves: seq<string>)
    requires a != b
    ensures Received(e, Joined(s, b), Update(a, moves)) == Joined(s, b)
  {
  }

  /**
   * A join is blind: it keeps the board it found, and the first update for the joined game
   * then replaces that board with the server's history.
   */
  lemma BlindJoin(e: Engine, s: State, id: Id, moves: seq<string>)
    ensures Joined(s, id).history == s.history
    ensures Received(e, Joined(s, id), Update(id, moves)).history == Replay(e, moves)
    ensures Received(e, Joined(s, id), Update(id, moves)).current == Some(id)
  {
  }

  /** A `gameCreated` message has exactly the effect of `joinGame` on its id. */
  lemma GameCreatedJoins(e: Engine, s: State, id: Id)
    ensures Received(e, s, GameCreated(id)) == Joined(s, id)
  {
  }

  /**
   * Pressing the new-game button and then being told the new game's id joins that game,
   * keeps the board, and leaves exactly `create` and `join` sent, in that order.
   */
  lemma CreateThenCreatedJoins(e: Engine, s: State, id: Id)
    ensures Received(e, Created(s), GameCreated(id))
         == Joined(s, id).(outbox := s.outbox + [CreateMsg, JoinMsg(id)])
  {
  }

  /**
   * A drop sends a message exactly when the engine accepts the move and a game is active;
   * the message carries the active id and the accepted move's notation. A rejected move
   * changes nothing.
   */
  lemma DropSendsIff(e: Engine, s: State, from: string, to: string)
    ensures var m := e.play(s.history, Intent(from, to, Queen));
      (Dropped(e, s, from, to).outbox != s.outbox <==> m.Some? && GameActive(s.current)) &&
      (m.Some? && GameActive(s.current) ==>
         Dropped(e, s, from, to).outbox == s.outbox + [MoveMsg(s.current.value, m.value.san)]) &&
      (m.None? ==> Dropped(e, s, from, to) == s)
  {
  }

  /**
   * An accepted drop always extends the local history, even with no game active;
   * a drop never changes the active game or the games list.
   */
  lemma DropMovesLocally(e: Engine, s: State, from: string, to: string)
    ensures var m := e.play(s.history, Intent(from, to, Queen));
      m.Some? ==> Dropped(e, s, from, to).history == s.history + [m.value]
    ensures Dropped(e, s, from, to).current == s.current && Dropped(e, s, from, to).games == s.games
  {
  }

  /**
   * A `gamesList` broadcast replaces the list wholesale: one entry per game, in order, with
   * the game's id and move count in its label; nothing else changes.
   */
  lemma GamesListReplaces(e: Engine, s: State, gs: seq<Summary>)
    ensures var r := Received(e, s, GamesList(gs));
      |r.games| == |gs| &&
      (forall i :: 0 <= i < |gs| ==>
         r.games[i].target == gs[i].id && r.games[i].text == "Game " + gs[i].id + " - " + Decimal(gs[i].moves) + " moves") &&
      r.(games := s.games) == s
  {
  }

  /** Clicking an entry of a broadcast list joins the game that entry was made for. */
  lemma SelectJoinsListed(e: Engine, s: State, gs: seq<Summary>, i: nat)
    requires i < |gs|
    ensures var r := Received(e, s, GamesList(gs));
      i < |r.games| && Selected(r, i) == Joined(r, gs[i].id)
  {
  }

  /** No handler takes back a message once sent. */
  lemma OutboxOnlyGrows(e: Engine, s: State, msg: Inbound, from: string, to: string)
    ensures s.outbox <= Received(e, s, msg).outbox
    ensures s.outbox <= Dropped(e, s, from, to).outbox
    ensures s.outbox <= Created(s).outbox
    ensures forall id :: s.outbox <= Joined(s, id).outbox
    ensures forall i :: 0 <= i < |s.games| ==> s.outbox <= Selected(s, i).outbox
  {
  }

  /** Create, be told the new id, and receive its empty history: joined on an empty board. */
  lemma CreateThenJoinScenario(e: Engine)
    ensures Received(e, Received(e, Created(Initial), GameCreated("G1")), Update("G1", []))
         == State(Some("G1"), [], [CreateMsg, JoinMsg("G1")], [])
  {
  }

  /** A one-game broadcast while idle shows one entry; clicking it sends `join` for that game. */
  lemma ListThenSelectScenario(e: Engine)
    ensures var r := Received(e, Initial, GamesList([Summary("G2", 5)]));
      r.games == [Entry("Game G2 - 5 moves", "G2")] &&
      Selected(r, 0).outbox == [JoinMsg("G2")] && Selected(r, 0).current == Some("G2")
  {
    assert Decimal(5) == "5";
    assert Label(Summary("G2", 5)) == "Game G2 - 5 moves";
  }
}
