/**
 * The page script's handlers as methods of one object. Its fields are the script's
 * module-level state: `currentGameId`, the `chess` object (its move history), the games
 * list element (its items), and the socket, of which only what was sent is kept.
 * Every handler is proved to leave the state its transition function in Protocol gives.
 */
module ChessClient {
  import opened Wrappers
  import opened Rules
  import opened Protocol

  class Client {
    const engine: Engine
    var currentGameId: Option<Id>
    var history: seq<Move>
    var outbox: seq<Outbound>
    var games: seq<Entry>

    function State(): Protocol.State
      reads this
    {
      Protocol.State(currentGameId, history, outbox, games)
    }

    /** Page load: a fresh engine, no game, nothing sent yet. */
    constructor (engine: Engine)
      ensures this.engine == engine
      ensures State() == Initial
    {
      this.engine := engine;
      currentGameId := None;
      history := [];
      outbox := [];
      games := [];
    }

    /** `joinGame(id)`: remember the game and ask the server for it; the board is kept. */
    method JoinGame(id: Id)
      modifies this
      ensures State() == Joined(old(State()), id)
      ensures currentGameId == Some(id) && outbox == old(outbox) + [JoinMsg(id)]
      ensures history == old(history) && games == old(games)
    {
      currentGameId := Some(id);
      outbox := outbox + [JoinMsg(id)];
    }

    /** The new-game button: one `create` request. */
    method OnNewGame()
      modifies this
      ensures State() == Created(old(State()))
    {
      outbox := outbox + [CreateMsg];
    }

    /** A click on the `i`-th item of the games list. */
    method OnSelect(i: nat)
      requires i < |games|
      modifies this
      ensures State() == Selected(old(State()), i)
    {
      JoinGame(games[i].target);
    }

    /**
     * A piece dragged from `from` and dropped on `to`: the engine plays the move (promoting
     * to a queen) and, if it accepted and a game is active, the move is sent.
     */
    method OnDrop(from: string, to: string)
      modifies this
      ensures State() == Dropped(engine, old(State()), from, to)
    {
      var move := engine.play(history, Intent(from, to, Queen));
      if move.Some? {
        history := history + [move.value];
      }
      if move.Some? && GameActive(currentGameId) {
        outbox := outbox + [MoveMsg(currentGameId.value, move.value.san)];
      }
    }

    /** `ws.onmessage`: the three independent checks of the message type. */
    method OnMessage(msg: Inbound)
      modifies this
      ensures State() == Received(engine, old(State()), msg)
    {
      if msg.GamesList? {
        games := [];
        var i := 0;
        while i < |msg.games|
          invariant 0 <= i <= |msg.games|
          invariant |games| == i
          invariant forall k :: 0 <= k < i ==> games[k] == EntryFor(msg.games[k])
          invariant currentGameId == old(currentGameId) && history == old(history) && outbox == old(outbox)
        {
          games := games + [EntryFor(msg.games[i])];
          i := i + 1;
        }
        assert games == Entries(msg.games);
      }

      if msg.Update? && currentGameId == Some(msg.id) {
        history := [];
        var i := 0;
        while i < |msg.moves|
          invariant 0 <= i <= |msg.moves|
          invariant ReplayFrom(engine, history, msg.moves[i..]) == Replay(engine, msg.moves)
          invariant currentGameId == old(currentGameId) && outbox == old(outbox) && games == old(games)
        {
          assert msg.moves[i..][1..] == msg.moves[i + 1..];
          var m := engine.playSan(history, msg.moves[i]);
          if m.Some? {
            history := history + [m.value];
          }
          i := i + 1;
        }
        assert msg.moves[i..] == [];
      }

      if msg.GameCreated? {
        JoinGame(msg.id);
      }
    }
  }
}
