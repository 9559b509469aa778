/**
 * The chess rules engine (the chess.js library) seen from the client.
 *
 * The engine itself is foreign code: its legality rules and its notation are not modelled.
 * What the client relies on is captured by an `Engine` value holding two functions, and the
 * engine's mutable history (the `chess` object) is a sequence of accepted moves:
 *  - `play` is `chess.move({from, to, promotion})`: it accepts or rejects a move given by
 *    its squares, knowing the history so far;
 *  - `playSan` is `chess.move(san, {sloppy: true})`: the same for a move in notation.
 * An accepted move is appended to the history; a rejected one leaves it as it was.
 */
module Rules {
  import opened Wrappers

  /** A move as the engine reports it; `san` is its standard algebraic notation. */
  datatype Move = Move(from: string, to: string, san: string)

  /** A move request by squares, with the piece to promote to. */
  datatype Intent = Intent(from: string, to: string, promotion: char)

  datatype Engine = Engine(
    play: (seq<Move>, Intent) -> Option<Move>,
    playSan: (seq<Move>, string) -> Option<Move>)

  /** The promotion the drop handler always asks for. */
  const Queen: char := 'q'

  /** One `chess.move(san, {sloppy: true})` on history `h`: a rejected move is skipped. */
  function Step(e: Engine, h: seq<Move>, san: string): (r: seq<Move>)
    ensures h <= r && |r| <= |h| + 1
  {
    match e.playSan(h, san)
    case Some(m) => h + [m]
    case None => h
  }

  /** Plays the moves `ms` one after another on history `h`, skipping the rejected ones. */
  function ReplayFrom(e: Engine, h: seq<Move>, ms: seq<string>): (r: seq<Move>)
    ensures h <= r && |r| <= |h| + |ms|
    decreases |ms|
  {
    if ms == [] then h else ReplayFrom(e, Step(e, h, ms[0]), ms[1..])
  }

  /** `chess.reset()` followed by playing `ms`: the history rebuilt from the start position. */
  function Replay(e: Engine, ms: seq<string>): seq<Move>
  {
    ReplayFrom(e, [], ms)
  }

  /** The notation of each move of a history, in order. */
  function Sans(h: seq<Move>): (r: seq<string>)
    ensures |r| == |h|
  {
    seq(|h|, i requires 0 <= i < |h| => h[i].san)
  }

  /**
   * The engine reproduces history `h` from its own notation: replaying the SAN of each
   * recorded move on the moves before it gives back exactly that move.
   */
  predicate Recorded(e: Engine, h: seq<Move>)
  {
    forall i :: 0 <= i < |h| ==> e.playSan(h[..i], h[i].san) == Some(h[i])
  }

  /** Replaying the rest of a recorded history's notation after its first `k` moves restores it. */
  lemma {:induction false} ReplaySansFrom(e: Engine, h: seq<Move>, k: nat)
    requires Recorded(e, h) && k <= |h|
    ensures ReplayFrom(e, h[..k], Sans(h)[k..]) == h
    decreases |h| - k
  {
    if k == |h| {
      assert h[..k] == h;
      assert Sans(h)[k..] == [];
    } else {
      var rest := Sans(h)[k..];
      assert rest[0] == h[k].san;
      assert rest[1..] == Sans(h)[k + 1..];
      assert e.playSan(h[..k], h[k].san) == Some(h[k]);
      assert Step(e, h[..k], rest[0]) == h[..k + 1];
      ReplaySansFrom(e, h, k + 1);
    }
  }

  /** Round trip: replaying the notation of a recorded history from the start rebuilds it. */
  lemma ReplaySans(e: Engine, h: seq<Move>)
    requires Recorded(e, h)
    ensures Replay(e, Sans(h)) == h
  {
    ReplaySansFrom(e, h, 0);
    assert h[..0] == [] && Sans(h)[0..] == Sans(h);
  }

  /** Replaying two batches one after the other is replaying them together. */
  lemma {:induction false} ReplayAppend(e: Engine, h: seq<Move>, ms1: seq<string>, ms2: seq<string>)
    ensures ReplayFrom(e, h, ms1 + ms2) == ReplayFrom(e, ReplayFrom(e, h, ms1), ms2)
    decreases |ms1|
  {
    if ms1 == [] {
      assert ms1 + ms2 == ms2;
    } else {
      assert (ms1 + ms2)[0] == ms1[0];
      assert (ms1 + ms2)[1..] == ms1[1..] + ms2;
      ReplayAppend(e, Step(e, h, ms1[0]), ms1[1..], ms2);
    }
  }

  /** A move the engine rejects is skipped: the replay goes on as if it were not there. */
  lemma ReplaySkipsRejected(e: Engine, h: seq<Move>, m: string, ms: seq<string>)
    requires e.playSan(h, m).None?
    ensures ReplayFrom(e, h, [m] + ms) == ReplayFrom(e, h, ms)
  {
  }

  /** When the engine accepts each move of this replay in turn, every move is kept. */
  lemma {:induction false} ReplayKeepsAccepted(e: Engine, h: seq<Move>, ms: seq<string>)
    requires forall i :: 0 <= i < |ms| ==> e.playSan(ReplayFrom(e, h, ms[..i]), ms[i]).Some?
    ensures |ReplayFrom(e, h, ms)| == |h| + |ms|
    decreases |ms|
  {
    if ms != [] {
      assert ms[..0] == [];
      assert e.playSan(h, ms[0]).Some?;
      var h' := Step(e, h, ms[0]);
      forall i | 0 <= i < |ms[1..]|
        ensures e.playSan(ReplayFrom(e, h', ms[1..][..i]), ms[1..][i]).Some?
      {
        assert ms[..i + 1][0] == ms[0] && ms[..i + 1][1..] == ms[1..][..i];
        assert ReplayFrom(e, h, ms[..i + 1]) == ReplayFrom(e, h', ms[1..][..i]);
        assert e.playSan(ReplayFrom(e, h, ms[..i + 1]), ms[i + 1]).Some?;
      }
      ReplayKeepsAccepted(e, h', ms[1..]);
    }
  }
}
