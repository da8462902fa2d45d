/** The heartbeat loop of `watch`: it checks `need_mine` and the observed game
    before each heartbeat, and the listener's messages are handled while it
    awaits `send_watch` and the 15-second sleep. */
module Watching {
  import opened Entities
  import opened Listener

  /** How the loop ended: `need_mine` found false, "Streamer changed game"
      raised, or still sleeping when the given schedule of messages ends. */
  datatype WatchOutcome = Finished | ChangedGame | StillWatching

  datatype WatchResult = WatchResult(session: Session, outcome: WatchOutcome, sent: seq<Action>)

  /** The abort condition: a truthy observed game that is not the game of the
      channel being watched. */
  predicate GameChanged(s: Session)
  {
    IsTruthy(s.currentGame) && s.currentChannel.Some? && s.currentGame.value != s.currentChannel.value.game.id
  }

  /** The check before a heartbeat passes. */
  predicate Continues(s: Session)
  {
    s.needMine && !GameChanged(s)
  }

  /** The loop from a check onwards; `beats[k]` are the messages handled while
      the loop awaits after its k-th remaining heartbeat. */
  function WatchLoop(s: Session, userId: string, streamer: Channel, beats: seq<seq<Data>>): WatchResult
    decreases |beats|
  {
    if !s.needMine then WatchResult(s.(needMine := true), Finished, [])
    else if GameChanged(s) then WatchResult(s, ChangedGame, [])
    else if beats == [] then WatchResult(s, StillWatching, [SendWatch(streamer.nickname)])
    else
      var r := WatchLoop(Deliver(s, userId, beats[0]), userId, streamer, beats[1..]);
      r.(sent := [SendWatch(streamer.nickname)] + r.sent)
  }

  /** The session at the k-th check: after the messages of the first k await
      windows. */
  function After(s: Session, userId: string, beats: seq<seq<Data>>, k: nat): Session
    requires k <= |beats|
  {
    if k == 0 then s else Deliver(After(s, userId, beats, k - 1), userId, beats[k - 1])
  }

  lemma {:induction false} AfterShift(s: Session, userId: string, beats: seq<seq<Data>>, k: nat)
    requires k < |beats|
    ensures After(s, userId, beats, k + 1) == After(Deliver(s, userId, beats[0]), userId, beats[1..], k)
  {
    if k > 0 {
      AfterShift(s, userId, beats, k - 1);
      assert beats[1..][k - 1] == beats[k];
    }
  }

  /** The loop sends one heartbeat per passing check and leaves at the first
      check that fails: heartbeat k follows a check with `need_mine` true and
      the game unchanged; a loop that ends normally found `need_mine` false
      and resets it to true; an abort found the game changed while
      `need_mine` was still true; every heartbeat goes to the streamer. */
  lemma {:induction false} WatchLoopTrace(s: Session, userId: string, streamer: Channel, beats: seq<seq<Data>>)
    ensures var r := WatchLoop(s, userId, streamer, beats);
      && |r.sent| <= |beats| + 1
      && (forall a :: a in r.sent ==> a == SendWatch(streamer.nickname))
      && (forall k :: 0 <= k < |r.sent| && k <= |beats| ==> Continues(After(s, userId, beats, k)))
      && (r.outcome == StillWatching <==> |r.sent| == |beats| + 1)
      && (r.outcome == StillWatching ==> r.session == After(s, userId, beats, |beats|))
      && (r.outcome == Finished ==>
            (&& |r.sent| <= |beats|
             && !After(s, userId, beats, |r.sent|).needMine
             && r.session == After(s, userId, beats, |r.sent|).(needMine := true)))
      && (r.outcome == ChangedGame ==>
            (&& |r.sent| <= |beats|
             && After(s, userId, beats, |r.sent|).needMine
             && GameChanged(After(s, userId, beats, |r.sent|))
             && r.session == After(s, userId, beats, |r.sent|)))
    decreases |beats|
  {
    var r := WatchLoop(s, userId, streamer, beats);
    if s.needMine && !GameChanged(s) && beats != [] {
      var s' := Deliver(s, userId, beats[0]);
      var r' := WatchLoop(s', userId, streamer, beats[1..]);
      WatchLoopTrace(s', userId, streamer, beats[1..]);
      assert r.sent == [SendWatch(streamer.nickname)] + r'.sent;
      forall k | 0 <= k < |r'.sent| && k <= |beats[1..]|
        ensures After(s, userId, beats, k + 1) == After(s', userId, beats[1..], k)
      {
        AfterShift(s, userId, beats, k);
      }
      forall k | 0 <= k < |r.sent| && k <= |beats|
        ensures Continues(After(s, userId, beats, k))
      {
        if k > 0 {
          assert After(s, userId, beats, k) == After(s', userId, beats[1..], k - 1);
        }
      }
      if r.outcome != StillWatching {
        AfterShift(s, userId, beats, |r'.sent|);
      } else {
        AfterShift(s, userId, beats, |beats| - 1);
      }
    }
  }

  /** Within one heartbeat period: when a reminder in the await window after a
      heartbeat clears `need_mine`, the next check ends the loop, with no
      further heartbeat, and `need_mine` is true again. */
  lemma WatchEndsAfterReminder(s: Session, userId: string, streamer: Channel, batch: seq<Data>, rest: seq<seq<Data>>)
    requires Continues(s) && !Deliver(s, userId, batch).needMine
    ensures WatchLoop(s, userId, streamer, [batch] + rest)
      == WatchResult(Deliver(s, userId, batch).(needMine := true), Finished, [SendWatch(streamer.nickname)])
  {
    assert ([batch] + rest)[0] == batch;
    assert ([batch] + rest)[1..] == rest;
  }

  /** A game change seen at a check aborts the loop at once, with no heartbeat
      and no waiting, unless `need_mine` is already false. */
  lemma WatchAbortsOnGameChange(s: Session, userId: string, streamer: Channel, beats: seq<seq<Data>>)
    requires s.needMine && GameChanged(s)
    ensures WatchLoop(s, userId, streamer, beats) == WatchResult(s, ChangedGame, [])
  {
  }

  /** `count` heartbeats to `nickname`. */
  function Heartbeats(nickname: string, count: nat): (h: seq<Action>)
    ensures |h| == count && forall a :: a in h ==> a == SendWatch(nickname)
  {
    if count == 0 then [] else [SendWatch(nickname)] + Heartbeats(nickname, count - 1)
  }

  /** After the listener has died nothing can clear `need_mine` or change the
      game, so the loop never ends: it sends a heartbeat after every window. */
  lemma {:induction false} StoppedListenerWatchesOn(s: Session, userId: string, streamer: Channel, beats: seq<seq<Data>>)
    requires !s.listening && Continues(s)
    ensures WatchLoop(s, userId, streamer, beats) == WatchResult(s, StillWatching, Heartbeats(streamer.nickname, |beats| + 1))
    decreases |beats|
  {
    if beats != [] {
      DeliverStopped(s, userId, beats[0]);
      StoppedListenerWatchesOn(s, userId, streamer, beats[1..]);
    }
  }
}
