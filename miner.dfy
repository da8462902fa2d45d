/** The class `TwitchMiner`: its fields and the methods that update them,
    each proved against the functions of the other modules. The platform's
    answers come in as parameters; the calls that request or change something
    on the platform are appended to `actions`. */
module Miner {
  import opened Entities
  import opened Inventory
  import opened Reconcile
  import opened Channels
  import opened Listener
  import opened Watching

  /** What the platform and the listener supply during one pass of the outer
      loop of `run`: the three reconciliation responses (full campaign data as
      a function of the requested ids), one platform snapshot per attempt of
      the channel search, the messages handled while `pick_streamer` and
      `switch_channel_topic` await, and those handled in each await window of
      the heartbeat loop. */
  datatype Round = Round(
    inventory: InventoryResponse,
    summaries: seq<CampaignSummary>,
    fullCampaigns: seq<string> -> seq<Campaign>,
    snapshots: seq<Platform>,
    pickMessages: seq<Data>,
    switchMessages: seq<Data>,
    beats: seq<seq<Data>>)

  /** How a pass ended: every search attempt came back empty, or a streamer
      was picked and watched until the given outcome. */
  datatype RoundOutcome = NoStreamerYet | Watched(streamer: Channel, outcome: WatchOutcome)

  /** A pass after which the outer loop picks again. */
  predicate Reselects(o: RoundOutcome)
  {
    o.Watched? && o.outcome != StillWatching
  }

  /** What one pass leaves behind: the shared session, how it ended, the
      calls it made, and the three fields that reconciliation overwrites. */
  datatype PassResult = PassResult(
    session: Session,
    outcome: RoundOutcome,
    sent: seq<Action>,
    inventory: seq<Campaign>,
    claimedDropsIds: seq<string>,
    campaigns: seq<Campaign>)

  /** One pass of the outer loop of `run`, from session `s`: `current_game`
      is reset, the pick is made while the listener handles `pickMessages`,
      and the picked streamer becomes the current channel and is watched. */
  function Pass(s: Session, userId: string, game: Option<string>, r: Round, rank: seq<Campaign> -> seq<Campaign>): PassResult
  {
    var inv := InventoryOf(r.inventory);
    var claimed := ClaimedIds(inv);
    var cs := rank(SkipPruneCampaigns(r.fullCampaigns(ActiveIds(r.summaries)), claimed));
    var picked := Deliver(s.(currentGame := None), userId, r.pickMessages);
    var reconciled := [FetchFullCampaigns(ActiveIds(r.summaries))] + ClaimActions(inv);
    match PickFrom(cs, game, r.snapshots)
    case None => PassResult(picked, NoStreamerYet, reconciled, inv, claimed, cs)
    case Some(ch) =>
      var w := WatchLoop(Deliver(picked.(currentChannel := Some(ch)), userId, r.switchMessages), userId, ch, r.beats);
      PassResult(w.session, Watched(ch, w.outcome), reconciled + [SwitchChannelTopic(ch.id)] + w.sent, inv, claimed, cs)
  }

  /** A pass whose search found nothing is `Pass`: reconciliation, then the
      pick window, and no watch. */
  lemma PassWithoutStreamer(s: Session, userId: string, game: Option<string>, r: Round, rank: seq<Campaign> -> seq<Campaign>,
                            p: PassResult, before: seq<Action>, after: seq<Action>)
    requires p.inventory == InventoryOf(r.inventory)
    requires p.claimedDropsIds == ClaimedIds(p.inventory)
    requires p.campaigns == rank(SkipPruneCampaigns(r.fullCampaigns(ActiveIds(r.summaries)), p.claimedDropsIds))
    requires PickFrom(p.campaigns, game, r.snapshots).None?
    requires p.outcome == NoStreamerYet && p.session == Deliver(s.(currentGame := None), userId, r.pickMessages)
    requires after == before + [FetchFullCampaigns(ActiveIds(r.summaries))] + ClaimActions(p.inventory)
    ensures var q := Pass(s, userId, game, r, rank);
      && after == before + q.sent
      && q == p.(sent := q.sent)
  {
    assert after == before + ([FetchFullCampaigns(ActiveIds(r.summaries))] + ClaimActions(p.inventory));
  }

  /** A pass that picked `ch` is `Pass`: reconciliation, the pick window, the
      topic switch and its window, then the heartbeat loop. */
  lemma PassWithStreamer(s: Session, userId: string, game: Option<string>, r: Round, rank: seq<Campaign> -> seq<Campaign>,
                         ch: Channel, p: PassResult, before: seq<Action>, after: seq<Action>)
    requires p.inventory == InventoryOf(r.inventory)
    requires p.claimedDropsIds == ClaimedIds(p.inventory)
    requires p.campaigns == rank(SkipPruneCampaigns(r.fullCampaigns(ActiveIds(r.summaries)), p.claimedDropsIds))
    requires PickFrom(p.campaigns, game, r.snapshots) == Some(ch)
    requires var w := WatchLoop(Deliver(Deliver(s.(currentGame := None), userId, r.pickMessages).(currentChannel := Some(ch)), userId, r.switchMessages), userId, ch, r.beats);
      && p.outcome == Watched(ch, w.outcome)
      && p.session == w.session
      && after == before + [FetchFullCampaigns(ActiveIds(r.summaries))] + ClaimActions(p.inventory) + [SwitchChannelTopic(ch.id)] + w.sent
    ensures var q := Pass(s, userId, game, r, rank);
      && after == before + q.sent
      && q == p.(sent := q.sent)
  {
    var w := WatchLoop(Deliver(Deliver(s.(currentGame := None), userId, r.pickMessages).(currentChannel := Some(ch)), userId, r.switchMessages), userId, ch, r.beats);
    assert after == before + ([FetchFullCampaigns(ActiveIds(r.summaries))] + ClaimActions(p.inventory) + [SwitchChannelTopic(ch.id)] + w.sent);
  }

  /** What the outer loop leaves: the session, the outcome of every pass,
      all calls, and the last pass run (none when no pass ran). */
  datatype RunResult = RunResult(session: Session, outcomes: seq<RoundOutcome>, sent: seq<Action>, last: Option<PassResult>)

  /** The pass function of a miner, as a step from a session and a round. */
  function PassOf(userId: string, game: Option<string>, rank: seq<Campaign> -> seq<Campaign>): (Session, Round) -> PassResult
  {
    (s: Session, r: Round) => Pass(s, userId, game, r, rank)
  }

  /** The outer loop of `run` over the given passes: each pass starts from the
      session the previous one left, and the loop goes on only after a pass
      that re-selects (a normal return or a caught "Streamer changed game"). */
  function Passes(s: Session, rounds: seq<Round>, step: (Session, Round) -> PassResult): RunResult
    decreases |rounds|
  {
    if rounds == [] then RunResult(s, [], [], None)
    else
      var p := step(s, rounds[0]);
      if !Reselects(p.outcome) then RunResult(p.session, [p.outcome], p.sent, Some(p))
      else
        var q := Passes(p.session, rounds[1..], step);
        RunResult(q.session, [p.outcome] + q.outcomes, p.sent + q.sent, if q.last.Some? then q.last else Some(p))
  }

  /** The session in which pass `k` starts. */
  function SessionBefore(s: Session, rounds: seq<Round>, step: (Session, Round) -> PassResult, k: nat): Session
    requires k <= |rounds|
  {
    if k == 0 then s else step(SessionBefore(s, rounds, step, k - 1), rounds[k - 1]).session
  }

  lemma {:induction false} SessionBeforeShift(s: Session, rounds: seq<Round>, step: (Session, Round) -> PassResult, k: nat)
    requires k < |rounds|
    ensures SessionBefore(s, rounds, step, k + 1) == SessionBefore(step(s, rounds[0]).session, rounds[1..], step, k)
  {
    if k > 0 {
      SessionBeforeShift(s, rounds, step, k - 1);
      assert rounds[1..][k - 1] == rounds[k];
    }
  }

  /** The loop runs at most one pass per round and at least one when there
      is a round; it stops after the first pass that does not re-select, and
      otherwise only when the rounds run out. */
  lemma {:induction false} PassesShape(s: Session, rounds: seq<Round>, step: (Session, Round) -> PassResult)
    ensures var q := Passes(s, rounds, step);
      && |q.outcomes| <= |rounds|
      && (rounds != [] ==> q.outcomes != [])
      && (forall k :: 0 <= k < |q.outcomes| - 1 ==> Reselects(q.outcomes[k]))
      && (|q.outcomes| < |rounds| ==> !Reselects(q.outcomes[|q.outcomes| - 1]))
    decreases |rounds|
  {
    if rounds != [] && Reselects(step(s, rounds[0]).outcome) {
      PassesShape(step(s, rounds[0]).session, rounds[1..], step);
    }
  }

  /** Pass `k` runs round `k` from the session pass `k - 1` left. */
  lemma {:induction false} PassesOutcome(s: Session, rounds: seq<Round>, step: (Session, Round) -> PassResult, k: nat)
    requires k < |Passes(s, rounds, step).outcomes|
    ensures k < |rounds|
    ensures Passes(s, rounds, step).outcomes[k] == step(SessionBefore(s, rounds, step, k), rounds[k]).outcome
    decreases k
  {
    var p := step(s, rounds[0]);
    if k > 0 {
      PassesOutcome(p.session, rounds[1..], step, k - 1);
      SessionBeforeShift(s, rounds, step, k - 1);
      assert rounds[1..][k - 1] == rounds[k];
    }
  }

  /** The reconciled fields after the loop are those of its last pass, the
      one that produced the last outcome; there is one exactly when there was
      a round. */
  lemma {:induction false} PassesLast(s: Session, rounds: seq<Round>, step: (Session, Round) -> PassResult)
    ensures var q := Passes(s, rounds, step);
      && |q.outcomes| <= |rounds|
      && (q.last.Some? <==> rounds != [])
      && (q.last.Some? ==>
            q.last.value == step(SessionBefore(s, rounds, step, |q.outcomes| - 1), rounds[|q.outcomes| - 1]))
    decreases |rounds|
  {
    PassesShape(s, rounds, step);
    if rounds != [] && Reselects(step(s, rounds[0]).outcome) {
      var p := step(s, rounds[0]);
      var q' := Passes(p.session, rounds[1..], step);
      PassesLast(p.session, rounds[1..], step);
      if q'.last.Some? {
        SessionBeforeShift(s, rounds, step, |q'.outcomes| - 1);
        assert rounds[1..][|q'.outcomes| - 1] == rounds[|q'.outcomes|];
      }
    }
  }

  /** The state of the loop of `run` before pass `i`: the passes still to run
      from `s` complete `goal`, after the outcomes `outcomes`, the calls `sent`
      and the last pass `last` so far. */
  predicate RunLoopAt(goal: RunResult, rounds: seq<Round>, step: (Session, Round) -> PassResult, i: nat,
                      outcomes: seq<RoundOutcome>, s: Session, sent: seq<Action>, last: Option<PassResult>)
  {
    && i <= |rounds| && |outcomes| == i
    && var q := Passes(s, rounds[i..], step);
       && goal.outcomes == outcomes + q.outcomes
       && goal.session == q.session
       && goal.sent == sent + q.sent
       && goal.last == (if q.last.Some? then q.last else last)
  }

  lemma RunLoopStart(s: Session, rounds: seq<Round>, step: (Session, Round) -> PassResult)
    ensures RunLoopAt(Passes(s, rounds, step), rounds, step, 0, [], s, [], None)
  {
    assert rounds[0..] == rounds;
  }

  /** One pass of the loop of `run`: the loop returns after it, with `goal`
      reached, or goes on to pass `i + 1`. */
  lemma RunLoopStep(goal: RunResult, rounds: seq<Round>, step: (Session, Round) -> PassResult, i: nat,
                    outcomes: seq<RoundOutcome>, s: Session, sent: seq<Action>, last: Option<PassResult>)
    requires RunLoopAt(goal, rounds, step, i, outcomes, s, sent, last) && i < |rounds|
    ensures var p := step(s, rounds[i]);
      if Reselects(p.outcome) then
        RunLoopAt(goal, rounds, step, i + 1, outcomes + [p.outcome], p.session, sent + p.sent, Some(p))
      else
        goal == RunResult(p.session, outcomes + [p.outcome], sent + p.sent, Some(p))
  {
    assert rounds[i..][0] == rounds[i] && rounds[i..][1..] == rounds[i + 1..];
  }

  lemma RunLoopEnds(goal: RunResult, rounds: seq<Round>, step: (Session, Round) -> PassResult, i: nat,
                    outcomes: seq<RoundOutcome>, s: Session, sent: seq<Action>, last: Option<PassResult>)
    requires RunLoopAt(goal, rounds, step, i, outcomes, s, sent, last) && i == |rounds|
    ensures goal == RunResult(s, outcomes, sent, last)
  {
    assert rounds[i..] == [];
  }

  /** A pass aborted by "Streamer changed game" is caught: when passes remain,
      the next one runs from the session the aborted one left. */
  lemma ChangedGameReselects(s: Session, rounds: seq<Round>, step: (Session, Round) -> PassResult)
    requires |rounds| >= 2
    requires step(s, rounds[0]).outcome.Watched? && step(s, rounds[0]).outcome.outcome == ChangedGame
    ensures var q := Passes(s, rounds, step);
      && |q.outcomes| >= 2
      && q.outcomes[1] == step(step(s, rounds[0]).session, rounds[1]).outcome
  {
  }

  /** The game a previous pass observed never influences the next one: line
      75 resets it before the pick. */
  lemma PassForgetsGame(s: Session, g: Option<string>, userId: string, game: Option<string>, r: Round, rank: seq<Campaign> -> seq<Campaign>)
    ensures Pass(s.(currentGame := g), userId, game, r, rank) == Pass(s, userId, game, r, rank)
  {
  }

  class TwitchMiner {
    const userId: string
    const game: Option<string>
    var needMine: bool
    var currentGame: Option<string>
    var currentChannel: Option<Channel>
    /** Whether the `handle_websocket` task is still running. */
    var listening: bool
    var inventory: seq<Campaign>
    var claimedDropsIds: seq<string>
    var campaigns: seq<Campaign>
    var actions: seq<Action>

    constructor (userId: string, game: Option<string>)
      ensures this.userId == userId && this.game == game
      ensures needMine && currentGame == None && currentChannel == None && !listening
      ensures inventory == [] && claimedDropsIds == [] && campaigns == [] && actions == []
    {
      this.userId, this.game := userId, game;
      needMine, currentGame, currentChannel, listening := true, None, None, false;
      inventory, claimedDropsIds, campaigns, actions := [], [], [], [];
    }

    /** The fields the listener and the watch loop share. */
    function SessionOf(): Session
      reads this
    {
      Session(needMine, currentGame, currentChannel, listening)
    }

    /** One turn of the `handle_websocket` loop. */
    method HandleMessage(data: Data)
      requires listening
      modifies this`needMine, this`currentGame, this`listening
      ensures SessionOf() == Receive(old(SessionOf()), userId, data)
    {
      TopicsDiffer(userId, currentChannel);
      match data
      case NoData =>
        listening := false;
      case EmptyDict =>
      case Frame(topic, message) =>
        if message.None? || topic.None? {
          listening := false;
          return;
        }
        var m := message.value;
        // the topic key read at the broadcast check: after a
        // create-notification, the notification object's own
        var checkedTopic := topic;
        if topic.value == OnsiteTopic(userId) {
          if m.kind.None? {
            listening := false;
            return;
          }
          if m.kind.value == CREATE_NOTIFICATION {
            if m.notification.None? || m.notification.value.kind.None? {
              listening := false;
              return;
            }
            if m.notification.value.kind.value == REMINDER {
              needMine := false;
            }
            checkedTopic := m.notification.value.topic;
          }
        }
        if checkedTopic.None? {
          listening := false;
          return;
        }
        if checkedTopic.value == BroadcastTopic(currentChannel) {
          if m.kind.None? {
            listening := false;
            return;
          }
          if m.kind.value == BROADCAST_SETTINGS_UPDATE {
            if m.gameId.None? {
              listening := false;
              return;
            }
            currentGame := m.gameId.value;
          }
        }
    }

    /** The listener handling the messages that arrive during one await. */
    method Listen(batch: seq<Data>)
      modifies this`needMine, this`currentGame, this`listening
      ensures SessionOf() == Deliver(old(SessionOf()), userId, batch)
    {
      var i := 0;
      while i < |batch| && listening
        invariant 0 <= i <= |batch|
        invariant Deliver(SessionOf(), userId, batch[i..]) == Deliver(old(SessionOf()), userId, batch)
      {
        assert batch[i..][1..] == batch[i + 1..];
        HandleMessage(batch[i]);
        i := i + 1;
      }
    }

    method UpdateInventory(response: InventoryResponse)
      modifies this`inventory, this`claimedDropsIds
      ensures inventory == InventoryOf(response)
      ensures claimedDropsIds == ClaimedIds(inventory)
    {
      if response.dropCampaignsInProgress.Some? && |response.dropCampaignsInProgress.value| > 0 {
        inventory := response.dropCampaignsInProgress.value;
      } else {
        inventory := [];
      }
      claimedDropsIds := [];
      var i := 0;
      while i < |inventory|
        invariant 0 <= i <= |inventory|
        invariant claimedDropsIds == ClaimedIds(inventory[..i])
        modifies this`claimedDropsIds
      {
        ClaimedIdsStep(inventory, i);
        RecordSatisfied(inventory[i].drops);
        i := i + 1;
      }
      assert inventory[..i] == inventory;
    }

    /** The inner loop of `update_inventory` over the drops of one campaign. */
    method RecordSatisfied(drops: seq<Drop>)
      modifies this`claimedDropsIds
      ensures claimedDropsIds == old(claimedDropsIds) + SatisfiedIds(drops)
    {
      var j := 0;
      while j < |drops|
        invariant 0 <= j <= |drops|
        invariant claimedDropsIds == old(claimedDropsIds) + SatisfiedIds(drops[..j])
      {
        SatisfiedIdsStep(drops, j);
        if drops[j].claimed || drops[j].requiredTime <= drops[j].watchedTime {
          claimedDropsIds := claimedDropsIds + [drops[j].id];
        }
        j := j + 1;
      }
      assert drops[..j] == drops;
    }

    method UpdateCampaigns(summaries: seq<CampaignSummary>, fullCampaigns: seq<string> -> seq<Campaign>)
      modifies this`campaigns, this`actions
      ensures actions == old(actions) + [FetchFullCampaigns(ActiveIds(summaries))]
      ensures campaigns == SkipPruneCampaigns(fullCampaigns(ActiveIds(summaries)), claimedDropsIds)
    {
      var ids := ActiveIds(summaries);
      actions := actions + [FetchFullCampaigns(ids)];
      campaigns := fullCampaigns(ids);
      ghost var goal := SkipPruneCampaigns(campaigns, claimedDropsIds);
      var i := 0;
      while i < |campaigns|
        invariant CampaignLoopAt(goal, campaigns, i, claimedDropsIds)
        modifies this`campaigns
      {
        CampaignLoopStep(goal, campaigns, i, claimedDropsIds);
        PruneDropsOf(i);
        if |campaigns[i].drops| == 0 {
          campaigns := campaigns[..i] + campaigns[i + 1..];
        }
        i := i + 1;
      }
      CampaignLoopEnds(goal, campaigns, i, claimedDropsIds);
    }

    /** The inner loop of `update_campaigns`, deleting by index the drops of
        the campaign at index `i` whose ids are claimed. */
    method PruneDropsOf(i: nat)
      requires i < |campaigns|
      modifies this`campaigns
      ensures campaigns == old(campaigns)[i := PruneCampaign(old(campaigns)[i], claimedDropsIds)]
    {
      ghost var goal := SkipPrune(campaigns[i].drops, claimedDropsIds);
      var drops := campaigns[i].drops;
      var j := 0;
      while j < |drops|
        invariant campaigns == old(campaigns)[i := old(campaigns)[i].(drops := drops)]
        invariant DropLoopAt(goal, drops, j, claimedDropsIds)
        modifies this`campaigns
      {
        DropLoopStep(goal, drops, j, claimedDropsIds);
        if drops[j].id in claimedDropsIds {
          drops := drops[..j] + drops[j + 1..];
          campaigns := campaigns[i := campaigns[i].(drops := drops)];
        }
        j := j + 1;
      }
      DropLoopEnds(goal, drops, j, claimedDropsIds);
    }

    /** The inner loop of `claim_all_drops` over the drops of one campaign. */
    method ClaimDropsOf(drops: seq<Drop>)
      modifies this`actions
      ensures actions == old(actions) + ClaimCalls(drops)
    {
      var j := 0;
      while j < |drops|
        invariant 0 <= j <= |drops|
        invariant actions == old(actions) + ClaimCalls(drops[..j])
      {
        ClaimCallsStep(drops, j);
        if drops[j].requiredTime <= drops[j].watchedTime && !drops[j].claimed {
          actions := actions + [ClaimDrop(drops[j].instanceId)];
        }
        j := j + 1;
      }
      assert drops[..j] == drops;
    }

    method ClaimAllDrops()
      modifies this`actions
      ensures actions == old(actions) + ClaimActions(inventory)
    {
      var i := 0;
      while i < |inventory|
        invariant 0 <= i <= |inventory|
        invariant actions == old(actions) + ClaimActions(inventory[..i])
      {
        ClaimActionsStep(inventory, i);
        ClaimDropsOf(inventory[i].drops);
        i := i + 1;
      }
      assert inventory[..i] == inventory;
    }

    method GetChannelToMine(api: Platform) returns (streamers: Option<seq<Channel>>)
      ensures streamers == SelectStreamers(campaigns, game, api)
    {
      streamers := None;
      var k := 0;
      while k < |campaigns|
        invariant 0 <= k <= |campaigns|
        invariant !Found(streamers)
        invariant SelectFrom(campaigns[k..], game, api, streamers) == SelectStreamers(campaigns, game, api)
      {
        var campaign := campaigns[k];
        assert campaigns[k..][0] == campaign && campaigns[k..][1..] == campaigns[k + 1..];
        if IsTruthy(game) && game.value != campaign.game.displayName {
          k := k + 1;
          continue;
        }
        if campaign.channelsEnabled {
          streamers := Some(OnlineChannels(api.channelsInformation(campaign.channels), campaign.game.id));
          if Found(streamers) {
            break;
          }
        } else {
          streamers := Some(api.categoryStreamers(campaign.game.slug));
          if Found(streamers) {
            break;
          }
        }
        k := k + 1;
      }
    }

    /** `pick_streamer`: reconcile, claim, rank, then search once per snapshot
        until a search finds streamers; `rank` stands for `sort_campaigns`. */
    method PickStreamer(r: Round, rank: seq<Campaign> -> seq<Campaign>) returns (streamer: Option<Channel>)
      modifies this`inventory, this`claimedDropsIds, this`campaigns, this`actions
      ensures inventory == InventoryOf(r.inventory)
      ensures claimedDropsIds == ClaimedIds(inventory)
      ensures campaigns == rank(SkipPruneCampaigns(r.fullCampaigns(ActiveIds(r.summaries)), claimedDropsIds))
      ensures actions == old(actions) + [FetchFullCampaigns(ActiveIds(r.summaries))] + ClaimActions(inventory)
      ensures streamer == PickFrom(campaigns, game, r.snapshots)
    {
      UpdateInventory(r.inventory);
      UpdateCampaigns(r.summaries, r.fullCampaigns);
      ClaimAllDrops();
      campaigns := rank(campaigns);
      var k := 0;
      while k < |r.snapshots|
        invariant 0 <= k <= |r.snapshots|
        invariant PickFrom(campaigns, game, r.snapshots[k..]) == PickFrom(campaigns, game, r.snapshots)
        modifies {}
      {
        var streamers := GetChannelToMine(r.snapshots[k]);
        assert r.snapshots[k..][0] == r.snapshots[k] && r.snapshots[k..][1..] == r.snapshots[k + 1..];
        if Found(streamers) {
          return Some(streamers.value[0]);
        }
        k := k + 1;
      }
      streamer := None;
    }

    /** `watch`: switch the listener to the streamer's topic, then heartbeat
        while `need_mine` holds; `beats[k]` are the messages handled during
        the (k+1)-th heartbeat's awaits. */
    method Watch(streamer: Channel, switchMessages: seq<Data>, beats: seq<seq<Data>>) returns (outcome: WatchOutcome)
      requires currentChannel == Some(streamer)
      modifies this`needMine, this`currentGame, this`listening, this`actions
      ensures var w := WatchLoop(Deliver(old(SessionOf()), userId, switchMessages), userId, streamer, beats);
        && SessionOf() == w.session
        && outcome == w.outcome
        && actions == old(actions) + [SwitchChannelTopic(streamer.id)] + w.sent
    {
      actions := actions + [SwitchChannelTopic(streamer.id)];
      Listen(switchMessages);
      ghost var w := WatchLoop(SessionOf(), userId, streamer, beats);
      ghost var start := actions;
      var k := 0;
      while needMine
        invariant 0 <= k <= |beats|
        invariant WatchLoop(SessionOf(), userId, streamer, beats[k..]).session == w.session
        invariant WatchLoop(SessionOf(), userId, streamer, beats[k..]).outcome == w.outcome
        invariant actions + WatchLoop(SessionOf(), userId, streamer, beats[k..]).sent == start + w.sent
        decreases |beats| - k
      {
        if IsTruthy(currentGame) && currentGame.value != currentChannel.value.game.id {
          return ChangedGame;
        }
        actions := actions + [SendWatch(streamer.nickname)];
        if k == |beats| {
          return StillWatching;
        }
        assert beats[k..][0] == beats[k] && beats[k..][1..] == beats[k + 1..];
        Listen(beats[k]);
        k := k + 1;
      }
      needMine := true;
      outcome := Finished;
    }

    /** One pass of the outer loop of `run`: forget the observed game, pick a
        streamer (the listener handles `pickMessages` meanwhile), make it the
        current channel and watch it. A "Streamer changed game" abort is
        caught and ends the pass like a normal return. */
    method RunRound(r: Round, rank: seq<Campaign> -> seq<Campaign>, ghost step: (Session, Round) -> PassResult)
      returns (result: RoundOutcome, ghost sent: seq<Action>)
      requires forall s: Session, r: Round {:trigger Pass(s, userId, game, r, rank)} :: step(s, r) == Pass(s, userId, game, r, rank)
      modifies this
      ensures actions == old(actions) + sent
      ensures PassResult(SessionOf(), result, sent, inventory, claimedDropsIds, campaigns) == step(old(SessionOf()), r)
    {
      ghost var s0 := SessionOf();
      ghost var a0 := actions;
      result := RunPass(r, rank);
      ghost var p := PassResult(SessionOf(), result, [], inventory, claimedDropsIds, campaigns);
      sent := Pass(s0, userId, game, r, rank).sent;
      match PickFrom(campaigns, game, r.snapshots)
      case None => PassWithoutStreamer(s0, userId, game, r, rank, p, a0, actions);
      case Some(ch) => PassWithStreamer(s0, userId, game, r, rank, ch, p, a0, actions);
    }

    /** The steps of one pass, each by the method that models it. */
    method RunPass(r: Round, rank: seq<Campaign> -> seq<Campaign>) returns (result: RoundOutcome)
      modifies this
      ensures inventory == InventoryOf(r.inventory)
      ensures claimedDropsIds == ClaimedIds(inventory)
      ensures campaigns == rank(SkipPruneCampaigns(r.fullCampaigns(ActiveIds(r.summaries)), claimedDropsIds))
      ensures var picked := Deliver(old(SessionOf()).(currentGame := None), userId, r.pickMessages);
        var reconciled := old(actions) + [FetchFullCampaigns(ActiveIds(r.summaries))] + ClaimActions(inventory);
        match PickFrom(campaigns, game, r.snapshots)
        case None => result == NoStreamerYet && SessionOf() == picked && actions == reconciled
        case Some(ch) =>
          var w := WatchLoop(Deliver(picked.(currentChannel := Some(ch)), userId, r.switchMessages), userId, ch, r.beats);
          && result == Watched(ch, w.outcome)
          && SessionOf() == w.session
          && actions == reconciled + [SwitchChannelTopic(ch.id)] + w.sent
    {
      currentGame := None;
      Listen(r.pickMessages);
      var streamer := PickStreamer(r, rank);
      if streamer.None? {
        return NoStreamerYet;
      }
      currentChannel := streamer;
      var outcome := Watch(streamer.value, r.switchMessages, r.beats);
      result := Watched(streamer.value, outcome);
    }

    /** `run`: start the listener task, then run the outer loop. The
        reconciled fields are those the last pass left. */
    method Run(rounds: seq<Round>, rank: seq<Campaign> -> seq<Campaign>) returns (outcomes: seq<RoundOutcome>)
      modifies this
      ensures var q := Passes(old(SessionOf()).(listening := true), rounds, PassOf(userId, game, rank));
        && outcomes == q.outcomes
        && SessionOf() == q.session
        && actions == old(actions) + q.sent
        && (q.last.None? ==> inventory == old(inventory) && claimedDropsIds == old(claimedDropsIds) && campaigns == old(campaigns))
        && (q.last.Some? ==>
              inventory == q.last.value.inventory && claimedDropsIds == q.last.value.claimedDropsIds && campaigns == q.last.value.campaigns)
      ensures |outcomes| <= |rounds| && (rounds != [] ==> outcomes != [])
      ensures forall k :: 0 <= k < |outcomes| - 1 ==> Reselects(outcomes[k])
      ensures |outcomes| < |rounds| ==> !Reselects(outcomes[|outcomes| - 1])
    {
      listening := true;
      outcomes := RunPasses(rounds, rank, PassOf(userId, game, rank));
      PassesShape(old(SessionOf()).(listening := true), rounds, PassOf(userId, game, rank));
    }

    /** The `while True` loop of `run`, over the given passes: each pass is
        `step` from the session the previous one left, and the loop goes on
        only while passes re-select. */
    method RunPasses(rounds: seq<Round>, rank: seq<Campaign> -> seq<Campaign>, ghost step: (Session, Round) -> PassResult)
      returns (outcomes: seq<RoundOutcome>)
      requires forall s: Session, r: Round {:trigger Pass(s, userId, game, r, rank)} :: step(s, r) == Pass(s, userId, game, r, rank)
      modifies this
      ensures var q := Passes(old(SessionOf()), rounds, step);
        && outcomes == q.outcomes
        && SessionOf() == q.session
        && actions == old(actions) + q.sent
        && (q.last.None? ==> inventory == old(inventory) && claimedDropsIds == old(claimedDropsIds) && campaigns == old(campaigns))
        && (q.last.Some? ==>
              inventory == q.last.value.inventory && claimedDropsIds == q.last.value.claimedDropsIds && campaigns == q.last.value.campaigns)
    {
      ghost var s0 := SessionOf();
      ghost var goal := Passes(s0, rounds, step);
      RunLoopStart(s0, rounds, step);
      outcomes := [];
      ghost var sent: seq<Action> := [];
      ghost var last: Option<PassResult> := None;
      var i := 0;
      while i < |rounds|
        invariant actions == old(actions) + sent
        invariant RunLoopAt(goal, rounds, step, i, outcomes, SessionOf(), sent, last)
        invariant last.None? ==> inventory == old(inventory) && claimedDropsIds == old(claimedDropsIds) && campaigns == old(campaigns)
        invariant last.Some? ==>
          inventory == last.value.inventory && claimedDropsIds == last.value.claimedDropsIds && campaigns == last.value.campaigns
      {
        ghost var before := SessionOf();
        RunLoopStep(goal, rounds, step, i, outcomes, before, sent, last);
        ghost var passSent;
        var o;
        o, passSent := RunRound(rounds[i], rank, step);
        last := Some(PassResult(SessionOf(), o, passSent, inventory, claimedDropsIds, campaigns));
        assert last.value == step(before, rounds[i]);
        sent := sent + passSent;
        outcomes := outcomes + [o];
        if !Reselects(o) {
          assert goal == RunResult(SessionOf(), outcomes, sent, last);
          return;
        }
        i := i + 1;
      }
      RunLoopEnds(goal, rounds, step, i, outcomes, SessionOf(), sent, last);
      assert goal == RunResult(SessionOf(), outcomes, sent, last);
    }
  }
}
