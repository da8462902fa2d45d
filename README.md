# TwitchMiner selection and bookkeeping, modelled in Dafny

This project models the core of `TwitchMiner` in `autoTwitchDrops/miner.py`.
The miner farms a streaming platform's time-gated rewards ("drops"). Each pass
of its outer loop does four things:

1. It reads the user's drop inventory and records the ids of the drops that
   are claimed or fully watched (`update_inventory`).
2. It fetches the active campaigns and deletes those recorded drops from them,
   then deletes any campaign left without drops (`update_campaigns`).
3. It claims every due drop of the raw inventory (`claim_all_drops`).
4. It picks a live channel for the first campaign that has one
   (`get_channel_to_mine`, `get_online_channels`, `pick_streamer`) and sends
   it watch heartbeats (`watch`). A concurrent listener task
   (`handle_websocket`) meanwhile clears `need_mine` when a drop-reward
   reminder arrives, and records the game of the watched channel when its
   broadcast settings change.

The platform is abstracted. Its responses are inputs. The calls that request
or change something (`get_full_campaigns_data`, `claim_drop`,
`switch_channel_topic`, `send_watch`) are appended, in order, to the field
`actions`. The listener runs as a separate task, so its messages are
modelled as events handled at the await points of the main task:

- during `pick_streamer`;
- during `switch_channel_topic`;
- after each heartbeat (during `send_watch` and the 15-second sleep).

`pick_streamer` neither reads nor writes the fields the listener changes.
So handling all its window's messages at one point gives the same result as
any interleaving.

Files, one module each:

- `entities.dfy` (`Entities`): records for drops, campaigns, games and
  channels, plus `Option` and `Action`.
- `inventory.dfy` (`Inventory`): the specification of `update_inventory` and
  `claim_all_drops`.
- `reconcile.dfy` (`Reconcile`): the active-id filter and the index-based
  deletion loops of `update_campaigns`.
- `channels.dfy` (`Channels`): channel filtering, campaign selection and the
  retry of `pick_streamer`.
- `listener.dfy` (`Listener`): what one message does to the shared fields,
  and when it makes the listener task raise.
- `watching.dfy` (`Watching`): the heartbeat loop of `watch`.
- `miner.dfy` (`Miner`): the class `TwitchMiner`. Its methods are the
  imperative code, and each is proved against the functions above. `Pass`
  specifies one pass of the outer loop of `run` on values, and `Passes`
  folds passes over a sequence of rounds, stopping after the first pass
  that does not re-select.

Behaviour modelled as the code has it:

- **Deletion inside `enumerate`.** `del` shifts the next element into the
  deleted slot, and `enumerate` then moves past it. So the drop after a
  deleted drop is never checked. Likewise, the campaign after a deleted
  campaign is kept whole, with none of its drops pruned. `SkipPrune` and
  `SkipPruneCampaigns` define this behaviour. The model proves the
  deletion sound, not complete: two lemmas show a claimed drop, and an empty
  campaign, that survive.
- **The guard on line 36.** It skips only an empty dictionary. A `None`
  message makes `data.get` raise, and the listener task ends.
- **The rebinding on line 43.** After a create-notification, `data` names the
  notification object. So the topic test on line 47 reads that object's
  `topic` key. If the key is missing, the listener raises right after it has
  cleared `need_mine`.
- **A failed listener.** Any exception ends the listener task for good. From
  then on no message is handled, and the watch loop sends heartbeats
  forever (`Watching.StoppedListenerWatchesOn`).
- **Truthiness.** `self.game` and `current_game` count as set only when they
  are non-empty strings. `get_channel_to_mine` returns `None` when every
  campaign is filtered out, and an empty list when the last checked campaign
  had no streamers.

Behaviour of the code worth noting:

- Claimed state is tracked by drop `id_`, not by benefit id.
- A failing `claim_drop` propagates; the remaining claims are not made.
- There is no reconnect after a transport failure.
- Category listings are not filtered for broken entries.

## Model

| member | source | states |
|---|---|---|
| `Inventory.InventoryOf` | autoTwitchDrops/miner.py:150-153 | the inventory is the in-progress campaign list when one is sent, and empty when the key is missing or null |
| `Inventory.NoInventoryNoClaimedIds` | autoTwitchDrops/miner.py:150-160 | a missing or empty in-progress list records no claimed id |
| `Inventory.ClaimedIdsSpec` | autoTwitchDrops/miner.py:155-160 | an id is recorded as claimed exactly when some inventory drop with that id is claimed or has `required_time <= watched_time` |
| `Inventory.ClaimedIdsInOrder` | autoTwitchDrops/miner.py:157-160 | recorded ids follow inventory order: campaign by campaign, drop by drop |
| `Inventory.ClaimActionsSpec` | autoTwitchDrops/miner.py:184-188 | a `claim_drop(instanceId)` call is made exactly for the inventory drops that are due (`required_time <= watched_time`, not claimed); no other call is made |
| `Inventory.ClaimActionsInOrder` | autoTwitchDrops/miner.py:185-188 | one call per due drop, in inventory order |
| `Inventory.ClaimedDropsAreRecorded` | autoTwitchDrops/miner.py:184-188 | every drop that gets claimed also had its id recorded by `update_inventory` on line 159 |
| `Reconcile.ActiveIdsMembership` | autoTwitchDrops/miner.py:168 | full data is requested for the id of every campaign with status `ACTIVE`, and for no other id |
| `Reconcile.ActiveIdsAppend` | autoTwitchDrops/miner.py:168 | requested ids keep response order |
| `Reconcile.SkipPruneSound` | autoTwitchDrops/miner.py:173-176 | the inner deletion loop removes only drops whose id is claimed; the kept drops are unchanged and in their original order |
| `Reconcile.DropsSievedCounts` | autoTwitchDrops/miner.py:173-176 | after pruning, no drop occurs more often than before, every drop with an unclaimed id keeps all its occurrences, and the list does not grow |
| `Reconcile.EmptySieveAllClaimed` | autoTwitchDrops/miner.py:176-180 | a campaign's drop list ends up empty only if all its drops had claimed ids |
| `Reconcile.SkipPruneKeepsNeighbour` | autoTwitchDrops/miner.py:173-176 | the drop right after a deleted drop is kept even when its id is claimed (the loop is not complete) |
| `Reconcile.SkipPruneCampaignsSound` | autoTwitchDrops/miner.py:172-180 | `update_campaigns` removes only campaigns whose drops all had claimed ids; each kept campaign is unchanged except for a soundly pruned drop list, and order is kept |
| `Reconcile.CampaignsSievedKeepsLive` | autoTwitchDrops/miner.py:172-180 | a campaign with a drop whose id is not claimed survives, and the campaign list never grows |
| `Reconcile.SkipPruneCampaignsKeepsNeighbour` | autoTwitchDrops/miner.py:172-180 | a drop-less campaign right after a deleted campaign survives (no completeness) |
| `Channels.OnlineChannelsSpec` | autoTwitchDrops/miner.py:143-146 | a channel is returned exactly when its response entry has a stream, has a broadcast game, and that game's id is the wanted one |
| `Channels.OnlineChannelsInOrder` | autoTwitchDrops/miner.py:144-146 | the returned channels keep response order |
| `Channels.SelectStreamersSpec` | autoTwitchDrops/miner.py:121-139 | the result is a non-empty list exactly when some campaign passes the display-name filter and offers a streamer. The list is then that of the first such campaign in ranking order. For an allow-list campaign, every returned channel plays that campaign's game |
| `Channels.PickFromSpec` | autoTwitchDrops/miner.py:95-106 | the retry loop returns nothing exactly while every attempt found none. Otherwise it returns the first streamer of the first attempt that found some |
| `Listener.DeliverSpec` | autoTwitchDrops/miner.py:32-49 | handling messages never changes the current channel, never sets `need_mine` to true, and never restarts a stopped listener. It changes `current_game` only to the `game_id` of a broadcast-settings update on the current channel's topic |
| `Listener.DeliverStopped` | autoTwitchDrops/miner.py:32-34 | once the listener task has raised, later messages change nothing |
| `Listener.ReminderWithoutTopicEndsListener` | autoTwitchDrops/miner.py:41-47 | a reminder notification without a `topic` key clears `need_mine`, then ends the listener through the lookup on line 47 |
| `Watching.WatchLoopTrace` | autoTwitchDrops/miner.py:111-119 | a heartbeat is sent after each check that finds `need_mine` true and the game unchanged, and only then; every heartbeat goes to the streamer. The loop leaves at the first failing check. A normal exit found `need_mine` false and resets it to true. An abort found `current_game` truthy and different from the channel's game while `need_mine` was true |
| `Watching.WatchEndsAfterReminder` | autoTwitchDrops/miner.py:111-119 | a reminder handled after a heartbeat ends the loop at the next check, with no further heartbeat, and `need_mine` is true again |
| `Watching.WatchAbortsOnGameChange` | autoTwitchDrops/miner.py:111-113 | a changed game seen at a check aborts with "Streamer changed game" before any heartbeat, unless `need_mine` is already false |
| `Watching.StoppedListenerWatchesOn` | autoTwitchDrops/miner.py:111-117 | with the listener gone, the loop never ends and sends one heartbeat per await window |
| `Miner.TwitchMiner.constructor` | autoTwitchDrops/miner.py:16-22 | a new miner needs mining, has no current channel or game, and has made no call |
| `Miner.TwitchMiner.HandleMessage` | autoTwitchDrops/miner.py:34-49 | one message changes the shared fields as `Listener.Receive` says |
| `Miner.TwitchMiner.Listen` | autoTwitchDrops/miner.py:33-49 | the listener loop over the messages of one await window; messages after a failure are not read |
| `Miner.TwitchMiner.UpdateInventory` | autoTwitchDrops/miner.py:148-162 | sets the inventory from the response. Builds `claimed_drops_ids` in its nested loops, equal to the ids of the satisfied drops in inventory order |
| `Miner.TwitchMiner.RecordSatisfied` | autoTwitchDrops/miner.py:157-160 | the inner loop appends, in order, the ids of the campaign's drops that are claimed or fully watched |
| `Miner.TwitchMiner.UpdateCampaigns` | autoTwitchDrops/miner.py:164-182 | requests full data for the active ids, then deletes by index. The resulting list is `SkipPruneCampaigns` of the fetched one |
| `Miner.TwitchMiner.PruneDropsOf` | autoTwitchDrops/miner.py:173-176 | the inner deletion loop leaves exactly `SkipPrune` of the campaign's drops, and nothing else changes |
| `Miner.TwitchMiner.ClaimAllDrops` | autoTwitchDrops/miner.py:184-189 | appends exactly the claim calls of `ClaimActions(inventory)` |
| `Miner.TwitchMiner.ClaimDropsOf` | autoTwitchDrops/miner.py:185-188 | the inner loop appends one `claim_drop` call, in order, for each due drop of the campaign |
| `Miner.TwitchMiner.GetChannelToMine` | autoTwitchDrops/miner.py:121-139 | the loop over campaigns, with its `continue` and `break`, returns `SelectStreamers` of the ranked campaigns |
| `Miner.TwitchMiner.PickStreamer` | autoTwitchDrops/miner.py:89-106 | reconciles, claims and ranks, then searches once per snapshot. It returns the first streamer that `PickFrom` gives |
| `Miner.TwitchMiner.Watch` | autoTwitchDrops/miner.py:108-119 | switches the listener topic, then runs the heartbeat loop. The new state, outcome and calls are those of `Watching.WatchLoop` |
| `Miner.TwitchMiner.RunPass` | autoTwitchDrops/miner.py:74-80 | one pass: `current_game` is reset to None before the pick. The pick is made and becomes `current_channel`, and the watch follows. The new inventory, claimed ids, campaigns, session and calls are those of the reconcile, pick and watch functions. A game-change abort ends the pass like a normal return |
| `Miner.TwitchMiner.RunRound` | autoTwitchDrops/miner.py:74-84 | the session, outcome, calls and reconciled fields after one pass are exactly `Pass` of the session before it |
| `Miner.TwitchMiner.RunPasses` | autoTwitchDrops/miner.py:74-84 | the repeated passes: outcomes, final session and calls are the fold `Passes` of one pass over the rounds. The reconciled fields are the last pass's, or unchanged when no round is given |
| `Miner.TwitchMiner.Run` | autoTwitchDrops/miner.py:70-84 | starts the listener (`listening` is set before the first pass), then repeats passes. Outcomes, final session and calls are `Passes` of `Pass` from the started session, and the reconciled fields the last pass's. There are at most as many outcomes as rounds and at least one when a round is given. Every pass before the last ended by re-selecting, and the loop stops early only after a pass that did not |
| `Miner.PassesShape` | autoTwitchDrops/miner.py:74-84 | the loop runs at most one pass per round and at least one when a round is given; every pass but the last re-selects; stopping before the rounds run out means the last pass did not re-select |
| `Miner.PassesOutcome` | autoTwitchDrops/miner.py:74-84 | the k-th outcome is that of the pass on the k-th round, started from the session the first k passes leave |
| `Miner.PassesLast` | autoTwitchDrops/miner.py:74-84 | a last pass exists exactly when a round is given, and it is the pass on the round of the last outcome, from the session the earlier passes leave |
| `Miner.ChangedGameReselects` | autoTwitchDrops/miner.py:77-84 | a watch aborted by a game change is followed by a fresh pass on the next round, from the session the aborted pass left |
| `Miner.PassForgetsGame` | autoTwitchDrops/miner.py:75 | because `current_game` is reset at the start of the pass, the game recorded before it has no effect on the pass |

## Left out

- The websocket lifecycle is not modelled: `TwitchWebSocket` construction, `connect`, `run_ping` and the `close` in `finally`. It is transport I/O.
- `asyncio` scheduling and sleeps are not modelled. Sleeps are step boundaries, and listener messages arrive in per-window batches.
- Every `self.api` call is foreign code. Responses are inputs. The read-only requests are not recorded: `get_inventory`, `get_campaigns`, `get_channels_information`, `get_category_streamers`.
- Exceptions raised by API calls are not modelled. A failing `claim_drop` or `send_watch` would propagate out of `run`.
- `run` catches every `RuntimeError`; only the one raised by `watch` is modelled.
- `json.loads` is not modelled: message payloads arrive parsed. Malformed JSON, and payloads that are not dictionaries, are not modelled. Both would also end the listener.
- Logging is not modelled.
- `sort_campaigns` is not part of this model. It is an arbitrary function parameter `rank`, so the results hold for any ranking.
- The `Campaign` and `Channel` constructors are not part of this model. Their objects are records with the fields used here. Category-listing entries are taken as channels directly.
- `Channel.__str__` is not part of this model. A channel's string form is its `topicName` field.
- The `topics` list and the `login` object are not modelled; only `login.user_id` is used.
- Miner.TwitchMiner.PickStreamer: the retry loop runs for the given snapshots only. When they run out with nothing found, the pass ends as `NoStreamerYet`; the code would retry forever.
- Miner.TwitchMiner.Watch: the heartbeat loop runs for the given message batches only. When they run out, it ends as `StillWatching`; the code would loop on.
- The payload's `game_id` (`Listener`) is taken to be a string, of the same type as the channel's `game["id"]` it is compared with (miner.py lines 49 and 112). If the platform sent a number, the comparison on line 112 would fail after every broadcast-settings update and abort the watch; the model cannot show that.
- Miner.TwitchMiner.Watch requires `current_channel` to be the streamer, as `run` sets it on line 79. Called otherwise, line 112 would read another channel's game.
