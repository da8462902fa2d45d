/** Channel selection: `get_online_channels`, `get_channel_to_mine` and the
    retry of `pick_streamer`. The platform's answers are given as a
    `Platform` snapshot of the two listing requests. */
module Channels {
  import opened Entities

  /** An entry of the channel-information response (its `user` object):
      `live` is whether `stream` is truthy, `broadcastGame` the game of its
      broadcast settings (`None` when falsy). */
  datatype ChannelUser = ChannelUser(
    id: string,
    nickname: string,
    live: bool,
    broadcastGame: Option<Game>,
    topicName: string)

  /** The platform's answers at one moment: channel information for a list of
      channel ids, and the streamers of a game category by its slug. */
  datatype Platform = Platform(
    channelsInformation: seq<string> -> seq<ChannelUser>,
    categoryStreamers: string -> seq<Channel>)

  /** The response filter of the comprehension: streaming with a game set. */
  predicate Broadcasting(u: ChannelUser)
  {
    u.live && u.broadcastGame.Some?
  }

  function ToChannel(u: ChannelUser): Channel
    requires u.broadcastGame.Some?
  {
    Channel(u.id, u.nickname, u.broadcastGame.value, u.topicName)
  }

  /** The comprehension: the broadcasting entries, as channels, in order. */
  function LiveChannels(resp: seq<ChannelUser>): seq<Channel>
  {
    if resp == [] then []
    else (if Broadcasting(resp[0]) then [ToChannel(resp[0])] else []) + LiveChannels(resp[1..])
  }

  /** The second filter: the channels playing the game `gameId`. */
  function WithGame(chs: seq<Channel>, gameId: string): seq<Channel>
  {
    if chs == [] then []
    else (if chs[0].game.id == gameId then [chs[0]] else []) + WithGame(chs[1..], gameId)
  }

  /** `get_online_channels` on a given channel-information response. */
  function OnlineChannels(resp: seq<ChannelUser>, gameId: string): seq<Channel>
  {
    WithGame(LiveChannels(resp), gameId)
  }

  lemma {:induction false} LiveChannelsAppend(a: seq<ChannelUser>, b: seq<ChannelUser>)
    ensures LiveChannels(a + b) == LiveChannels(a) + LiveChannels(b)
  {
    if a == [] {
      assert a + b == b;
    } else {
      assert (a + b)[1..] == a[1..] + b;
      LiveChannelsAppend(a[1..], b);
    }
  }

  lemma {:induction false} WithGameAppend(a: seq<Channel>, b: seq<Channel>, gameId: string)
    ensures WithGame(a + b, gameId) == WithGame(a, gameId) + WithGame(b, gameId)
  {
    if a == [] {
      assert a + b == b;
    } else {
      assert (a + b)[1..] == a[1..] + b;
      WithGameAppend(a[1..], b, gameId);
    }
  }

  /** The result keeps response order: the channels for a concatenation are
      those for its parts, and one entry yields its channel exactly when it is
      broadcasting the wanted game. */
  lemma OnlineChannelsInOrder(a: seq<ChannelUser>, b: seq<ChannelUser>, u: ChannelUser, gameId: string)
    ensures OnlineChannels(a + b, gameId) == OnlineChannels(a, gameId) + OnlineChannels(b, gameId)
    ensures OnlineChannels([u], gameId) ==
      if Broadcasting(u) && u.broadcastGame.value.id == gameId then [ToChannel(u)] else []
  {
    LiveChannelsAppend(a, b);
    WithGameAppend(LiveChannels(a), LiveChannels(b), gameId);
    assert [u][1..] == [];
    var live := if Broadcasting(u) then [ToChannel(u)] else [];
    assert LiveChannels([u]) == live + LiveChannels([]) == live;
    if live != [] {
      assert live[1..] == [];
      assert WithGame(live, gameId) == (if live[0].game.id == gameId then [live[0]] else []) + WithGame([], gameId);
    }
  }

  lemma {:induction false} LiveChannelsMembership(resp: seq<ChannelUser>, c: Channel)
    ensures c in LiveChannels(resp) <==> exists u :: u in resp && Broadcasting(u) && c == ToChannel(u)
  {
    if resp != [] {
      LiveChannelsMembership(resp[1..], c);
      assert forall u :: u in resp <==> u == resp[0] || u in resp[1..];
    }
  }

  lemma {:induction false} WithGameMembership(chs: seq<Channel>, gameId: string, c: Channel)
    ensures c in WithGame(chs, gameId) <==> c in chs && c.game.id == gameId
  {
    if chs != [] {
      WithGameMembership(chs[1..], gameId, c);
    }
  }

  /** `get_online_channels` returns exactly the channels of the response that
      are streaming, have a broadcast game, and play the game `gameId`. */
  lemma OnlineChannelsSpec(resp: seq<ChannelUser>, gameId: string, c: Channel)
    ensures c in OnlineChannels(resp, gameId) <==>
      exists u :: u in resp && Broadcasting(u) && u.broadcastGame.value.id == gameId && c == ToChannel(u)
    ensures c in OnlineChannels(resp, gameId) ==> c.game.id == gameId
  {
    WithGameMembership(LiveChannels(resp), gameId, c);
    LiveChannelsMembership(resp, c);
  }

  /** The display-name filter of `get_channel_to_mine`: a configured (truthy)
      game name skips every campaign of another game. */
  predicate SkippedByFilter(game: Option<string>, c: Campaign)
  {
    IsTruthy(game) && game.value != c.game.displayName
  }

  /** The streamers one campaign offers: its live allow-listed channels on its
      game, or the category listing for its game. */
  function CampaignStreamers(c: Campaign, api: Platform): seq<Channel>
  {
    if c.channelsEnabled then OnlineChannels(api.channelsInformation(c.channels), c.game.id)
    else api.categoryStreamers(c.game.slug)
  }

  /** Python truthiness of the `streamers` variable. */
  predicate Found(r: Option<seq<Channel>>)
  {
    r.Some? && |r.value| > 0
  }

  /** The loop of `get_channel_to_mine` from a point where `last` is the value
      of `streamers` so far. */
  function SelectFrom(cs: seq<Campaign>, game: Option<string>, api: Platform, last: Option<seq<Channel>>): Option<seq<Channel>>
    decreases |cs|
  {
    if cs == [] then last
    else if SkippedByFilter(game, cs[0]) then SelectFrom(cs[1..], game, api, last)
    else
      var s := CampaignStreamers(cs[0], api);
      if |s| > 0 then Some(s) else SelectFrom(cs[1..], game, api, Some(s))
  }

  /** `get_channel_to_mine`: `None` when every campaign is filtered out. */
  function SelectStreamers(cs: seq<Campaign>, game: Option<string>, api: Platform): Option<seq<Channel>>
  {
    SelectFrom(cs, game, api, None)
  }

  /** A campaign at index `k` that passes the filter and offers a streamer. */
  predicate Minable(cs: seq<Campaign>, game: Option<string>, api: Platform, k: int)
  {
    0 <= k < |cs| && !SkippedByFilter(game, cs[k]) && |CampaignStreamers(cs[k], api)| > 0
  }

  lemma {:induction false} SelectFromSpec(cs: seq<Campaign>, game: Option<string>, api: Platform, last: Option<seq<Channel>>)
    requires !Found(last)
    ensures Found(SelectFrom(cs, game, api, last)) <==> exists k :: Minable(cs, game, api, k)
    ensures Found(SelectFrom(cs, game, api, last)) ==>
      exists k :: Minable(cs, game, api, k)
        && SelectFrom(cs, game, api, last).value == CampaignStreamers(cs[k], api)
        && forall k' :: 0 <= k' < k ==> !Minable(cs, game, api, k')
    decreases |cs|
  {
    if cs != [] {
      var s := CampaignStreamers(cs[0], api);
      var next := if SkippedByFilter(game, cs[0]) then last else Some(s);
      if SkippedByFilter(game, cs[0]) || |s| == 0 {
        SelectFromSpec(cs[1..], game, api, next);
        assert SelectFrom(cs, game, api, last) == SelectFrom(cs[1..], game, api, next);
        assert forall k :: Minable(cs[1..], game, api, k) <==> Minable(cs, game, api, k + 1);
        assert !Minable(cs, game, api, 0);
        if exists k :: Minable(cs, game, api, k) {
          var k :| Minable(cs, game, api, k);
          assert Minable(cs[1..], game, api, k - 1);
        }
        if Found(SelectFrom(cs, game, api, last)) {
          var k :| Minable(cs[1..], game, api, k)
            && SelectFrom(cs[1..], game, api, next).value == CampaignStreamers(cs[1..][k], api)
            && forall k' :: 0 <= k' < k ==> !Minable(cs[1..], game, api, k');
          assert Minable(cs, game, api, k + 1);
          forall k' | 0 <= k' < k + 1
            ensures !Minable(cs, game, api, k')
          {
            if k' > 0 {
              assert !Minable(cs[1..], game, api, k' - 1);
            }
          }
        }
      } else {
        assert Minable(cs, game, api, 0);
      }
    }
  }

  /** `get_channel_to_mine` yields a non-empty list exactly when some campaign
      passes the game filter and offers a streamer; the list is then that of
      the first such campaign in ranking order, and, for an allow-list
      campaign, every channel in it plays that campaign's game. */
  lemma SelectStreamersSpec(cs: seq<Campaign>, game: Option<string>, api: Platform)
    ensures Found(SelectStreamers(cs, game, api)) <==> exists k :: Minable(cs, game, api, k)
    ensures Found(SelectStreamers(cs, game, api)) ==>
      exists k :: Minable(cs, game, api, k)
        && SelectStreamers(cs, game, api).value == CampaignStreamers(cs[k], api)
        && (forall k' :: 0 <= k' < k ==> !Minable(cs, game, api, k'))
        && (cs[k].channelsEnabled ==> forall ch :: ch in CampaignStreamers(cs[k], api) ==> ch.game.id == cs[k].game.id)
  {
    SelectFromSpec(cs, game, api, None);
    if Found(SelectStreamers(cs, game, api)) {
      var k :| Minable(cs, game, api, k)
        && SelectStreamers(cs, game, api).value == CampaignStreamers(cs[k], api)
        && forall k' :: 0 <= k' < k ==> !Minable(cs, game, api, k');
      if cs[k].channelsEnabled {
        forall ch | ch in CampaignStreamers(cs[k], api)
          ensures ch.game.id == cs[k].game.id
        {
          OnlineChannelsSpec(api.channelsInformation(cs[k].channels), cs[k].game.id, ch);
        }
      }
    }
  }

  /** The retry loop of `pick_streamer` over successive platform snapshots,
      one per attempt: the first element of the first non-empty list, or
      `None` while no attempt has found one. */
  function PickFrom(cs: seq<Campaign>, game: Option<string>, snapshots: seq<Platform>): Option<Channel>
  {
    if snapshots == [] then None
    else
      var r := SelectStreamers(cs, game, snapshots[0]);
      if Found(r) then Some(r.value[0]) else PickFrom(cs, game, snapshots[1..])
  }

  /** `pick_streamer` gives up on no attempt: it returns nothing exactly while
      every attempt so far found no streamer, and otherwise the first streamer
      of the first attempt that found some. */
  lemma {:induction false} PickFromSpec(cs: seq<Campaign>, game: Option<string>, snapshots: seq<Platform>)
    ensures PickFrom(cs, game, snapshots).None? <==>
      forall k :: 0 <= k < |snapshots| ==> !Found(SelectStreamers(cs, game, snapshots[k]))
    ensures PickFrom(cs, game, snapshots).Some? ==>
      exists k :: 0 <= k < |snapshots|
        && Found(SelectStreamers(cs, game, snapshots[k]))
        && PickFrom(cs, game, snapshots).value == SelectStreamers(cs, game, snapshots[k]).value[0]
        && forall k' :: 0 <= k' < k ==> !Found(SelectStreamers(cs, game, snapshots[k']))
  {
    if snapshots != [] && !Found(SelectStreamers(cs, game, snapshots[0])) {
      var rest := snapshots[1..];
      PickFromSpec(cs, game, rest);
      assert forall k :: 0 <= k < |rest| ==> rest[k] == snapshots[k + 1];
      if PickFrom(cs, game, snapshots).Some? {
        var k :| 0 <= k < |rest|
          && Found(SelectStreamers(cs, game, rest[k]))
          && PickFrom(cs, game, rest).value == SelectStreamers(cs, game, rest[k]).value[0]
          && forall k' :: 0 <= k' < k ==> !Found(SelectStreamers(cs, game, rest[k']));
        assert Found(SelectStreamers(cs, game, snapshots[k + 1]));
        forall k' | 0 <= k' < k + 1
          ensures !Found(SelectStreamers(cs, game, snapshots[k']))
        {
          if k' > 0 {
            assert snapshots[k'] == rest[k' - 1];
          }
        }
      } else {
        forall k | 0 <= k < |snapshots|
          ensures !Found(SelectStreamers(cs, game, snapshots[k]))
        {
          if k > 0 {
            assert snapshots[k] == rest[k - 1];
          }
        }
      }
    }
  }
}
