/** The records the miner works on. They stand for the `Campaign` and `Channel`
    objects and the JSON dictionaries of the platform's API, holding only the
    fields the miner reads. */
module Entities {

  datatype Option<+T> = None | Some(value: T)

  /** Python truthiness of an optional string: `None` and `""` are falsy. */
  predicate IsTruthy(s: Option<string>)
  {
    s.Some? && s.value != ""
  }

  /** The `game` dictionary of a campaign or a channel. */
  datatype Game = Game(id: string, displayName: string, slug: string)

  /** One drop of a campaign: `id_`, `name`, `claimed`, `required_time`,
      `watched_time` and `instanceId`. */
  datatype Drop = Drop(
    id: string,
    name: string,
    claimed: bool,
    requiredTime: int,
    watchedTime: int,
    instanceId: string)

  /** A drop campaign: its drops in the platform's order, and either an
      allow-list of channel ids (`channelsEnabled`) or discovery by game. */
  datatype Campaign = Campaign(
    id: string,
    name: string,
    game: Game,
    drops: seq<Drop>,
    channelsEnabled: bool,
    channels: seq<string>)

  /** A channel that can be watched. `topicName` is what `str(channel)` gives,
      the suffix of the channel's broadcast-settings topic. */
  datatype Channel = Channel(id: string, nickname: string, game: Game, topicName: string)

  /** The calls the miner makes on the platform that change or request
      something, in the order it makes them. */
  datatype Action =
    | FetchFullCampaigns(ids: seq<string>)
    | ClaimDrop(instanceId: string)
    | SwitchChannelTopic(channelId: string)
    | SendWatch(nickname: string)
}
