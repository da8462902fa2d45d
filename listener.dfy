/** The listener task `handle_websocket`: how one received message changes
    the shared session fields, and when it ends the task with an exception. */
module Listener {
  import opened Entities

  const CREATE_NOTIFICATION := "create-notification"
  const REMINDER := "user_drop_reward_reminder_notification"
  const BROADCAST_SETTINGS_UPDATE := "broadcast_settings_update"

  /** The object at `message["data"]["notification"]`: its `type` and, if it
      has one, a `topic` key. */
  datatype Notification = Notification(kind: Option<string>, topic: Option<string>)

  /** The parsed `message` of a frame. `None` stands for a missing key:
      `type`, `data.notification`, `game_id` (whose value may be null). */
  datatype Message = Message(
    kind: Option<string>,
    notification: Option<Notification>,
    gameId: Option<Option<string>>)

  /** What `receive_message` returns: `None`, an empty dictionary, or a
      non-empty dictionary that may lack its `topic` or `message` key. */
  datatype Data = NoData | EmptyDict | Frame(topic: Option<string>, message: Option<Message>)

  /** The fields shared by the listener and the watch loop, and whether the
      listener task is still running. */
  datatype Session = Session(
    needMine: bool,
    currentGame: Option<string>,
    currentChannel: Option<Channel>,
    listening: bool)

  function OnsiteTopic(userId: string): string
  {
    "onsite-notifications." + userId
  }

  /** `str(None)` is `"None"`; a channel's string form is its `topicName`. */
  function ChannelName(ch: Option<Channel>): string
  {
    match ch
    case None => "None"
    case Some(c) => c.topicName
  }

  function BroadcastTopic(ch: Option<Channel>): string
  {
    "broadcast-settings-update." + ChannelName(ch)
  }

  lemma TopicsDiffer(userId: string, ch: Option<Channel>)
    ensures OnsiteTopic(userId) != BroadcastTopic(ch)
  {
    assert OnsiteTopic(userId)[0] == 'o';
    assert BroadcastTopic(ch)[0] == 'b';
  }

  /** A drop-reward reminder on the user's notification topic. */
  predicate IsReminder(d: Data, userId: string)
  {
    && d.Frame?
    && d.message.Some?
    && d.topic == Some(OnsiteTopic(userId))
    && d.message.value.kind == Some(CREATE_NOTIFICATION)
    && d.message.value.notification.Some?
    && d.message.value.notification.value.kind == Some(REMINDER)
  }

  /** A broadcast-settings update, with a `game_id`, on the topic of `ch`. */
  predicate IsGameUpdate(d: Data, ch: Option<Channel>)
  {
    && d.Frame?
    && d.message.Some?
    && d.topic == Some(BroadcastTopic(ch))
    && d.message.value.kind == Some(BROADCAST_SETTINGS_UPDATE)
    && d.message.value.gameId.Some?
  }

  /** The message raises in the listener: `None` data fails the guard's
      `data.get`, a missing key raises `KeyError`, and after a
      create-notification `data` is the notification, whose own `topic` key is
      looked up next. */
  predicate ListenerFails(d: Data, userId: string, ch: Option<Channel>)
  {
    match d
    case NoData => true
    case EmptyDict => false
    case Frame(topic, message) =>
      || message.None?
      || topic.None?
      || (if topic.value == OnsiteTopic(userId) then
            || message.value.kind.None?
            || (&& message.value.kind == Some(CREATE_NOTIFICATION)
                && (|| message.value.notification.None?
                    || message.value.notification.value.kind.None?
                    || message.value.notification.value.topic.None?))
          else
            && topic.value == BroadcastTopic(ch)
            && (|| message.value.kind.None?
                || (message.value.kind == Some(BROADCAST_SETTINGS_UPDATE) && message.value.gameId.None?)))
  }

  /** The effect of one message on the session: a reminder clears `needMine`,
      a game update on the current channel's topic sets `currentGame`, nothing
      else changes either, and a failing message ends the listener. */
  function Receive(s: Session, userId: string, d: Data): Session
  {
    Session(
      s.needMine && !IsReminder(d, userId),
      if IsGameUpdate(d, s.currentChannel) then d.message.value.gameId.value else s.currentGame,
      s.currentChannel,
      s.listening && !ListenerFails(d, userId, s.currentChannel))
  }

  /** The messages of one await window, handled in order while the listener
      runs; those after a failure are never read. */
  function Deliver(s: Session, userId: string, batch: seq<Data>): Session
    decreases |batch|
  {
    if batch == [] || !s.listening then s
    else Deliver(Receive(s, userId, batch[0]), userId, batch[1..])
  }

  /** A delivery never changes the current channel, never sets `needMine`
      back to true, never restarts a stopped listener, and changes
      `currentGame` only to the `game_id` of a game update for the current
      channel among the messages delivered. */
  lemma {:induction false} DeliverSpec(s: Session, userId: string, batch: seq<Data>)
    ensures Deliver(s, userId, batch).currentChannel == s.currentChannel
    ensures Deliver(s, userId, batch).needMine ==> s.needMine
    ensures Deliver(s, userId, batch).listening ==> s.listening
    ensures Deliver(s, userId, batch).currentGame != s.currentGame ==>
      exists k :: 0 <= k < |batch| && IsGameUpdate(batch[k], s.currentChannel)
        && Deliver(s, userId, batch).currentGame == batch[k].message.value.gameId.value
    decreases |batch|
  {
    if batch != [] && s.listening {
      var s' := Receive(s, userId, batch[0]);
      DeliverSpec(s', userId, batch[1..]);
      if Deliver(s, userId, batch).currentGame != s'.currentGame {
        var k :| 0 <= k < |batch[1..]| && IsGameUpdate(batch[1..][k], s'.currentChannel)
          && Deliver(s', userId, batch[1..]).currentGame == batch[1..][k].message.value.gameId.value;
        assert batch[k + 1] == batch[1..][k];
      }
    }
  }

  /** Once the listener has stopped, no message changes the session. */
  lemma DeliverStopped(s: Session, userId: string, batch: seq<Data>)
    requires !s.listening
    ensures Deliver(s, userId, batch) == s
  {
  }

  /** The line-43 rebinding: a reminder whose notification object has no
      `topic` key still clears `needMine`, and then the lookup of that key
      ends the listener. */
  lemma ReminderWithoutTopicEndsListener(s: Session, userId: string, d: Data)
    requires IsReminder(d, userId) && d.message.value.notification.value.topic.None?
    ensures Receive(s, userId, d) == s.(needMine := false, listening := false)
  {
  }
}
