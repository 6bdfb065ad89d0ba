/** The names of the Redis channels (app/realtime/hub.py). */
module Channels {
  import opened Basics
  import ChatStore

  const CHANNEL_PREFIX := "chat:"

  function UserChannel(user: string): string {
    CHANNEL_PREFIX + "user:" + user
  }

  function TopicChannel(topic: string): string {
    CHANNEL_PREFIX + topic
  }

  function ControlChannel(replica: string): string {
    CHANNEL_PREFIX + "replica:" + replica
  }

  /** `startswith(prefix)`, then cutting the prefix off: the user that a channel belongs to. */
  function UserOf(channel: string): Option<string> {
    var prefix := UserChannel("");
    if prefix <= channel then Some(channel[|prefix|..]) else None
  }

  /** A channel is some user's exactly if it is built from that user's id, colons included. */
  lemma UserOfChannel(channel: string, user: string)
    ensures UserOf(channel) == Some(user) <==> channel == UserChannel(user)
  {
    var prefix := UserChannel("");
    assert UserChannel(user) == prefix + user;
    if prefix <= channel {
      assert channel == prefix + channel[|prefix|..];
    }
    assert (prefix + user)[|prefix|..] == user;
  }

  /** An outbox topic leads to its user's channel. */
  lemma TopicReachesUser(user: string)
    ensures TopicChannel(ChatStore.UserTopic(user)) == UserChannel(user)
    ensures UserOf(TopicChannel(ChatStore.UserTopic(user))) == Some(user)
  {
    assert CHANNEL_PREFIX + ("user:" + user) == CHANNEL_PREFIX + "user:" + user;
    UserOfChannel(UserChannel(user), user);
  }

  lemma ControlIsNoUser(replica: string)
    ensures UserOf(ControlChannel(replica)) == None
  {
    assert ControlChannel(replica)[5] == 'r' && UserChannel("")[5] == 'u';
  }
}
