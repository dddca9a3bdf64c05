/** The Twitch IRC server's channel registry, as far as the handlers use it. */
module TwitchServer {
  import opened Wrappers
  import opened TwitchChannels

  class Server {
    /** The open channels by canonical name. */
    var channels: map<string, Channel>
    /** The client's own channels (whispers, mentions) that receive broadcasts. */
    var specialChannels: set<Channel>

    constructor()
      ensures channels == map[] && specialChannels == {}
    {
      channels := map[];
      specialChannels := {};
    }

    /** `getChannelOrEmpty`: the channel of that name, or none for the empty channel. */
    function GetChannel(name: string): (r: Option<Channel>)
      reads this
      ensures r.Some? <==> name in channels
      ensures r.Some? ==> r.value == channels[name] && r.value in channels.Values
    {
      if name in channels then Some(channels[name]) else None
    }

    /** Every channel a broadcast reaches: the open channels and the special ones. */
    function AllChannels(): (all: set<Channel>)
      reads this
      ensures channels.Values <= all && specialChannels <= all
    {
      channels.Values + specialChannels
    }
  }
}
