/**
 * An IRC protocol message as the transport layer hands it over: the command
 * token, the ordered parameters, the IRCv3 tag dictionary and the sender.
 */
module Irc {
  import opened Wrappers

  /** Tag name to raw tag value; an absent key is different from an empty value. */
  type Tags = map<string, string>

  /**
   * `action` is the transport's decoding of a CTCP ACTION ("/me") body;
   * the parameters then hold the content without the CTCP markers.
   */
  datatype IrcMessage = IrcMessage(
    command: string,
    params: seq<string>,
    tags: Tags,
    nick: string,
    action: bool)

  /** Parameter `i`, or the empty string when there are not that many. */
  function Param(m: IrcMessage, i: nat): (p: string)
    ensures i < |m.params| ==> p == m.params[i]
    ensures i >= |m.params| ==> p == ""
  {
    if i < |m.params| then m.params[i] else ""
  }

  /** The value of tag `key`, if the message carries it. */
  function Tag(m: IrcMessage, key: string): (v: Option<string>)
    ensures v.Some? <==> key in m.tags
    ensures v.Some? ==> v.value == m.tags[key]
  {
    if key in m.tags then Some(m.tags[key]) else None
  }

  /** The value of tag `key`, or `default` when it is absent. */
  function TagOr(m: IrcMessage, key: string, default: string): string
  {
    Tag(m, key).GetOr(default)
  }
}
