/**
 * Inbound Twitch IRC event handling: the badge-tag parser, the pure parsers
 * that turn PRIVMSG, USERNOTICE and NOTICE events into chat messages, and the
 * handlers that apply ROOMSTATE, USERSTATE, MODE, CLEARCHAT, CLEARMSG and
 * NOTICE events to channel state.
 */
module IrcMessageHandler {
  import opened Wrappers
  import opened Text
  import opened Irc
  import opened TwitchHelpers
  import opened Messages
  import opened TwitchChannels
  import opened TwitchServer

  /**
   * Code the handlers call but that lives elsewhere: the message builder's
   * policies, whether the local user is the broadcaster of a channel,
   * `QString::toInt`, the IRCv3 tag-value unescaper, and the message store's
   * policy for coalescing a new timeout notice with earlier ones.
   */
  datatype Collaborators = Collaborators(
    builder: Builder,
    isBroadcaster: string -> bool,
    toInt: string -> int,
    parseTagString: string -> string,
    timeoutPolicy: (seq<Message>, Message) -> seq<Message>)

  const ClearedText := "Chat has been cleared by a moderator."
  const LoginExpiredText := "Login expired! Try logging in again."
  const UsageDeleteText := "Usage: \"/delete <msg-id>\" - can't take more than one argument"

  // ---------------------------------------------------------------------------
  // Badges: "name1/version1,name2/version2,..."

  /** A comma-separated entry is a badge when it splits on `/` into exactly two parts. */
  predicate IsBadgeEntry(entry: string)
  {
    |Split(entry, '/')| == 2
  }

  function BadgeName(entry: string): string
    requires IsBadgeEntry(entry)
  {
    Split(entry, '/')[0]
  }

  function BadgeVersion(entry: string): string
    requires IsBadgeEntry(entry)
  {
    Split(entry, '/')[1]
  }

  /** Entry `entry` is a badge named `name`. */
  predicate Names(entry: string, name: string)
  {
    IsBadgeEntry(entry) && BadgeName(entry) == name
  }

  /** Some well-formed entry of `entries` is a badge named `name`. */
  predicate SomeEntryNames(entries: seq<string>, name: string)
  {
    exists j :: 0 <= j < |entries| && Names(entries[j], name)
  }

  /** The badge map built from `entries` in order, each insert replacing an earlier one. */
  function BadgeMap(entries: seq<string>): map<string, string>
    decreases |entries|
  {
    if entries == [] then map[]
    else
      var m := BadgeMap(entries[..|entries| - 1]);
      var entry := entries[|entries| - 1];
      if IsBadgeEntry(entry) then m[BadgeName(entry) := BadgeVersion(entry)] else m
  }

  /** Best-effort badge parse: never fails, malformed entries are skipped. */
  method ParseBadges(badgesString: string) returns (badges: map<string, string>)
    ensures badges == BadgeMap(Split(badgesString, ','))
  {
    badges := map[];
    var entries := Split(badgesString, ',');
    var i := 0;
    while i < |entries|
      invariant 0 <= i <= |entries|
      invariant badges == BadgeMap(entries[..i])
    {
      assert entries[..i + 1][..i] == entries[..i];
      var parts := Split(entries[i], '/');
      if |parts| == 2 {
        badges := badges[parts[0] := parts[1]];
      }
      i := i + 1;
    }
    assert entries[..i] == entries;
  }

  /** A badge is present exactly when some well-formed entry names it. */
  lemma {:induction false} BadgeMapKeys(entries: seq<string>, name: string)
    ensures name in BadgeMap(entries) <==> SomeEntryNames(entries, name)
    decreases |entries|
  {
    if entries != [] {
      var n := |entries|;
      var init := entries[..n - 1];
      BadgeMapKeys(init, name);
      if Names(entries[n - 1], name) {
      } else if name in BadgeMap(init) {
        var j :| 0 <= j < |init| && Names(init[j], name);
        assert Names(entries[j], name);
      } else {
        forall j | 0 <= j < n
          ensures !Names(entries[j], name)
        {
          if j < n - 1 {
            assert entries[j] == init[j];
          }
        }
      }
    }
  }

  /** A repeated badge name keeps the version of its last well-formed entry. */
  lemma {:induction false} BadgeMapLastWins(entries: seq<string>, name: string)
    requires name in BadgeMap(entries)
    ensures exists j ::
      && 0 <= j < |entries|
      && Names(entries[j], name)
      && BadgeMap(entries)[name] == BadgeVersion(entries[j])
      && forall k :: j < k < |entries| ==> !Names(entries[k], name)
    decreases |entries|
  {
    var n := |entries|;
    var init := entries[..n - 1];
    if Names(entries[n - 1], name) {
      assert BadgeMap(entries)[name] == BadgeVersion(entries[n - 1]);
    } else {
      assert name in BadgeMap(init) && BadgeMap(entries)[name] == BadgeMap(init)[name];
      BadgeMapLastWins(init, name);
      var j :| 0 <= j < |init| && Names(init[j], name)
        && BadgeMap(init)[name] == BadgeVersion(init[j])
        && forall k :: j < k < |init| ==> !Names(init[k], name);
      assert entries[j] == init[j];
      forall k | j < k < n
        ensures !Names(entries[k], name)
      {
        if k < n - 1 {
          assert entries[k] == init[k];
        }
      }
    }
  }

  /** An entry `x/y` with no further `/` is the badge `x` at version `y`, and nothing else is. */
  lemma BadgeEntryShape(x: string, y: string)
    requires '/' !in x && '/' !in y
    ensures IsBadgeEntry(x + "/" + y)
    ensures BadgeName(x + "/" + y) == x && BadgeVersion(x + "/" + y) == y
  {
    SplitJoin([x, y], '/');
    assert Join([x, y], '/') == x + "/" + y;
  }

  // ---------------------------------------------------------------------------
  // Parsers: protocol message to built messages

  /** The builder input of a PRIVMSG: default parse arguments, parameter 1 as content. */
  function PrivInput(channel: string, m: IrcMessage): BuildInput
  {
    BuildInput(channel, m, DefaultParseArgs, Param(m, 1), m.action)
  }

  /** PRIVMSG: one built message, or none when the ignore policy suppresses it. */
  function ParsePrivMessage(channel: string, m: IrcMessage, b: Builder): (r: seq<Message>)
    ensures |r| <= 1
    ensures r == [] <==> b.isIgnored(PrivInput(channel, m))
    ensures r != [] ==> r[0].kind == Chat(PrivInput(channel, m)) && r[0].flags <= {Highlighted}
    ensures r != [] ==> (Highlighted in r[0].flags <==> b.isHighlighted(PrivInput(channel, m)))
  {
    var input := PrivInput(channel, m);
    if b.isIgnored(input) then [] else [Build(b, input, {})]
  }

  predicate IsSubEvent(msgType: string)
  {
    msgType == "sub" || msgType == "resub" || msgType == "subgift"
  }

  /** A USERNOTICE carries subscriber content: a sub event with a non-empty parameter 1. */
  predicate HasSubContent(m: IrcMessage)
  {
    IsSubEvent(TagOr(m, "msg-id", "")) && Param(m, 1) != ""
  }

  /** The builder input of a subscriber message: usernames trimmed, parameter 1 as content. */
  function SubInput(channel: string, m: IrcMessage): BuildInput
  {
    BuildInput(channel, m, ParseArgs(true, false, false), Param(m, 1), false)
  }

  /** The subscription-flagged system message made from a `system-msg` tag value. */
  function SubSystemMessage(m: IrcMessage, env: Collaborators): Message
    requires "system-msg" in m.tags
  {
    var s := SystemMessage(env.parseTagString(m.tags["system-msg"]));
    s.(flags := s.flags + {Subscription})
  }

  /**
   * USERNOTICE: the subscriber's own content (sub, resub, subgift with
   * non-empty content), then the `system-msg` notice when that tag is present.
   * Every message is subscription-flagged and none is highlighted. An event
   * without the channel parameter is dropped and yields nothing.
   */
  function ParseUserNoticeMessage(channel: string, m: IrcMessage, env: Collaborators): (r: seq<Message>)
    ensures |m.params| == 0 ==> r == []
    ensures |m.params| >= 1 ==>
      |r| == (if HasSubContent(m) then 1 else 0) + (if "system-msg" in m.tags then 1 else 0)
    ensures forall i :: 0 <= i < |r| ==> Subscription in r[i].flags && Highlighted !in r[i].flags
    ensures HasSubContent(m) ==> r[0].kind == Chat(SubInput(channel, m))
    ensures "system-msg" in m.tags && |m.params| >= 1 ==>
      r[|r| - 1].kind == SystemText(env.parseTagString(m.tags["system-msg"]))
  {
    if |m.params| < 1 then []
    else
      var content := if HasSubContent(m)
        then [Build(env.builder, SubInput(channel, m), {Subscription})]
        else [];
      var system := if "system-msg" in m.tags then [SubSystemMessage(m, env)] else [];
      content + system
  }

  /**
   * USERNOTICE as written: `parameters[0]` is read before anything checks that
   * the parameter list is non-empty, so the code demands at least one parameter.
   */
  function ParseUserNoticeMessageAsWritten(channel: string, m: IrcMessage, env: Collaborators): (r: seq<Message>)
    requires |m.params| >= 1
    ensures r == ParseUserNoticeMessage(channel, m, env)
  {
    var target := m.params[0];
    var content := if HasSubContent(m)
      then [Build(env.builder, SubInput(channel, m), {Subscription})]
      else [];
    var system := if "system-msg" in m.tags then [SubSystemMessage(m, env)] else [];
    content + system
  }

  /**
   * A USERNOTICE the dispatcher routes to the parser but that the as-written
   * parser cannot index; the corrected parser drops it.
   */
  lemma UserNoticeWithoutParameters(env: Collaborators)
    ensures var m := IrcMessage("USERNOTICE", [], map["msg-id" := "resub", "system-msg" := "x"], "", false);
      ParseMessage("c", m, env) == ParseUserNoticeMessage("c", m, env)
      && ParseMessage("c", m, env) == []
      && !(|m.params| >= 1)
  {
  }

  /** NOTICE: one system message, the canned "login expired" text for a failed login. */
  function ParseNoticeMessage(m: IrcMessage): (r: seq<Message>)
    ensures |r| == 1 && r[0].flags == {System}
    ensures r[0].kind == SystemText(
      if StartsWithIgnoreCase(Param(m, 1), "Login auth") then LoginExpiredText else Param(m, 1))
  {
    if StartsWithIgnoreCase(Param(m, 1), "Login auth")
    then [SystemMessage(LoginExpiredText)]
    else [SystemMessage(Param(m, 1))]
  }

  /** The "login expired" decision ignores the letter case of the content. */
  lemma NoticeIgnoresCase(m1: IrcMessage, m2: IrcMessage)
    requires |Param(m1, 1)| == |Param(m2, 1)|
    requires forall i :: 0 <= i < |Param(m1, 1)| ==> LowerAscii(Param(m1, 1)[i]) == LowerAscii(Param(m2, 1)[i])
    ensures StartsWithIgnoreCase(Param(m1, 1), "Login auth") <==> StartsWithIgnoreCase(Param(m2, 1), "Login auth")
    ensures StartsWithIgnoreCase(Param(m1, 1), "Login auth") ==>
      ParseNoticeMessage(m1) == ParseNoticeMessage(m2) == [SystemMessage(LoginExpiredText)]
  {
  }

  /** An upper-case "LOGIN AUTHENTICATION FAILED" notice still reports an expired login. */
  lemma NoticeUpperCaseLoginAuth(m: IrcMessage)
    requires Param(m, 1) == "LOGIN AUTHENTICATION FAILED"
    ensures ParseNoticeMessage(m) == [SystemMessage(LoginExpiredText)]
  {
    assert StartsWithIgnoreCase(Param(m, 1), "Login auth") by {
      forall i | 0 <= i < |"Login auth"|
        ensures LowerAscii(Param(m, 1)[i]) == LowerAscii("Login auth"[i])
      {
      }
    }
  }

  /** The dispatcher: PRIVMSG, USERNOTICE and NOTICE are parsed; anything else yields nothing. */
  function ParseMessage(channel: string, m: IrcMessage, env: Collaborators): (r: seq<Message>)
    ensures m.command == "PRIVMSG" ==> r == ParsePrivMessage(channel, m, env.builder)
    ensures m.command == "USERNOTICE" ==> r == ParseUserNoticeMessage(channel, m, env)
    ensures m.command == "NOTICE" ==> r == ParseNoticeMessage(m)
    ensures m.command != "PRIVMSG" && m.command != "USERNOTICE" && m.command != "NOTICE" ==> r == []
    ensures |r| <= 2
  {
    if m.command == "PRIVMSG" then ParsePrivMessage(channel, m, env.builder)
    else if m.command == "USERNOTICE" then ParseUserNoticeMessage(channel, m, env)
    else if m.command == "NOTICE" then ParseNoticeMessage(m)
    else []
  }

  /** A resub with content and a `system-msg` yields exactly two subscription messages. */
  lemma ResubYieldsTwoMessages(channel: string, m: IrcMessage, env: Collaborators)
    requires m.command == "USERNOTICE" && TagOr(m, "msg-id", "") == "resub"
    requires Param(m, 1) != "" && "system-msg" in m.tags
    ensures var r := ParseMessage(channel, m, env);
      |r| == 2 && r[0].kind == Chat(SubInput(channel, m))
      && Subscription in r[0].flags && Highlighted !in r[0].flags
      && Subscription in r[1].flags && System in r[1].flags
  {
  }

  // ---------------------------------------------------------------------------
  // Channel state updates, as functions of the previous state

  /** ROOMSTATE room modes: each field overwritten only when its tag is present. */
  function RoomModesAfter(modes: RoomModes, tags: Tags, toInt: string -> int): (r: RoomModes)
    ensures r.emoteOnly == if "emote-only" in tags then tags["emote-only"] == "1" else modes.emoteOnly
    ensures r.submode == if "subs-only" in tags then tags["subs-only"] == "1" else modes.submode
    ensures r.slowMode == if "slow" in tags then toInt(tags["slow"]) else modes.slowMode
    ensures r.r9k == if "r9k" in tags then tags["r9k"] == "1" else modes.r9k
    ensures r.broadcasterLang == if "broadcaster-lang" in tags then tags["broadcaster-lang"] else modes.broadcasterLang
    ensures r.followerOnly == if "followers-only" in tags then toInt(tags["followers-only"]) else modes.followerOnly
  {
    var r := modes;
    var r := if "emote-only" in tags then r.(emoteOnly := tags["emote-only"] == "1") else r;
    var r := if "subs-only" in tags then r.(submode := tags["subs-only"] == "1") else r;
    var r := if "slow" in tags then r.(slowMode := toInt(tags["slow"])) else r;
    var r := if "r9k" in tags then r.(r9k := tags["r9k"] == "1") else r;
    var r := if "broadcaster-lang" in tags then r.(broadcasterLang := tags["broadcaster-lang"]) else r;
    if "followers-only" in tags then r.(followerOnly := toInt(tags["followers-only"])) else r
  }

  const RoomModeTags := {"emote-only", "subs-only", "slow", "r9k", "broadcaster-lang", "followers-only"}

  /** An event without any room-mode tag leaves the room modes exactly as they were. */
  lemma RoomModesUntouched(modes: RoomModes, tags: Tags, toInt: string -> int)
    requires tags.Keys !! RoomModeTags
    ensures RoomModesAfter(modes, tags, toInt) == modes
  {
    assert "emote-only" !in tags && "subs-only" !in tags && "slow" !in tags;
    assert "r9k" !in tags && "broadcaster-lang" !in tags && "followers-only" !in tags;
  }

  /** Two incremental updates in a row are one update with the later tags winning. */
  lemma RoomModesCompose(modes: RoomModes, first: Tags, second: Tags, toInt: string -> int)
    ensures RoomModesAfter(RoomModesAfter(modes, first, toInt), second, toInt)
         == RoomModesAfter(modes, first + second, toInt)
  {
  }

  /** Replaying the same ROOMSTATE event changes nothing more. */
  lemma RoomModesRepeat(modes: RoomModes, tags: Tags, toInt: string -> int)
    ensures RoomModesAfter(RoomModesAfter(modes, tags, toInt), tags, toInt) == RoomModesAfter(modes, tags, toInt)
  {
    RoomModesCompose(modes, tags, tags, toInt);
    assert tags + tags == tags;
  }

  /** ROOMSTATE: the room id is overwritten whenever the tag is present, and the room modes updated. */
  function RoomStateAfter(s: ChannelState, tags: Tags, toInt: string -> int): (r: ChannelState)
    ensures r.roomId == if "room-id" in tags then tags["room-id"] else s.roomId
    ensures r.roomModes == RoomModesAfter(s.roomModes, tags, toInt)
    ensures r.(roomId := s.roomId, roomModes := s.roomModes) == s
  {
    var s := if "room-id" in tags then s.(roomId := tags["room-id"]) else s;
    s.(roomModes := RoomModesAfter(s.roomModes, tags, toInt))
  }

  /** USERSTATE: VIP and staff from a present `badges` tag, mod from a present `mod` tag. */
  function UserStateAfter(s: ChannelState, tags: Tags): (r: ChannelState)
    ensures r.vip == if "badges" in tags then "vip" in BadgeMap(Split(tags["badges"], ',')) else s.vip
    ensures r.staff == if "badges" in tags then "staff" in BadgeMap(Split(tags["badges"], ',')) else s.staff
    ensures r.mod == if "mod" in tags then tags["mod"] == "1" else s.mod
    ensures r.(vip := s.vip, staff := s.staff, mod := s.mod) == s
  {
    var s := if "badges" in tags
      then
        var badges := BadgeMap(Split(tags["badges"], ','));
        s.(vip := "vip" in badges, staff := "staff" in badges)
      else s;
    if "mod" in tags then s.(mod := tags["mod"] == "1") else s
  }

  /** With a `badges` tag, VIP holds exactly when some well-formed badge entry is named "vip". */
  lemma UserStateVip(s: ChannelState, tags: Tags)
    requires "badges" in tags
    ensures var entries := Split(tags["badges"], ',');
      UserStateAfter(s, tags).vip <==> SomeEntryNames(entries, "vip")
  {
    var entries := Split(tags["badges"], ',');
    BadgeMapKeys(entries, "vip");
    assert UserStateAfter(s, tags).vip == ("vip" in BadgeMap(entries));
  }

  /** With a `badges` tag, staff holds exactly when some well-formed badge entry is named "staff". */
  lemma UserStateStaff(s: ChannelState, tags: Tags)
    requires "badges" in tags
    ensures var entries := Split(tags["badges"], ',');
      UserStateAfter(s, tags).staff <==> SomeEntryNames(entries, "staff")
  {
    var entries := Split(tags["badges"], ',');
    BadgeMapKeys(entries, "staff");
    assert UserStateAfter(s, tags).staff == ("staff" in BadgeMap(entries));
  }

  /** The timeout notice of a CLEARCHAT naming a user; absent tags read as "". */
  function TimeoutFor(m: IrcMessage): Message
  {
    TimeoutMessage(Param(m, 1), TagOr(m, "ban-duration", ""), TagOr(m, "ban-reason", ""), false)
  }

  /** CLEARCHAT on a resolved channel: a whole-channel clear or a per-user timeout notice. */
  function ClearChatAfter(s: ChannelState, m: IrcMessage, policy: (seq<Message>, Message) -> seq<Message>): (r: ChannelState)
    ensures r.(messages := s.messages) == s
    ensures |m.params| <= 1 ==>
      |r.messages| == |s.messages| + 1 &&
      r.messages[|s.messages|] == SystemMessage(ClearedText) &&
      forall i :: 0 <= i < |s.messages| ==>
        r.messages[i].kind == s.messages[i].kind && Disabled in r.messages[i].flags
    ensures |m.params| > 1 ==> r.messages == policy(s.messages, TimeoutFor(m))
  {
    if |m.params| <= 1 then s.(messages := DisableAll(s.messages) + [SystemMessage(ClearedText)])
    else s.(messages := policy(s.messages, TimeoutFor(m)))
  }

  /** A timeout carries the target user and the ban tags verbatim; an absent tag reads as "". */
  lemma TimeoutCarriesTags(m: IrcMessage)
    ensures TimeoutFor(m).kind.TimeoutNotice? && TimeoutFor(m).kind.user == Param(m, 1)
    ensures "ban-duration" in m.tags ==> TimeoutFor(m).kind.duration == m.tags["ban-duration"]
    ensures "ban-duration" !in m.tags ==> TimeoutFor(m).kind.duration == ""
    ensures "ban-reason" in m.tags ==> TimeoutFor(m).kind.reason == m.tags["ban-reason"]
    ensures "ban-reason" !in m.tags ==> TimeoutFor(m).kind.reason == ""
    ensures !TimeoutFor(m).kind.multipleTimes && TimeoutFor(m).flags == {System, Timeout}
  {
  }

  /** The worked example: user "bob" timed out for 600 seconds for "spam". */
  lemma TimeoutExample(m: IrcMessage)
    requires Param(m, 1) == "bob" && Tag(m, "ban-duration") == Some("600") && Tag(m, "ban-reason") == Some("spam")
    ensures TimeoutFor(m).kind == TimeoutNotice("bob", "600", "spam", false)
  {
  }

  /** MODE: both `+o` and `-o` append the nick; other modes leave the list alone. */
  function ModListAfter(modList: seq<string>, mode: string, nick: string): (r: seq<string>)
    ensures mode == "+o" || mode == "-o" ==> |r| == |modList| + 1 && r[..|modList|] == modList && r[|modList|] == nick
    ensures mode != "+o" && mode != "-o" ==> r == modList
  {
    if mode == "+o" then modList + [nick]
    else if mode == "-o" then modList + [nick]
    else modList
  }

  /** Revoking moderator status does not take the nick off the list. */
  lemma RevokeKeepsNick(modList: seq<string>, nick: string)
    ensures nick in ModListAfter(modList, "-o", nick)
    ensures multiset(ModListAfter(modList, "-o", nick))[nick] == multiset(modList)[nick] + 1
  {
  }

  // ---------------------------------------------------------------------------
  // Handlers that change channel state

  /** The channel a handler acts on: its target token trimmed and looked up. */
  function Resolve(server: Server, target: string): (r: Option<Channel>)
    reads server
    ensures r.Some? ==> r.value in server.channels.Values
    ensures TrimChannelName(target).None? ==> r.None?
    ensures TrimChannelName(target).Some? && TrimChannelName(target).value in server.channels ==>
      r == Some(server.channels[TrimChannelName(target).value])
    ensures TrimChannelName(target).Some? && TrimChannelName(target).value !in server.channels ==> r.None?
  {
    match TrimChannelName(target)
    case None => None
    case Some(name) => server.GetChannel(name)
  }

  /** Every open channel other than `target`'s is as it was. */
  twostate predicate OthersUnchanged(server: Server, target: Option<Channel>)
    reads server, server.channels.Values
  {
    forall c | c in server.channels.Values && c in old(server.channels.Values) && Some(c) != target ::
      c.State() == old(c.State())
  }

  /** The messages `addMessage` appends for `content`: one unless the ignore policy suppresses a non-sub. */
  function AddedMessages(channel: string, m: IrcMessage, content: string, isSub: bool, isAction: bool, env: Collaborators): (r: seq<Message>)
    ensures |r| <= 1
    ensures var input := BuildInput(channel, m, ParseArgs(isSub, env.isBroadcaster(channel), false), content, isAction);
      && (r != [] ==> r[0].kind == Chat(input))
      && (isSub ==> |r| == 1 && Subscription in r[0].flags && Highlighted !in r[0].flags)
      && (!isSub ==> (r == [] <==> env.builder.isIgnored(input)))
      && (!isSub && r != [] ==> (Highlighted in r[0].flags <==> env.builder.isHighlighted(input)))
  {
    var args := ParseArgs(isSub, env.isBroadcaster(channel), false);
    var input := BuildInput(channel, m, args, content, isAction);
    if isSub || !env.builder.isIgnored(input)
    then [Build(env.builder, input, if isSub then {Subscription} else {})]
    else []
  }

  /** Builds a message for `target`'s channel and appends it to that channel's store. */
  method AddMessage(server: Server, m: IrcMessage, target: string, content: string,
                    isSub: bool, isAction: bool, env: Collaborators)
    modifies server.channels.Values
    ensures OthersUnchanged(server, Resolve(server, target))
    ensures var t := Resolve(server, target);
      t.Some? ==> t.value.State() == old(t.value.State()).(messages :=
        old(t.value.messages) + AddedMessages(t.value.name, m, content, isSub, isAction, env))
  {
    var channelName := TrimChannelName(target);
    if channelName.None? {
      return;
    }
    var chan := server.GetChannel(channelName.value);
    if chan.None? {
      return;
    }
    var c := chan.value;
    var args := ParseArgs(false, false, false);
    if isSub {
      args := args.(trimSubscriberUsername := true);
    }
    if env.isBroadcaster(c.name) {
      args := args.(isStaffOrBroadcaster := true);
    }
    var input := BuildInput(c.name, m, args, content, isAction);
    if isSub || !env.builder.isIgnored(input) {
      var msg := Build(env.builder, input, if isSub then {Subscription} else {});
      c.AddMessage(msg);
    }
  }

  /** The copy of the room modes that ROOMSTATE overwrites field by field. */
  method UpdateRoomModes(modes: RoomModes, tags: Tags, toInt: string -> int) returns (roomModes: RoomModes)
    ensures roomModes == RoomModesAfter(modes, tags, toInt)
  {
    roomModes := modes;
    if "emote-only" in tags {
      roomModes := roomModes.(emoteOnly := tags["emote-only"] == "1");
    }
    if "subs-only" in tags {
      roomModes := roomModes.(submode := tags["subs-only"] == "1");
    }
    if "slow" in tags {
      roomModes := roomModes.(slowMode := toInt(tags["slow"]));
    }
    if "r9k" in tags {
      roomModes := roomModes.(r9k := tags["r9k"] == "1");
    }
    if "broadcaster-lang" in tags {
      roomModes := roomModes.(broadcasterLang := tags["broadcaster-lang"]);
    }
    if "followers-only" in tags {
      roomModes := roomModes.(followerOnly := toInt(tags["followers-only"]));
    }
  }

  /** ROOMSTATE: room id and room modes of a resolved Twitch channel. */
  method HandleRoomStateMessage(server: Server, m: IrcMessage, env: Collaborators)
    modifies server.channels.Values
    ensures var t := Resolve(server, Param(m, 0));
      OthersUnchanged(server, if t.Some? && t.value.twitch then t else None)
    ensures var t := Resolve(server, Param(m, 0));
      t.Some? && t.value.twitch ==> t.value.State() == RoomStateAfter(old(t.value.State()), m.tags, env.toInt)
  {
    var chanName := TrimChannelName(Param(m, 0));
    if chanName.None? {
      return;
    }
    var chan := server.GetChannel(chanName.value);
    if chan.None? || !chan.value.twitch {
      return;
    }
    var tc := chan.value;
    if "room-id" in m.tags {
      tc.SetRoomId(m.tags["room-id"]);
    }
    var roomModes := UpdateRoomModes(tc.roomModes, m.tags, env.toInt);
    tc.SetRoomModes(roomModes);
  }

  /** CLEARCHAT: clears a resolved channel, or hands it a timeout notice for one user. */
  method HandleClearChatMessage(server: Server, m: IrcMessage, env: Collaborators)
    modifies server.channels.Values
    ensures OthersUnchanged(server, Resolve(server, Param(m, 0)))
    ensures var t := Resolve(server, Param(m, 0));
      t.Some? ==> t.value.State() == ClearChatAfter(old(t.value.State()), m, env.timeoutPolicy)
  {
    if |m.params| < 1 {
      return;
    }
    var chanName := TrimChannelName(m.params[0]);
    if chanName.None? {
      return;
    }
    var chan := server.GetChannel(chanName.value);
    if chan.None? {
      return;
    }
    var c := chan.value;
    if |m.params| == 1 {
      c.DisableAllMessages();
      c.AddMessage(SystemMessage(ClearedText));
      return;
    }
    var username := m.params[1];
    var durationInSeconds := "";
    var reason := "";
    if "ban-duration" in m.tags {
      durationInSeconds := m.tags["ban-duration"];
    }
    if "ban-reason" in m.tags {
      reason := m.tags["ban-reason"];
    }
    c.AddOrReplaceTimeout(TimeoutMessage(username, durationInSeconds, reason, false), env.timeoutPolicy);
  }

  /** CLEARMSG: removes the message named by `target-msg-id` ("" when the tag is absent). */
  method HandleClearMessageMessage(server: Server, m: IrcMessage)
    modifies server.channels.Values
    ensures OthersUnchanged(server, Resolve(server, Param(m, 0)))
    ensures var t := Resolve(server, Param(m, 0));
      t.Some? ==> t.value.State() == old(t.value.State()).(messages :=
        WithoutId(old(t.value.messages), TagOr(m, "target-msg-id", "")))
  {
    if |m.params| < 1 {
      return;
    }
    var chanName := TrimChannelName(m.params[0]);
    if chanName.None? {
      return;
    }
    var chan := server.GetChannel(chanName.value);
    if chan.None? {
      return;
    }
    var targetId := TagOr(m, "target-msg-id", "");
    chan.value.DeleteMessage(targetId);
  }

  /** USERSTATE: the local user's VIP, staff and mod status in a resolved Twitch channel. */
  method HandleUserStateMessage(server: Server, m: IrcMessage)
    modifies server.channels.Values
    ensures var t := Resolve(server, Param(m, 0));
      OthersUnchanged(server, if t.Some? && t.value.twitch then t else None)
    ensures var t := Resolve(server, Param(m, 0));
      t.Some? && t.value.twitch ==> t.value.State() == UserStateAfter(old(t.value.State()), m.tags)
  {
    var channelName := TrimChannelName(Param(m, 0));
    if channelName.None? {
      return;
    }
    var chan := server.GetChannel(channelName.value);
    if chan.None? {
      return;
    }
    var c := chan.value;
    if "badges" in m.tags && c.twitch {
      var parsedBadges := ParseBadges(m.tags["badges"]);
      c.SetVIP("vip" in parsedBadges);
      c.SetStaff("staff" in parsedBadges);
    }
    if "mod" in m.tags && c.twitch {
      c.SetMod(m.tags["mod"] == "1");
    }
  }

  /** `parameter(0).remove(0, 1)`: the first character dropped, without any check. */
  function DropFirst(s: string): (r: string)
    ensures s != "" ==> [s[0]] + r == s
    ensures s == "" ==> r == ""
  {
    if s == "" then s else s[1..]
  }

  /** MODE: the mod list of the channel named by parameter 0 without its first character. */
  method HandleModeMessage(server: Server, m: IrcMessage)
    modifies server.channels.Values
    ensures OthersUnchanged(server, server.GetChannel(DropFirst(Param(m, 0))))
    ensures var t := server.GetChannel(DropFirst(Param(m, 0)));
      t.Some? ==> t.value.State() == old(t.value.State()).(modList :=
        ModListAfter(old(t.value.modList), Param(m, 1), Param(m, 2)))
  {
    var chan := server.GetChannel(DropFirst(Param(m, 0)));
    if chan.None? {
      return;
    }
    var c := chan.value;
    if Param(m, 1) == "+o" {
      c.modList := c.modList + [Param(m, 2)];
    } else if Param(m, 1) == "-o" {
      c.modList := c.modList + [Param(m, 2)];
    }
  }

  /** Appends `msg` to every open and special channel. */
  method Broadcast(server: Server, msg: Message)
    modifies server.AllChannels()
    ensures forall c | c in server.AllChannels() ::
      c.State() == old(c.State()).(messages := old(c.messages) + [msg])
  {
    var todo := server.AllChannels();
    while todo != {}
      invariant todo <= server.AllChannels()
      invariant forall c | c in server.AllChannels() && c !in todo ::
        c.State() == old(c.State()).(messages := old(c.messages) + [msg])
      invariant forall c | c in todo :: c.State() == old(c.State())
      decreases todo
    {
      var c :| c in todo;
      c.AddMessage(msg);
      todo := todo - {c};
    }
  }

  /** The message a NOTICE delivers to its single target channel. */
  function NoticeForChannel(m: IrcMessage): Message
  {
    var msgId := TagOr(m, "msg-id", "");
    if msgId == "bad_delete_message_error" || msgId == "usage_delete"
    then SystemMessage(UsageDeleteText)
    else ParseNoticeMessage(m)[0]
  }

  /** A NOTICE goes to every channel when its target is "jtv" or not a channel name. */
  predicate NoticeIsBroadcast(m: IrcMessage)
  {
    var name := TrimChannelName(Param(m, 0));
    name.None? || name.value == "jtv"
  }

  /**
   * NOTICE: the parsed notice is broadcast, or delivered to the target
   * channel (a delete-usage error is replaced by the usage hint).
   */
  method HandleNoticeMessage(server: Server, m: IrcMessage)
    modifies server.AllChannels()
    ensures NoticeIsBroadcast(m) ==> forall c | c in server.AllChannels() ::
      c.State() == old(c.State()).(messages := old(c.messages) + [ParseNoticeMessage(m)[0]])
    ensures !NoticeIsBroadcast(m) ==>
      var t := Resolve(server, Param(m, 0));
      (forall c | c in server.AllChannels() && Some(c) != t :: c.State() == old(c.State()))
      && (t.Some? ==> t.value.State() == old(t.value.State()).(messages :=
            old(t.value.messages) + [NoticeForChannel(m)]))
  {
    var builtMessages := ParseNoticeMessage(m);
    var msg := builtMessages[0];
    var channelName := TrimChannelName(Param(m, 0));
    if channelName.None? || channelName.value == "jtv" {
      Broadcast(server, msg);
      return;
    }
    var chan := server.GetChannel(channelName.value);
    if chan.None? {
      return;
    }
    var tags := TagOr(m, "msg-id", "");
    if tags == "bad_delete_message_error" || tags == "usage_delete" {
      chan.value.AddMessage(SystemMessage(UsageDeleteText));
    } else {
      chan.value.AddMessage(msg);
    }
  }
}
