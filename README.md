# Twitch IRC event handling and message-layout caching, in Dafny

This project models three pieces of a Twitch chat client.

- **Inbound Twitch IRC event handling** (`IrcMessageHandler.cpp`):
  - the best-effort badge-tag parser;
  - the command dispatcher and the pure parsers that turn PRIVMSG, USERNOTICE
    and NOTICE events into built chat messages;
  - the handlers that apply ROOMSTATE, USERSTATE, MODE, CLEARCHAT, CLEARMSG
    and NOTICE events to per-channel state.
- **The Twitch channel's state** (`TwitchChannel.hpp`):
  - the `RoomModes` record and its defaults;
  - the local user's mod, VIP and staff status and the room id, each with its
    own setter;
  - the moderator list and the message store the handlers touch.
- **The message-layout cache** (`messagelayout.cpp`):
  - the layout flag bit set and its `addFlags`, `removeFlags` and `hasFlags`;
  - the `layout` change detector. It compares the stored width, emote
    generation, font generation, word mask and scale with the current ones.
    From that it decides whether to lay the message out again, whether to
    discard the pixel buffer, and whether to mark the buffer for an update.

## Modules and files

- `wrappers.dfy` (`Wrappers`): `Option`.
- `text.dfy` (`Text`):
  - character splitting with empty parts kept, as `QString::split` does;
  - its inverse `Join`;
  - an ASCII case-insensitive prefix test.
- `irc.dfy` (`Irc`): the protocol message value, with command, parameters,
  tag map and sender.
- `twitch_helpers.dfy` (`TwitchHelpers`): channel-name normalisation.
- `messages.dfy` (`Messages`):
  - built messages with their flag set;
  - synthetic system and timeout notices;
  - the message builder, reduced to its ignore and highlight decisions.
- `twitch_channel.dfy` (`TwitchChannels`):
  - `RoomModes`;
  - the `Channel` class, with its setters and message-store operations;
  - the specification functions `DisableAll` and `WithoutId`.
- `twitch_server.dfy` (`TwitchServer`): the channel registry the handlers
  look channels up in.
- `irc_message_handler.dfy` (`IrcMessageHandler`):
  - the badge parser;
  - the message parsers;
  - pure "state after the event" functions;
  - the handler methods proved against those functions.
- `message_layout.dfy` (`Layouts`):
  - flag operations;
  - the `Decide`/`LayoutStep` specification of `layout`;
  - the `MessageLayout` class.

### How the model is organised

Each state-changing handler is a method on the server's channel objects. Its
postcondition says two things:

- the state of the resolved channel afterwards equals a pure function of
  its state before (`RoomStateAfter`, `UserStateAfter`, `ClearChatAfter`,
  `ModListAfter`, `WithoutId`);
- every other channel is unchanged (`OthersUnchanged`).

The lemmas about the event's meaning are then stated about those functions.
`MessageLayout.Layout` works the same way: it is proved equal to
`LayoutStep`, and the change-detection lemmas are about `LayoutStep`.

### Code that lives elsewhere

Code outside the modelled files becomes a function-valued field of
`IrcMessageHandler.Collaborators` or of `Messages.Builder`, or a parameter.
This covers:

- `QString::toInt`;
- the IRCv3 tag-value unescaper `parseTagString`;
- the ignore and highlight decisions of the message builder;
- whether the local user is a channel's broadcaster;
- the store's policy for coalescing timeout notices;
- the emote-manager, font-manager and settings generations that `layout`
  reads (parameter `g`);
- the element container's heights before and after `finish` (parameter `c`).

The C++ `dynamic_cast<TwitchChannel *>` test becomes the channel's `twitch`
field. The client's special channels (whispers, mentions) are not Twitch
channels.

## Model

| member | source | states |
|---|---|---|
| IrcMessageHandler.ParseBadges | src/providers/twitch/IrcMessageHandler.cpp:25-41 | the loop over comma-separated entries builds exactly `BadgeMap` of the entries: entries that do not split on `/` into two parts are skipped, each other one is inserted |
| IrcMessageHandler.BadgeMapKeys | src/providers/twitch/IrcMessageHandler.cpp:25-41 | a badge name is in the parsed map if and only if some entry splits on `/` into exactly two parts with that name first |
| IrcMessageHandler.BadgeMapLastWins | src/providers/twitch/IrcMessageHandler.cpp:37 | a repeated badge name maps to the version of its last well-formed entry: no later entry names it |
| IrcMessageHandler.BadgeEntryShape | src/providers/twitch/IrcMessageHandler.cpp:31-37 | an entry `x/y` without further `/` is well formed and yields badge `x` at version `y` |
| Text.TwoParts | src/providers/twitch/IrcMessageHandler.cpp:31-35 | an entry splits into exactly two parts if and only if it contains exactly one `/`, and it is then the two parts joined by `/` |
| IrcMessageHandler.ParsePrivMessage | src/providers/twitch/IrcMessageHandler.cpp:74-87 | a PRIVMSG yields no message when the ignore policy suppresses it and otherwise exactly one chat message built from parameter 1 with default arguments; it is highlighted exactly when the highlight policy matches |
| IrcMessageHandler.ParseUserNoticeMessage | src/providers/twitch/IrcMessageHandler.cpp:398-446 | a USERNOTICE with its channel parameter yields the subscriber's content for a sub, resub or subgift with non-empty content, then the unescaped `system-msg` when that tag is present; the count is exactly the number of these conditions that hold, and every message is subscription-flagged and not highlighted; an event without any parameter yields nothing |
| IrcMessageHandler.ParseUserNoticeMessageAsWritten | src/providers/twitch/IrcMessageHandler.cpp:398-408 | the parser as written needs at least one parameter, because it reads `parameters[0]` unchecked; with one it agrees with the corrected parser |
| IrcMessageHandler.UserNoticeWithoutParameters | src/providers/twitch/IrcMessageHandler.cpp:404-408 | a USERNOTICE with no parameters, a `resub` msg-id and a `system-msg` tag is routed to the parser by the dispatcher; the as-written parser cannot accept it, and the corrected parser drops it with no message |
| IrcMessageHandler.ParseNoticeMessage | src/providers/twitch/IrcMessageHandler.cpp:527-544 | a NOTICE yields exactly one system message: the canned "Login expired! Try logging in again." when the content starts with "Login auth" in any letter case, the content itself otherwise |
| IrcMessageHandler.NoticeIgnoresCase | src/providers/twitch/IrcMessageHandler.cpp:529 | two contents that differ only in ASCII letter case are classified alike, and a login failure yields the same canned notice for both |
| IrcMessageHandler.NoticeUpperCaseLoginAuth | src/providers/twitch/IrcMessageHandler.cpp:529-534 | "LOGIN AUTHENTICATION FAILED" is recognised as an expired login |
| IrcMessageHandler.ParseMessage | src/providers/twitch/IrcMessageHandler.cpp:49-72 | PRIVMSG, USERNOTICE and NOTICE go to their parsers; any other command yields no messages; no event yields more than two |
| IrcMessageHandler.ResubYieldsTwoMessages | src/providers/twitch/IrcMessageHandler.cpp:410-443 | a resub with content and a `system-msg` tag yields exactly two messages: the chat content first, then the system notice, both subscription-flagged |
| IrcMessageHandler.RoomModesAfter | src/providers/twitch/IrcMessageHandler.cpp:184-210 | each room-mode field is overwritten only when its tag is present; emote-only, subs-only and r9k become true exactly when the value is "1"; slow and followers-only go through `toInt`; the broadcaster language is copied |
| IrcMessageHandler.UpdateRoomModes | src/providers/twitch/IrcMessageHandler.cpp:184-210 | the copy of the old room modes, overwritten field by field for the tags present, is exactly `RoomModesAfter` of the old modes |
| IrcMessageHandler.RoomModesUntouched | src/providers/twitch/IrcMessageHandler.cpp:184-210 | an event without any room-mode tag leaves the room modes exactly as they were |
| IrcMessageHandler.RoomModesCompose | src/providers/twitch/IrcMessageHandler.cpp:184-210 | two ROOMSTATE updates in a row equal one update with the merged tags, the later tags winning |
| IrcMessageHandler.RoomModesRepeat | src/providers/twitch/IrcMessageHandler.cpp:184-210 | replaying the same ROOMSTATE event changes nothing further |
| IrcMessageHandler.RoomStateAfter | src/providers/twitch/IrcMessageHandler.cpp:170-211 | the room id is overwritten whenever a `room-id` tag is present, without comparison with the old one; the room modes are updated; nothing else about the channel changes |
| IrcMessageHandler.UserStateAfter | src/providers/twitch/IrcMessageHandler.cpp:333-353 | with a `badges` tag, VIP and staff become membership of "vip" and "staff" in the parsed badges; with a `mod` tag, mod becomes "value is 1"; a status whose tag is absent, and every other field, is unchanged |
| IrcMessageHandler.UserStateVip | src/providers/twitch/IrcMessageHandler.cpp:333-342 | with a `badges` tag, VIP holds afterwards if and only if some well-formed badge entry is named "vip" |
| IrcMessageHandler.UserStateStaff | src/providers/twitch/IrcMessageHandler.cpp:333-342 | with a `badges` tag, staff holds afterwards if and only if some well-formed badge entry is named "staff" |
| IrcMessageHandler.ClearChatAfter | src/providers/twitch/IrcMessageHandler.cpp:245-272 | with only the channel parameter, every existing message keeps its kind and becomes disabled, and exactly one "Chat has been cleared by a moderator." system message is appended; with a user parameter the store receives that user's timeout notice through the coalescing policy; no other field changes |
| IrcMessageHandler.TimeoutCarriesTags | src/providers/twitch/IrcMessageHandler.cpp:254-269 | for every CLEARCHAT, the timeout notice carries parameter 1 as the user, the `ban-duration` and `ban-reason` values verbatim when present and "" when absent, is not a repeat notice, and is flagged System and Timeout |
| IrcMessageHandler.TimeoutExample | src/providers/twitch/IrcMessageHandler.cpp:254-272 | user "bob" with `ban-duration=600` and `ban-reason=spam` gives the notice ("bob", "600", "spam") |
| IrcMessageHandler.ModListAfter | src/providers/twitch/IrcMessageHandler.cpp:517-524 | `+o` and `-o` both append parameter 2, so the list grows by exactly one with the old list as prefix; any other mode leaves the list unchanged |
| IrcMessageHandler.RevokeKeepsNick | src/providers/twitch/IrcMessageHandler.cpp:521-524 | a `-o` never takes the nick off the moderator list: afterwards it is in the list and occurs once more than before, whether or not it was there |
| IrcMessageHandler.DropFirst | src/providers/twitch/IrcMessageHandler.cpp:509-510 | the channel name of a MODE event is parameter 0 without its first character, and empty when parameter 0 is empty |
| IrcMessageHandler.Resolve | src/providers/twitch/IrcMessageHandler.cpp:102-113 | a valid channel name of an open channel resolves to exactly that channel; an invalid name or a name that is not open resolves to nothing |
| IrcMessageHandler.AddMessage | src/providers/twitch/IrcMessageHandler.cpp:96-155 | the resolved channel gains exactly the built message (subscription-flagged and never highlighted for a sub; skipped when a non-sub is ignored); every other channel is unchanged |
| IrcMessageHandler.AddedMessages | src/providers/twitch/IrcMessageHandler.cpp:115-149 | the message is built from the event, the content, the action bit and the channel, with usernames trimmed exactly for a sub and the broadcaster argument following the channel; a sub is always added, subscription-flagged and not highlighted; a non-sub is added exactly when the ignore policy does not suppress it, and is highlighted exactly when the highlight policy matches |
| IrcMessageHandler.HandleRoomStateMessage | src/providers/twitch/IrcMessageHandler.cpp:157-215 | a resolved Twitch channel ends in `RoomStateAfter` of its old state; an invalid name, an unknown channel or a non-Twitch channel changes nothing; no other channel changes |
| IrcMessageHandler.HandleClearChatMessage | src/providers/twitch/IrcMessageHandler.cpp:217-280 | a resolved channel ends in `ClearChatAfter` of its old state; zero parameters, an invalid name or an unknown channel change nothing |
| IrcMessageHandler.HandleClearMessageMessage | src/providers/twitch/IrcMessageHandler.cpp:282-315 | the resolved channel loses exactly the messages whose id is the `target-msg-id` value, order kept; nothing else changes |
| IrcMessageHandler.HandleUserStateMessage | src/providers/twitch/IrcMessageHandler.cpp:317-354 | a resolved Twitch channel ends in `UserStateAfter` of its old state; every other channel, and a non-Twitch one, is unchanged |
| IrcMessageHandler.HandleModeMessage | src/providers/twitch/IrcMessageHandler.cpp:505-525 | the channel named by parameter 0 minus its first character gets `ModListAfter` of its moderator list; nothing else changes |
| IrcMessageHandler.Broadcast | src/providers/twitch/IrcMessageHandler.cpp:557-561 | every open and special channel gains exactly the message once, and nothing else about it changes |
| IrcMessageHandler.HandleNoticeMessage | src/providers/twitch/IrcMessageHandler.cpp:546-590 | a notice without a valid single-channel target, or addressed to "jtv", reaches every channel; otherwise only the resolved channel gains it, and a delete-usage error is replaced by the "/delete" usage hint |
| TwitchHelpers.TrimChannelName | src/providers/twitch/IrcMessageHandler.cpp:102-106 | one leading `#` is stripped, and the name is rejected exactly when nothing is left |
| TwitchHelpers.TrimHashName | src/providers/twitch/IrcMessageHandler.cpp:163-168 | `#name` resolves to `name` for every non-empty name |
| TwitchServer.Server.GetChannel | src/providers/twitch/IrcMessageHandler.cpp:108-113 | the lookup finds a channel exactly when one of that name is open, and it is that channel |
| TwitchServer.Server.AllChannels | src/providers/twitch/IrcMessageHandler.cpp:557-561 | a broadcast reaches every open channel and every special channel |
| Messages.Build | src/providers/twitch/IrcMessageHandler.cpp:126-136 | a built message keeps its preset flags; it is highlighted exactly when the highlight policy matches and the message is not a subscription; its id is the source's `id` tag |
| TwitchChannels.Channel.constructor | src/providers/twitch/TwitchChannel.hpp:50-57 | a new channel has submode, r9k and emote-only off, followers-only -1, slow mode 0, an empty broadcaster language, mod, VIP and staff false, and empty room id, moderator list and store |
| TwitchChannels.Channel.SetMod | src/providers/twitch/TwitchChannel.hpp:130 | only the mod status changes |
| TwitchChannels.Channel.SetVIP | src/providers/twitch/TwitchChannel.hpp:131 | only the VIP status changes |
| TwitchChannels.Channel.SetStaff | src/providers/twitch/TwitchChannel.hpp:132 | only the staff status changes |
| TwitchChannels.Channel.SetRoomId | src/providers/twitch/TwitchChannel.hpp:133 | only the room id changes |
| TwitchChannels.Channel.SetRoomModes | src/providers/twitch/TwitchChannel.hpp:134 | the room modes are replaced as a whole; nothing else changes |
| TwitchChannels.Channel.AddMessage | src/providers/twitch/IrcMessageHandler.cpp:149 | the message is appended at the end of the store; nothing else changes |
| TwitchChannels.Channel.DisableAllMessages | src/providers/twitch/IrcMessageHandler.cpp:247 | the store becomes `DisableAll` of the old store |
| TwitchChannels.DisableAll | src/providers/twitch/IrcMessageHandler.cpp:247 | the store keeps its length and order; every message keeps its kind, id and flags and gains `Disabled` |
| TwitchChannels.DisableAllIdempotent | src/providers/twitch/IrcMessageHandler.cpp:245-248 | clearing an already cleared store disables nothing more |
| TwitchChannels.Channel.AddOrReplaceTimeout | src/providers/twitch/IrcMessageHandler.cpp:272 | the store becomes what the coalescing policy makes of the old store and the notice |
| TwitchChannels.Channel.DeleteMessage | src/providers/twitch/IrcMessageHandler.cpp:314 | the store becomes `WithoutId` of the old store |
| TwitchChannels.WithoutId | src/providers/twitch/IrcMessageHandler.cpp:312-314 | no remaining message carries the id; every message with another id is kept; nothing new appears |
| TwitchChannels.WithoutIdCounts | src/providers/twitch/IrcMessageHandler.cpp:312-314 | every copy of a message with the id is removed and every copy of any other message is kept: the multiset of the store loses exactly the messages with the id |
| TwitchChannels.WithoutIdAppend | src/providers/twitch/IrcMessageHandler.cpp:312-314 | deletion keeps the order of the store: deleting from two stores laid end to end is deleting from each and laying the results end to end |
| TwitchChannels.WithoutAbsentId | src/providers/twitch/IrcMessageHandler.cpp:312-314 | deleting an id that no message carries leaves the store unchanged |
| TwitchChannels.WithoutUniqueId | src/providers/twitch/IrcMessageHandler.cpp:312-314 | when exactly one message carries the id, exactly that message is removed and the rest keep their order |
| Layouts.WithFlags | src/messages/layouts/messagelayout.cpp:52-55 | after `addFlags(f)` every bit of `f` is set, every earlier bit stays set, no other bit appears, and `hasFlags(f)` holds for non-zero `f` |
| Layouts.WithoutFlags | src/messages/layouts/messagelayout.cpp:57-60 | after `removeFlags(f)` no bit of `f` is set, every bit outside `f` is unchanged, and `hasFlags(f)` is false |
| Layouts.Intersects | src/messages/layouts/messagelayout.cpp:47-50 | `hasFlags(f)` holds exactly when clearing the bits of `f` would change the flags, and then both the flags and `f` are non-zero |
| Layouts.AddFlagsIdempotent | src/messages/layouts/messagelayout.cpp:52-55 | adding the same flags twice is the same as adding them once |
| Layouts.RemoveAfterAdd | src/messages/layouts/messagelayout.cpp:52-60 | removing flags just added is the same as removing them from the original set |
| Layouts.Decide | src/messages/layouts/messagelayout.cpp:68-110 | a layout is required if and only if one of width, emote generation, font generation, word mask or scale differs; the buffer is discarded exactly on a width or word-mask change; a buffer update is requested exactly on an emote, font or scale change |
| Layouts.LayoutStep | src/messages/layouts/messagelayout.cpp:64-121 | `layout` returns true exactly when something differs; afterwards the stored values equal the current ones; with nothing changed, state, flags and buffer are untouched; after a redraw the buffer is invalid and the height is recomputed; `RequiresBufferUpdate` is added exactly on a buffer-update change |
| Layouts.LayoutSettles | src/messages/layouts/messagelayout.cpp:64-121 | a second `layout` with the same inputs reports no redraw and changes nothing |
| Layouts.GenerationChangeKeepsBuffer | src/messages/layouts/messagelayout.cpp:96-110 | a change only in emote generation, font generation or scale keeps the buffer, when the height does not change, and marks it for an update |
| Layouts.MessageLayout.constructor | src/messages/layouts/messagelayout.cpp:21-28 | a new layout has no buffer and its flags are `Collapsed` exactly when its message is collapsed, empty otherwise |
| Layouts.MessageLayout.HasFlags | src/messages/layouts/messagelayout.cpp:47-50 | a layout has flags `f` exactly when removing `f` would change its flags |
| Layouts.MessageLayout.AddFlags | src/messages/layouts/messagelayout.cpp:52-55 | the flags become `WithFlags` of the old flags; nothing else changes |
| Layouts.MessageLayout.RemoveFlags | src/messages/layouts/messagelayout.cpp:57-60 | the flags become `WithoutFlags` of the old flags; nothing else changes |
| Layouts.MessageLayout.InvalidateBuffer | src/messages/layouts/messagelayout.cpp:215-218 | only the buffer-valid bit changes, to false |
| Layouts.MessageLayout.DeleteBuffer | src/messages/layouts/messagelayout.cpp:220-223 | only the buffer is dropped |
| Layouts.MessageLayout.ActuallyLayout | src/messages/layouts/messagelayout.cpp:123-139 | the container takes the width and scale, the buffer is dropped when the laid-out height differs from the old height, and the height becomes the finished height |
| Layouts.MessageLayout.DetectChanges | src/messages/layouts/messagelayout.cpp:66-110 | the stored key becomes the current one, `RequiresBufferUpdate` is added on an emote, font or scale change, the buffer is dropped on a width or word-mask change, and the result is `Decide`'s relayout verdict |
| Layouts.MessageLayout.MarkBufferUpdate | src/messages/layouts/messagelayout.cpp:99-107 | `RequiresBufferUpdate` is added when the images or the text changed, once however many of them did; nothing else changes |
| Layouts.MessageLayout.Layout | src/messages/layouts/messagelayout.cpp:64-121 | the new state and the returned redraw verdict are exactly `LayoutStep` of the old state and the current inputs |

## Left out

- Whisper handling, JOIN/PART tracking and `handleUserNoticeMessage`'s own delivery path are outside the modelled core.
- The mentions channel, the highlight controller, `triggerHighlights` and recent-chatter tracking in `addMessage` are left out. They are UI and global side effects.
- Also left out as UI signalling: `roomModesChanged`, `repaintVisibleChatWidgets`, `forceLayoutChannelViews` and the log calls.
- Locking (`UniqueAccess`, `Atomic`) is left out because it only concerns concurrency.
- TwitchChannels.Channel.AddMessage: the message store is bounded in the client and evicts old messages. The model's store is an unbounded sequence, because the store's implementation is not part of this model.
- The store's own code is not part of this model, so `Channel::deleteMessage` and `disableAllMessages` are modelled from their documented meaning. `addOrReplaceTimeout`'s coalescing is a parameter.
- `TwitchMessageBuilder` internals are not part of this model: ignore lists, highlight rules, username trimming and emote parsing. A built message records its builder input; ignore and highlight are uninterpreted predicates.
- Messages.Build: a built message's id is taken from the source's `id` tag, which is how Twitch message ids reach the builder.
- Messages.Build: a subscription message is never highlighted, following the unset of `Highlighted` before `build()`.
- TwitchHelpers.TrimChannelName: `trimChannelName` is not part of this model. It is modelled on its documented behaviour: strip one leading `#`, and fail if nothing is left.
- `QString::toInt` for the `slow` and `followers-only` tags is an uninterpreted function. So are `parseTagString` and the channel's `isBroadcaster`.
- Text.StartsWithIgnoreCase: case-insensitive comparison folds ASCII letters only; Qt's Unicode case folding is not modelled.
- Layouts.WithFlags: the flag type's width and bit values are in a header that is not part of this model. Flags are modelled as 8 bits, with `Collapsed` = 1 and `RequiresBufferUpdate` = 2.
- Layouts.MessageLayout.constructor: only the flags and the buffer of a new layout are specified. The C++ constructor leaves the other cached fields to their in-class initialisers, which are in that header.
- Layouts.MessageLayout.ActuallyLayout: element placement and `finish` are in files not part of this model. Their effect is reduced to the two container heights passed in.
- `MessageLayout::paint`, `updateBuffer` and everything drawn with QPainter are left out. The pixel buffer is a `hasBuffer` bit plus the `bufferValid` bit. The scale is compared only for equality, so floating-point rounding plays no part.
- IrcMessageHandler.HandleNoticeMessage: it delivers the single message `parseNoticeMessage` returns. The C++ loops over the returned vector, which always holds exactly one message, and `return`s from inside that loop.
- IrcMessageHandler.HandleNoticeMessage: the notice's target is parameter 0, which is what the IRC library's `target()` returns for a NOTICE.
- IrcMessageHandler.HandleClearMessageMessage: when `target-msg-id` is absent, the code reads an empty string and passes it to `deleteMessage`. The model follows the code, so it deletes messages whose id is empty, rather than treating the event as a no-op.
- IrcMessageHandler.ModListAfter: MODE `-o` appends the nick exactly like `+o` does. The model keeps this as written and proves it (`RevokeKeepsNick`) rather than treating it as a removal.
- The parsers pass the whole `Channel *` to the message builder. The model passes only the channel's name, which is all the abstract builder keeps of it.

## Findings

| source | as written | input that shows it | evidently intended | confidence | as-written member | corrected member |
|---|---|---|---|---|---|---|
| src/providers/twitch/IrcMessageHandler.cpp:408 | `parseUserNoticeMessage` reads `parameters[0]` before anything checks that the event has a parameter, and never uses the value. (`handleUserNoticeMessage` makes the same unchecked read at line 456.) | a USERNOTICE with no parameters, `msg-id=resub` and a `system-msg` tag; the dispatcher routes every USERNOTICE to this parser | an event without its channel parameter is dropped with no message. The delivery path does this for the system notice once it reaches its own check at line 486, and a missing required parameter otherwise aborts only that event | medium, not executed | IrcMessageHandler.ParseUserNoticeMessageAsWritten (requires a parameter), IrcMessageHandler.UserNoticeWithoutParameters | IrcMessageHandler.ParseUserNoticeMessage |
