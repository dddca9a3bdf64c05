/**
 * Per-channel state: room modes, the local user's mod/VIP/staff status, the
 * room id, the moderator list and the channel's message store.
 */
module TwitchChannels {
  import opened Messages

  /** Channel-wide moderation settings, carried forward between ROOMSTATE events. */
  datatype RoomModes = RoomModes(
    submode: bool,
    r9k: bool,
    emoteOnly: bool,
    followerOnly: int,   // minutes; -1 means follower-only mode is off
    slowMode: int,       // seconds; 0 means slow mode is off
    broadcasterLang: string)

  const DefaultRoomModes := RoomModes(false, false, false, -1, 0, "")

  /** Everything a handler may change about one channel, as a value. */
  datatype ChannelState = ChannelState(
    roomId: string,
    roomModes: RoomModes,
    modList: seq<string>,
    mod: bool,
    vip: bool,
    staff: bool,
    messages: seq<Message>)

  /** A message struck through by moderation: kept, with `Disabled` set. */
  function Disable(m: Message): Message
  {
    m.(flags := m.flags + {Disabled})
  }

  /** Every message of the store disabled, in the same order. */
  function DisableAll(ms: seq<Message>): (r: seq<Message>)
    ensures |r| == |ms|
    ensures forall i :: 0 <= i < |ms| ==>
      r[i].kind == ms[i].kind && r[i].id == ms[i].id && r[i].flags == ms[i].flags + {Disabled}
    decreases |ms|
  {
    if ms == [] then []
    else DisableAll(ms[..|ms| - 1]) + [Disable(ms[|ms| - 1])]
  }

  /** Disabling a store twice is the same as disabling it once. */
  lemma DisableAllIdempotent(ms: seq<Message>)
    ensures DisableAll(DisableAll(ms)) == DisableAll(ms)
  {
    var once := DisableAll(ms);
    var twice := DisableAll(once);
    assert forall i :: 0 <= i < |ms| ==> twice[i] == once[i];
  }

  /** The store with every message whose id is `id` taken out, order kept. */
  function WithoutId(ms: seq<Message>, id: string): (r: seq<Message>)
    ensures |r| <= |ms|
    ensures forall i :: 0 <= i < |r| ==> r[i].id != id
    ensures forall m :: m in ms && m.id != id ==> m in r
    ensures forall m :: m in r ==> m in ms
    decreases |ms|
  {
    if ms == [] then []
    else
      var last := ms[|ms| - 1];
      var init := ms[..|ms| - 1];
      assert ms == init + [last];
      if last.id == id then WithoutId(init, id) else WithoutId(init, id) + [last]
  }

  /** Deletion removes every copy of a message with the id and keeps every copy of any other. */
  lemma {:induction false} WithoutIdCounts(ms: seq<Message>, id: string, m: Message)
    ensures multiset(WithoutId(ms, id))[m] == if m.id == id then 0 else multiset(ms)[m]
    decreases |ms|
  {
    if ms != [] {
      var init := ms[..|ms| - 1];
      var last := ms[|ms| - 1];
      assert ms == init + [last];
      WithoutIdSnoc(init, last, id);
      WithoutIdCounts(init, id, m);
    }
  }

  /** Deletion keeps the order of the store: it distributes over concatenation. */
  lemma {:induction false} WithoutIdAppend(a: seq<Message>, b: seq<Message>, id: string)
    ensures WithoutId(a + b, id) == WithoutId(a, id) + WithoutId(b, id)
    decreases |b|
  {
    if b != [] {
      var init := b[..|b| - 1];
      var last := b[|b| - 1];
      assert b == init + [last];
      assert a + b == (a + init) + [last];
      WithoutIdSnoc(a + init, last, id);
      WithoutIdSnoc(init, last, id);
      WithoutIdAppend(a, init, id);
    } else {
      assert a + b == a;
    }
  }

  /** Deleting an id that no message carries leaves the store as it was. */
  lemma {:induction false} WithoutAbsentId(ms: seq<Message>, id: string)
    requires forall i :: 0 <= i < |ms| ==> ms[i].id != id
    ensures WithoutId(ms, id) == ms
    decreases |ms|
  {
    if ms != [] {
      WithoutAbsentId(ms[..|ms| - 1], id);
      assert ms[..|ms| - 1] + [ms[|ms| - 1]] == ms;
    }
  }

  /** `WithoutId` on a store with one more message at the end. */
  lemma WithoutIdSnoc(init: seq<Message>, last: Message, id: string)
    ensures WithoutId(init + [last], id) ==
      if last.id == id then WithoutId(init, id) else WithoutId(init, id) + [last]
  {
    var ms := init + [last];
    assert ms[..|ms| - 1] == init && ms[|ms| - 1] == last;
  }

  /** When exactly one message carries `id`, exactly that message is removed. */
  lemma WithoutUniqueId(ms: seq<Message>, id: string, j: nat)
    requires j < |ms| && ms[j].id == id
    requires forall i :: 0 <= i < |ms| && i != j ==> ms[i].id != id
    ensures WithoutId(ms, id) == ms[..j] + ms[j + 1..]
  {
    var before, after := ms[..j], ms[j + 1..];
    assert ms == (before + [ms[j]]) + after;
    assert forall i :: 0 <= i < |before| ==> before[i].id != id;
    assert forall i :: 0 <= i < |after| ==> after[i].id != id by {
      forall i | 0 <= i < |after|
        ensures after[i].id != id
      {
        assert after[i] == ms[j + 1 + i];
      }
    }
    calc {
      WithoutId(ms, id);
      { WithoutIdAppend(before + [ms[j]], after, id); }
      WithoutId(before + [ms[j]], id) + WithoutId(after, id);
      { WithoutIdSnoc(before, ms[j], id); }
      WithoutId(before, id) + WithoutId(after, id);
      { WithoutAbsentId(before, id); WithoutAbsentId(after, id); }
      before + after;
    }
  }

  /**
   * A channel. `twitch` is false for the client's special channels (whispers,
   * mentions), which lack the Twitch-specific state and ignore its updates.
   */
  class Channel {
    const name: string
    const twitch: bool
    var roomId: string
    var roomModes: RoomModes
    var modList: seq<string>
    var mod: bool
    var vip: bool
    var staff: bool
    var messages: seq<Message>

    function State(): ChannelState
      reads this
    {
      ChannelState(roomId, roomModes, modList, mod, vip, staff, messages)
    }

    constructor(name: string, twitch: bool)
      ensures this.name == name && this.twitch == twitch
      ensures !roomModes.submode && !roomModes.r9k && !roomModes.emoteOnly
      ensures roomModes.followerOnly == -1 && roomModes.slowMode == 0 && roomModes.broadcasterLang == ""
      ensures !mod && !vip && !staff
      ensures roomId == "" && modList == [] && messages == []
    {
      this.name := name;
      this.twitch := twitch;
      roomId := "";
      roomModes := DefaultRoomModes;
      modList := [];
      mod, vip, staff := false, false, false;
      messages := [];
    }

    method SetMod(value: bool)
      modifies this
      ensures State() == old(State()).(mod := value)
    {
      mod := value;
    }

    method SetVIP(value: bool)
      modifies this
      ensures State() == old(State()).(vip := value)
    {
      vip := value;
    }

    method SetStaff(value: bool)
      modifies this
      ensures State() == old(State()).(staff := value)
    {
      staff := value;
    }

    method SetRoomId(id: string)
      modifies this
      ensures State() == old(State()).(roomId := id)
    {
      roomId := id;
    }

    method SetRoomModes(modes: RoomModes)
      modifies this
      ensures State() == old(State()).(roomModes := modes)
    {
      roomModes := modes;
    }

    /** Appends one message to the store (eviction of the bounded store is not modelled). */
    method AddMessage(m: Message)
      modifies this
      ensures State() == old(State()).(messages := old(messages) + [m])
    {
      messages := messages + [m];
    }

    /** Strikes through every stored message. */
    method DisableAllMessages()
      modifies this
      ensures State() == old(State()).(messages := DisableAll(old(messages)))
    {
      var ms := messages;
      var i := 0;
      while i < |ms|
        invariant 0 <= i <= |ms| == |messages|
        invariant forall k :: 0 <= k < i ==> ms[k] == Disable(messages[k])
        invariant forall k :: i <= k < |ms| ==> ms[k] == messages[k]
      {
        ms := ms[i := Disable(ms[i])];
        i := i + 1;
      }
      assert forall k :: 0 <= k < |ms| ==> ms[k] == DisableAll(messages)[k];
      messages := ms;
    }

    /**
     * Hands a timeout notice to the store; whether it replaces an earlier
     * notice for the same user is the store's `policy`.
     */
    method AddOrReplaceTimeout(m: Message, policy: (seq<Message>, Message) -> seq<Message>)
      modifies this
      ensures State() == old(State()).(messages := policy(old(messages), m))
    {
      messages := policy(messages, m);
    }

    /** Removes the messages whose id is `id`. */
    method DeleteMessage(id: string)
      modifies this
      ensures State() == old(State()).(messages := WithoutId(old(messages), id))
    {
      var kept: seq<Message> := [];
      var i := 0;
      while i < |messages|
        invariant 0 <= i <= |messages|
        invariant kept == WithoutId(messages[..i], id)
      {
        assert messages[..i + 1][..i] == messages[..i];
        if messages[i].id != id {
          kept := kept + [messages[i]];
        }
        i := i + 1;
      }
      assert messages[..i] == messages;
      messages := kept;
    }
  }
}
