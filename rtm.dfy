/**
 * The extension's Slack realtime-messaging client
 * (chrome-extension/background/slack.js): a channel registry indexed by id and
 * by name, a subscription table of per-tab callbacks keyed by channel name,
 * the dispatcher that applies decoded socket events to the registry, the
 * snapshot load that follows `rtm.start`, and `disconnect`.
 *
 * Callbacks are opaque handles; every invocation is appended to `log`, so
 * what a callback received, and in which order, is part of the state.
 */
module SlackRtm {
  import opened Wrappers
  import QueryString

  /** A browser tab id; tab ids are integers, so `Object.keys` lists them in ascending order. */
  type TabId = nat
  /** The identity of the callback function a tab registered. */
  type CallbackId = nat

  /** The fields of a Slack channel record that the client reads or writes. */
  datatype Channel = Channel(
    id: string,
    name: string,
    isMember: bool,
    unreadCount: int,
    unreadCountDisplay: int)

  /**
   * A socket message after `JSON.parse`, by its `type`. `Message.subtype` is
   * "" when the message has no (truthy) subtype; `Unrecognized` is every other type,
   * so its `kind` is never one of the five handled type names.
   */
  datatype Event =
    | ChannelCreated(channel: Channel)
    | ChannelJoined(channel: Channel)
    | ChannelLeft(channelId: string)
    | ChannelMarked(channelId: string, unreadCount: int, unreadCountDisplay: int)
    | Message(channelId: string, user: string, subtype: string)
    | Unrecognized(kind: string)

  /** `WebSocket.readyState`. */
  datatype ReadyState = Connecting | Open | Closing | Closed

  /** One callback invocation: the tab's callback was called with `channel`. */
  datatype Notification = Notification(tab: TabId, callback: CallbackId, channel: Channel)

  const RtmStartUrl := "https://slack.com/api/rtm.start"

  /** `"" + accessToken` in the request: JavaScript renders a missing token as "null". */
  function TokenText(token: Option<string>): string
  {
    match token
    case None => "null"
    case Some(t) => t
  }

  predicate IsLeast(m: nat, s: set<nat>)
  {
    m in s && forall x :: x in s ==> m <= x
  }

  lemma {:induction false} LeastExists(s: set<nat>)
    requires s != {}
    ensures exists m :: IsLeast(m, s)
    decreases |s|
  {
    var x :| x in s;
    if s - {x} == {} {
      assert s == {x};
      assert IsLeast(x, s);
    } else {
      LeastExists(s - {x});
      var m :| IsLeast(m, s - {x});
      if x < m {
        forall y | y in s ensures x <= y {
          if y != x { assert y in s - {x}; }
        }
        assert IsLeast(x, s);
      } else {
        forall y | y in s ensures m <= y {
          if y != x { assert y in s - {x}; }
        }
        assert IsLeast(m, s);
      }
    }
  }

  /** The keys of a subscriber map in `Object.keys` order: ascending tab id. */
  ghost function SortedKeys(s: set<nat>): seq<nat>
    decreases |s|
  {
    if s == {} then []
    else
      LeastExists(s);
      var m :| IsLeast(m, s);
      [m] + SortedKeys(s - {m})
  }

  /** `SortedKeys(s)` lists each element of `s` exactly once, in strictly ascending order. */
  lemma SortedKeysSpec(s: set<nat>)
    ensures |SortedKeys(s)| == |s|
    ensures forall x :: x in s <==> x in SortedKeys(s)
    ensures forall i, j :: 0 <= i < j < |SortedKeys(s)| ==> SortedKeys(s)[i] < SortedKeys(s)[j]
  {
    SortedKeysMembers(s);
    SortedKeysAscending(s);
  }

  lemma {:induction false} SortedKeysMembers(s: set<nat>)
    ensures |SortedKeys(s)| == |s|
    ensures forall x :: x in s <==> x in SortedKeys(s)
    decreases |s|
  {
    if s != {} {
      LeastExists(s);
      var m :| IsLeast(m, s);
      SortedKeysFirst(s, m);
      SortedKeysMembers(s - {m});
      forall x | x in s ensures x in SortedKeys(s) {
        if x != m { assert x in s - {m}; }
      }
    }
  }

  lemma {:induction false} SortedKeysAscending(s: set<nat>)
    ensures forall i, j :: 0 <= i < j < |SortedKeys(s)| ==> SortedKeys(s)[i] < SortedKeys(s)[j]
    decreases |s|
  {
    if s != {} {
      LeastExists(s);
      var m :| IsLeast(m, s);
      SortedKeysFirst(s, m);
      var rest := SortedKeys(s - {m});
      SortedKeysAscending(s - {m});
      SortedKeysMembers(s - {m});
      var r := [m] + rest;
      forall i, j | 0 <= i < j < |r| ensures r[i] < r[j] {
        if i == 0 {
          assert r[j] == rest[j - 1];
          assert rest[j - 1] in s - {m};
        } else {
          assert r[i] == rest[i - 1] && r[j] == rest[j - 1];
        }
      }
    }
  }

  lemma SortedKeysFirst(s: set<nat>, t: nat)
    requires IsLeast(t, s)
    ensures SortedKeys(s) == [t] + SortedKeys(s - {t})
  {
  }

  /** Delivering to the keys of `s` is delivering to its least key, then to the rest. */
  lemma DeliveriesStep(s: set<TabId>, t: TabId, slot: map<TabId, CallbackId>, c: Channel)
    requires s <= slot.Keys
    requires IsLeast(t, s)
    ensures Deliveries(SortedKeys(s), slot, c)
         == [Notification(t, slot[t], c)] + Deliveries(SortedKeys(s - {t}), slot, c)
  {
    SortedKeysFirst(s, t);
    assert t in slot;
    var rest := SortedKeys(s - {t});
    assert ([t] + rest)[1..] == rest;
  }

  /** The invocations for the given keys of `slot`, in order, each with that tab's callback. */
  ghost function Deliveries(keys: seq<TabId>, slot: map<TabId, CallbackId>, c: Channel): seq<Notification>
  {
    if |keys| == 0 then []
    else if keys[0] in slot then [Notification(keys[0], slot[keys[0]], c)] + Deliveries(keys[1..], slot, c)
    else Deliveries(keys[1..], slot, c)
  }

  lemma {:induction false} DeliveriesAt(keys: seq<TabId>, slot: map<TabId, CallbackId>, c: Channel)
    requires forall i :: 0 <= i < |keys| ==> keys[i] in slot
    ensures |Deliveries(keys, slot, c)| == |keys|
    ensures forall i :: 0 <= i < |keys| ==>
      Deliveries(keys, slot, c)[i] == Notification(keys[i], slot[keys[i]], c)
    decreases |keys|
  {
    if |keys| > 0 {
      DeliveriesAt(keys[1..], slot, c);
    }
  }

  /** The subscriber map of a channel name; `notifySubscribers` does nothing without one. */
  function SlotOf(subscribers: map<string, map<TabId, CallbackId>>, name: string): map<TabId, CallbackId>
  {
    if name in subscribers then subscribers[name] else map[]
  }

  /**
   * What `notifySubscribers(c)` delivers given the subscriber map of `c.name`:
   * exactly one invocation per registered tab, with that tab's callback and
   * the record, in ascending tab order; nothing when there is no subscriber.
   */
  ghost function FanOut(slot: map<TabId, CallbackId>, c: Channel): seq<Notification>
  {
    Deliveries(SortedKeys(slot.Keys), slot, c)
  }

  lemma FanOutExact(slot: map<TabId, CallbackId>, c: Channel)
    ensures |FanOut(slot, c)| == |slot.Keys|
    ensures forall i :: 0 <= i < |FanOut(slot, c)| ==>
      var n := FanOut(slot, c)[i]; n.tab in slot && n.callback == slot[n.tab] && n.channel == c
    ensures forall t :: t in slot ==> exists i :: 0 <= i < |FanOut(slot, c)| && FanOut(slot, c)[i].tab == t
    ensures forall i, j :: 0 <= i < j < |FanOut(slot, c)| ==> FanOut(slot, c)[i].tab < FanOut(slot, c)[j].tab
    ensures slot == map[] ==> FanOut(slot, c) == []
  {
    var keys := SortedKeys(slot.Keys);
    SortedKeysSpec(slot.Keys);
    DeliveriesAt(keys, slot, c);
    forall t | t in slot ensures exists i :: 0 <= i < |FanOut(slot, c)| && FanOut(slot, c)[i].tab == t {
      var i :| 0 <= i < |keys| && keys[i] == t;
      assert FanOut(slot, c)[i].tab == t;
    }
  }

  /** A single subscriber is called once. */
  lemma FanOutSingle(t: TabId, callback: CallbackId, c: Channel)
    ensures FanOut(map[t := callback], c) == [Notification(t, callback, c)]
  {
    var s := map[t := callback].Keys;
    assert s == {t};
    assert IsLeast(t, s);
    SortedKeysFirst(s, t);
    assert s - {t} == {};
    assert SortedKeys(s) == [t];
    var slot := map[t := callback];
    assert [t][1..] == [];
    assert Deliveries([t], slot, c) == [Notification(t, callback, c)] + Deliveries([], slot, c);
  }

  /** `slackChannelById[channel.id] = channel` for each snapshot channel in turn. */
  function StoreById(byId: map<string, Channel>, cs: seq<Channel>): map<string, Channel>
    decreases |cs|
  {
    if |cs| == 0 then byId
    else StoreById(byId, cs[..|cs| - 1])[cs[|cs| - 1].id := cs[|cs| - 1]]
  }

  /** `slackChannelIdByName[channel.name] = channel.id` for each snapshot channel in turn. */
  function StoreNames(idByName: map<string, string>, cs: seq<Channel>): map<string, string>
    decreases |cs|
  {
    if |cs| == 0 then idByName
    else StoreNames(idByName, cs[..|cs| - 1])[cs[|cs| - 1].name := cs[|cs| - 1].id]
  }

  /** The invocations of the snapshot loop: each channel fanned out in turn. */
  ghost function Broadcast(subscribers: map<string, map<TabId, CallbackId>>, cs: seq<Channel>): seq<Notification>
    decreases |cs|
  {
    if |cs| == 0 then []
    else
      var c := cs[|cs| - 1];
      Broadcast(subscribers, cs[..|cs| - 1]) + FanOut(SlotOf(subscribers, c.name), c)
  }

  /** The snapshot functions after one more channel. */
  lemma SnapshotStep(byId: map<string, Channel>, idByName: map<string, string>,
                     subscribers: map<string, map<TabId, CallbackId>>, cs: seq<Channel>, i: int)
    requires 0 <= i < |cs|
    ensures StoreById(byId, cs[..i + 1]) == StoreById(byId, cs[..i])[cs[i].id := cs[i]]
    ensures StoreNames(idByName, cs[..i + 1]) == StoreNames(idByName, cs[..i])[cs[i].name := cs[i].id]
    ensures Broadcast(subscribers, cs[..i + 1])
         == Broadcast(subscribers, cs[..i]) + FanOut(SlotOf(subscribers, cs[i].name), cs[i])
  {
    assert cs[..i + 1][..i] == cs[..i];
  }

  /**
   * After the snapshot loop, each snapshot channel is in both maps, and the
   * last channel with a given id (name) is the one stored under it.
   */
  lemma {:induction false} SnapshotStored(
    byId: map<string, Channel>, idByName: map<string, string>, cs: seq<Channel>, i: int)
    requires 0 <= i < |cs|
    ensures cs[i].id in StoreById(byId, cs)
    ensures cs[i].name in StoreNames(idByName, cs)
    ensures (forall j :: i < j < |cs| ==> cs[j].id != cs[i].id) ==> StoreById(byId, cs)[cs[i].id] == cs[i]
    ensures (forall j :: i < j < |cs| ==> cs[j].name != cs[i].name) ==>
      StoreNames(idByName, cs)[cs[i].name] == cs[i].id
    decreases |cs|
  {
    if i < |cs| - 1 {
      var init := cs[..|cs| - 1];
      assert forall j :: i < j < |init| ==> init[j] == cs[j];
      SnapshotStored(byId, idByName, init, i);
      assert init[i] == cs[i];
    }
  }

  /** Every subscriber of every snapshot channel's name is called with that channel. */
  lemma {:induction false} SnapshotNotifies(
    subscribers: map<string, map<TabId, CallbackId>>, cs: seq<Channel>, i: int, t: TabId)
    requires 0 <= i < |cs|
    requires t in SlotOf(subscribers, cs[i].name)
    ensures Notification(t, SlotOf(subscribers, cs[i].name)[t], cs[i]) in Broadcast(subscribers, cs)
    decreases |cs|
  {
    var c := cs[|cs| - 1];
    if i < |cs| - 1 {
      var init := cs[..|cs| - 1];
      assert init[i] == cs[i];
      SnapshotNotifies(subscribers, init, i, t);
    } else {
      var r := FanOut(SlotOf(subscribers, c.name), c);
      FanOutExact(SlotOf(subscribers, c.name), c);
      var k :| 0 <= k < |r| && r[k].tab == t;
      assert r[k] in r;
    }
  }

  /**
   * The module-level state of slack.js: the token, the session's own user id,
   * the two channel maps, the subscription table, the socket handle (None for
   * `null`, otherwise the socket's readyState), and every callback
   * invocation so far.
   */
  class SlackSession {
    var accessToken: Option<string>
    var selfId: Option<string>
    var channelById: map<string, Channel>
    var channelIdByName: map<string, string>
    var subscribers: map<string, map<TabId, CallbackId>>
    var socket: Option<ReadyState>
    var log: seq<Notification>

    /**
     * The name index only points at ids the registry holds, every record is
     * stored under its own id, and no channel name keeps an empty subscriber map.
     */
    ghost predicate Valid()
      reads this
    {
      && (forall name :: name in channelIdByName ==> channelIdByName[name] in channelById)
      && (forall id :: id in channelById ==> channelById[id].id == id)
      && (forall name :: name in subscribers ==> subscribers[name] != map[])
    }

    /** Module initialisation: no token, no user, empty maps, no socket. */
    constructor ()
      ensures Valid()
      ensures accessToken == None && selfId == None && socket == None
      ensures channelById == map[] && channelIdByName == map[] && subscribers == map[]
      ensures log == []
    {
      accessToken := None;
      selfId := None;
      channelById := map[];
      channelIdByName := map[];
      subscribers := map[];
      socket := None;
      log := [];
    }

    /**
     * `initSlackRtm` up to its request: while a socket handle exists it
     * returns early; otherwise it sends `rtm.start` with the cached token.
     * The result is the URL requested, if any.
     */
    method InitRtm() returns (request: Option<string>)
      ensures request.None? <==> socket.Some?
      ensures request.Some? ==>
        request.value == QueryString.RequestUrl(RtmStartUrl, [("token", TokenText(accessToken)), ("simple_latest", "true")])
    {
      if socket.Some? {
        return None;
      }
      request := Some(QueryString.RequestUrl(RtmStartUrl,
        [("token", TokenText(accessToken)), ("simple_latest", "true")]));
    }

    /**
     * A token arrives (read back from storage, or from the OAuth exchange):
     * `connect` caches it and calls `initSlackRtm`.
     */
    method TokenAcquired(token: string) returns (request: Option<string>)
      requires Valid()
      modifies this`accessToken
      ensures Valid()
      ensures accessToken == Some(token)
      ensures request.None? <==> socket.Some?
      ensures request.Some? ==>
        request.value == QueryString.RequestUrl(RtmStartUrl, [("token", token), ("simple_latest", "true")])
    {
      accessToken := Some(token);
      request := InitRtm();
    }

    /** `notifySubscribers(c)`: calls each callback registered under `c.name`, in key order. */
    method NotifySubscribers(c: Channel)
      modifies this`log
      ensures log == old(log) + FanOut(SlotOf(subscribers, c.name), c)
    {
      if c.name !in subscribers {
        assert SlotOf(subscribers, c.name) == map[];
        assert SortedKeys({}) == [];
        return;
      }
      var slot := subscribers[c.name];
      var remaining := slot.Keys;
      while remaining != {}
        invariant remaining <= slot.Keys
        invariant log + Deliveries(SortedKeys(remaining), slot, c)
               == old(log) + Deliveries(SortedKeys(slot.Keys), slot, c)
        decreases |remaining|
      {
        LeastExists(remaining);
        var t :| IsLeast(t, remaining);
        DeliveriesStep(remaining, t, slot, c);
        log := log + [Notification(t, slot[t], c)];
        remaining := remaining - {t};
      }
      assert SortedKeys({}) == [];
    }

    /**
     * The `rtm.start` response: a new socket (CONNECTING) replaces the handle,
     * the session's own user id is recorded, and each snapshot channel in turn
     * is stored under its id, indexed by its name, and sent to its subscribers.
     */
    method OnRtmStart(self: string, channels: seq<Channel>)
      requires Valid()
      modifies this
      ensures Valid()
      ensures socket == Some(Connecting) && selfId == Some(self)
      ensures channelById == StoreById(old(channelById), channels)
      ensures channelIdByName == StoreNames(old(channelIdByName), channels)
      ensures log == old(log) + Broadcast(subscribers, channels)
      ensures subscribers == old(subscribers) && accessToken == old(accessToken)
    {
      socket := Some(Connecting);
      selfId := Some(self);
      var i := 0;
      while i < |channels|
        invariant 0 <= i <= |channels|
        invariant Valid()
        invariant socket == Some(Connecting) && selfId == Some(self)
        invariant subscribers == old(subscribers) && accessToken == old(accessToken)
        invariant channelById == StoreById(old(channelById), channels[..i])
        invariant channelIdByName == StoreNames(old(channelIdByName), channels[..i])
        invariant log == old(log) + Broadcast(subscribers, channels[..i])
      {
        var c := channels[i];
        SnapshotStep(old(channelById), old(channelIdByName), subscribers, channels, i);
        ghost var before := log;
        StoreSnapshotChannel(c);
        ghost var sent := FanOut(SlotOf(subscribers, c.name), c);
        assert log == old(log) + (Broadcast(subscribers, channels[..i]) + sent) by {
          assert log == before + sent;
        }
        i := i + 1;
      }
      assert channels[..|channels|] == channels;
    }

    /** One step of the snapshot `forEach`: store by id, index by name, notify. */
    method StoreSnapshotChannel(c: Channel)
      requires Valid()
      modifies this`channelById, this`channelIdByName, this`log
      ensures Valid()
      ensures channelById == old(channelById)[c.id := c]
      ensures channelIdByName == old(channelIdByName)[c.name := c.id]
      ensures log == old(log) + FanOut(SlotOf(subscribers, c.name), c)
    {
      channelById := channelById[c.id := c];
      channelIdByName := channelIdByName[c.name := c.id];
      NotifySubscribers(c);
    }

    /** The socket handle after `disconnect`: nulled only when not already CLOSED. */
    static function SocketAfterDisconnect(s: Option<ReadyState>): Option<ReadyState>
    {
      if s.Some? && s.value != Closed then None else s
    }

    /**
     * `disconnect`: closes and forgets a socket that is not already CLOSED,
     * and empties both channel maps; the token, the user id and the
     * subscription table stay.
     */
    method Disconnect()
      requires Valid()
      modifies this
      ensures Valid()
      ensures channelById == map[] && channelIdByName == map[]
      ensures socket == SocketAfterDisconnect(old(socket))
      ensures subscribers == old(subscribers) && accessToken == old(accessToken)
      ensures selfId == old(selfId) && log == old(log)
    {
      if socket.Some? && socket.value != Closed {
        socket := None;
      }
      channelById := map[];
      channelIdByName := map[];
    }

    /**
     * The socket's `onclose` handler: by then the socket is CLOSED, and the
     * handler runs `disconnect`, which therefore keeps the handle.
     */
    method OnSocketClose()
      requires Valid()
      modifies this
      ensures Valid()
      ensures channelById == map[] && channelIdByName == map[]
      ensures old(socket).Some? ==> socket == Some(Closed)
      ensures old(socket).None? ==> socket.None?
      ensures subscribers == old(subscribers) && accessToken == old(accessToken)
      ensures selfId == old(selfId) && log == old(log)
    {
      if socket.Some? {
        socket := Some(Closed);
      }
      Disconnect();
    }

    /**
     * `handleSlackWsMessage` on a decoded event. `threw` is true when the
     * source dereferences a missing record (`channel_left` or
     * `channel_marked` for an id the registry lacks): the TypeError is raised
     * before anything changes.
     */
    method HandleMessage(ev: Event) returns (threw: bool)
      requires Valid()
      modifies this
      ensures Valid()
      ensures subscribers == old(subscribers) && accessToken == old(accessToken)
      ensures selfId == old(selfId) && socket == old(socket)
      ensures threw <==> (ev.ChannelLeft? || ev.ChannelMarked?) && ev.channelId !in old(channelById)
      ensures !ev.ChannelCreated? ==> channelIdByName == old(channelIdByName)
      ensures match ev
        case ChannelCreated(c) =>
          && channelById == old(channelById)[c.id := c]
          && channelIdByName == old(channelIdByName)[c.name := c.id]
          && log == old(log)
        case ChannelJoined(c) =>
          && channelById == old(channelById)[c.id := c]
          && log == old(log) + FanOut(SlotOf(subscribers, c.name), c)
        case ChannelLeft(id) =>
          if id in old(channelById) then
            var c := old(channelById)[id].(isMember := false);
            channelById == old(channelById)[id := c] && log == old(log) + FanOut(SlotOf(subscribers, c.name), c)
          else
            channelById == old(channelById) && log == old(log)
        case ChannelMarked(id, unread, display) =>
          if id in old(channelById) then
            var c := old(channelById)[id].(unreadCount := unread, unreadCountDisplay := display);
            channelById == old(channelById)[id := c] && log == old(log) + FanOut(SlotOf(subscribers, c.name), c)
          else
            channelById == old(channelById) && log == old(log)
        case Message(id, user, subtype) =>
          if subtype == "" && selfId != Some(user) && id in old(channelById) then
            var was := old(channelById)[id];
            var c := was.(unreadCount := was.unreadCount + 1, unreadCountDisplay := was.unreadCountDisplay + 1);
            channelById == old(channelById)[id := c] && log == old(log) + FanOut(SlotOf(subscribers, c.name), c)
          else
            channelById == old(channelById) && log == old(log)
        case Unrecognized(_) =>
          channelById == old(channelById) && log == old(log)
    {
      threw := false;
      match ev
      case ChannelCreated(c) =>
        channelById := channelById[c.id := c];
        channelIdByName := channelIdByName[c.name := c.id];
      case ChannelJoined(c) =>
        channelById := channelById[c.id := c];
        NotifySubscribers(c);
      case ChannelLeft(id) =>
        if id !in channelById {
          return true;
        }
        var c := channelById[id].(isMember := false);
        channelById := channelById[id := c];
        NotifySubscribers(c);
      case ChannelMarked(id, unread, display) =>
        if id !in channelById {
          return true;
        }
        var c := channelById[id].(unreadCount := unread, unreadCountDisplay := display);
        channelById := channelById[id := c];
        NotifySubscribers(c);
      case Message(id, user, subtype) =>
        if subtype != "" {
          return;
        }
        if selfId != Some(user) && id in channelById {
          var was := channelById[id];
          var c := was.(unreadCount := was.unreadCount + 1, unreadCountDisplay := was.unreadCountDisplay + 1);
          channelById := channelById[id := c];
          NotifySubscribers(c);
        }
      case Unrecognized(_) =>
    }

    /**
     * `subscribeToChannel(tab, name, callback)` after its `connect()` call:
     * registers (or replaces) the tab's callback under the name and, when the
     * name index holds a (non-empty) id for it, calls the callback at once
     * with that record.
     */
    method Subscribe(tab: TabId, name: string, callback: CallbackId)
      requires Valid()
      modifies this`subscribers, this`log
      ensures Valid()
      ensures subscribers == old(subscribers)[name := SlotOf(old(subscribers), name)[tab := callback]]
      ensures name in channelIdByName && channelIdByName[name] != "" ==>
        log == old(log) + [Notification(tab, callback, channelById[channelIdByName[name]])]
      ensures !(name in channelIdByName && channelIdByName[name] != "") ==> log == old(log)
    {
      if name !in subscribers {
        subscribers := subscribers[name := map[]];
      }
      var slot: map<TabId, CallbackId> := subscribers[name];
      assert tab in slot[tab := callback];
      subscribers := subscribers[name := slot[tab := callback]];
      if name in channelIdByName && channelIdByName[name] != "" {
        log := log + [Notification(tab, callback, channelById[channelIdByName[name]])];
      }
    }

    /**
     * The `unsubscribe` closure of a subscription to `name` by `tab`: removes
     * the tab's entry and drops the name's map once it is empty. When the
     * name has no map any more (a second call after the last tab left) the
     * source throws a TypeError before changing anything.
     */
    method Unsubscribe(name: string, tab: TabId) returns (threw: bool)
      requires Valid()
      modifies this`subscribers
      ensures Valid()
      ensures threw <==> name !in old(subscribers)
      ensures threw ==> subscribers == old(subscribers)
      ensures !threw ==>
        subscribers == (if old(subscribers)[name] - {tab} == map[] then old(subscribers) - {name}
                        else old(subscribers)[name := old(subscribers)[name] - {tab}])
    {
      if name !in subscribers {
        return true;
      }
      threw := false;
      var slot := subscribers[name] - {tab};
      if slot == map[] {
        subscribers := subscribers - {name};
      } else {
        subscribers := subscribers[name := slot];
      }
    }
  }
}
