/**
 * Client runs of the Slack RTM model (chrome-extension/background/slack.js):
 * sequences of snapshots, events, subscriptions and disconnects, with what
 * the registry and the subscribers see at the end.
 */
module SlackRtmScenarios {
  import opened Wrappers
  import opened SlackRtm
  import QueryString

  /**
   * A tab subscribed to "general" before the snapshot is called twice: with
   * the snapshot record (no unread messages), then with the record that
   * `channel_marked` updated (three unread).
   */
  method MarkedAfterSnapshot() returns (delivered: seq<Notification>, threw: bool)
    ensures !threw
    ensures delivered == [Notification(7, 1, Channel("C1", "general", true, 0, 0)),
                          Notification(7, 1, Channel("C1", "general", true, 3, 3))]
  {
    var session := new SlackSession();
    session.Subscribe(7, "general", 1);
    var general := Channel("C1", "general", true, 0, 0);
    FanOutSingle(7, 1, general);
    FanOutSingle(7, 1, general.(unreadCount := 3, unreadCountDisplay := 3));
    session.OnRtmStart("U1", [general]);
    assert [general][..0] == [];
    threw := session.HandleMessage(ChannelMarked("C1", 3, 3));
    delivered := session.log;
  }

  /**
   * A message for a channel the registry does not know changes nothing and
   * creates no record; a later `channel_created` for that id is stored
   * normally, and nobody is called.
   */
  method MessageBeforeCreated() returns (threw: bool, stored: map<string, Channel>, delivered: seq<Notification>)
    ensures !threw
    ensures stored == map["C9" := Channel("C9", "puzzle-9", false, 0, 0)]
    ensures delivered == []
  {
    var session := new SlackSession();
    session.OnRtmStart("U1", []);
    threw := session.HandleMessage(Message("C9", "U2", ""));
    assert session.channelById == map[];
    var created := session.HandleMessage(ChannelCreated(Channel("C9", "puzzle-9", false, 0, 0)));
    threw := threw || created;
    stored := session.channelById;
    delivered := session.log;
  }

  /**
   * `channel_left` for an id the registry does not know throws in the source
   * (the record it dereferences is undefined) and changes nothing.
   */
  method LeftBeforeSnapshot() returns (threw: bool, stored: map<string, Channel>)
    ensures threw && stored == map[]
  {
    var session := new SlackSession();
    threw := session.HandleMessage(ChannelLeft("C1"));
    stored := session.channelById;
  }

  /**
   * `channel_created` then `channel_joined` for the same id: the joined
   * record is stored under the id, and looking the created name up through
   * the name index reaches that same record.
   */
  method CreatedThenJoined(session: SlackSession, c: Channel, joined: Channel) returns (byName: Channel, threw: bool)
    requires session.Valid()
    requires joined.id == c.id
    modifies session
    ensures session.Valid()
    ensures c.id in session.channelById && session.channelById[c.id] == joined
    ensures c.name in session.channelIdByName && session.channelIdByName[c.name] == c.id
    ensures byName == joined
    ensures !threw
  {
    var t1 := session.HandleMessage(ChannelCreated(c));
    var t2 := session.HandleMessage(ChannelJoined(joined));
    byName := session.channelById[session.channelIdByName[c.name]];
    threw := t1 || t2;
  }

  /**
   * After the socket closes on its own, the close handler leaves the CLOSED
   * socket as the handle, so a later `initSlackRtm` returns early and no
   * new session is ever requested.
   */
  method ReconnectAfterRemoteClose(session: SlackSession) returns (request: Option<string>)
    requires session.Valid()
    requires session.socket.Some?
    modifies session
    ensures session.socket == Some(Closed)
    ensures request == None
  {
    session.OnSocketClose();
    request := session.InitRtm();
  }

  /**
   * An explicit `disconnect` of a socket that is not yet closed (connecting,
   * open or closing), or of no socket at all, followed by a new start
   * reuses the cached token and re-notifies every subscriber of every
   * channel of the fresh snapshot.
   */
  method ReconnectAfterDisconnect(session: SlackSession, token: string, self: string, channels: seq<Channel>)
    returns (request: Option<string>)
    requires session.Valid()
    requires session.socket != Some(Closed) && session.accessToken == Some(token)
    modifies session
    ensures session.Valid()
    ensures request == Some(QueryString.RequestUrl(RtmStartUrl, [("token", token), ("simple_latest", "true")]))
    ensures session.channelById == StoreById(map[], channels)
    ensures session.channelIdByName == StoreNames(map[], channels)
    ensures session.log == old(session.log) + Broadcast(old(session.subscribers), channels)
  {
    session.Disconnect();
    request := session.InitRtm();
    session.OnRtmStart(self, channels);
  }
}
