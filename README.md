# Slack channel-state client and notification bot, modelled in Dafny

This project models the two parts of the puzzle-hunt tooling that hold
real state and rules.

- **The browser extension's Slack realtime client**
  (`chrome-extension/background/slack.js`). It has two in-memory maps over
  channel records: id → record and name → id. It also has a subscription
  table: channel name → (tab id → callback). Decoded socket events update
  the registry. After `rtm.start` it loads the snapshot of channels,
  `disconnect` clears the registry, and it builds the query strings of its
  XHR requests.
- **The notification bot** (`slack-bot/index.js`). It has the string
  formatters for its Slack posts and the filter that decides which event-log
  entries lead to a post. It also has the two-reference joins `onValue2` and
  `onceValue2`, which call back only once both database values are present.

Files:

- `wrappers.dfy`: `Option`.
- `query.dfy` (module `QueryString`): the `xhrGet` URL, an inverse parser
  for it, and the extraction of the OAuth `code`.
- `rtm.dfy` (module `SlackRtm`): channel records, decoded events, the fan-out
  definition and the class `SlackSession`. The class holds the module
  state of `slack.js` as fields (`map`s for the registry and the subscription
  table) and one method per operation.
- `scenarios.dfy` (module `SlackRtmScenarios`): client runs of
  `SlackSession`.
- `bot.dfy` (module `SlackBot`): formatters, the event filter, and the post
  that results.
- `join.dfy` (module `ValueJoin`): the classes `OnValue2` and `OnceValue2`.

Modelling choices:

- Callbacks are opaque handles (`CallbackId`). Each callback invocation is
  appended to `SlackSession.log` as a `Notification(tab, callback, record)`,
  so fan-out is part of the state and can be specified exactly.
- Tab ids are natural numbers. `Object.keys` lists integer keys in ascending
  order, so `notifySubscribers` calls the subscribers in ascending tab order.
  The model fixes that order (`SortedKeys`).
- Falsy JavaScript values become explicit cases. A missing subtype, solution
  or Slack user id is `""`. `null` is `None`. A socket handle is `None` or
  the socket's `readyState`.
- The joins test `snap && snap.val()`, a truthiness test. A snapshot's value
  is therefore a JSON `Value` (null, boolean, number, string or record), and
  `ValueJoin.Truthy` follows JavaScript: `null`, `false`, `0` and `""` are
  falsy and everything else, every record included, is truthy.
- The source throws a `TypeError` when `channel_left` or `channel_marked`
  names an id that the registry lacks. It also throws one when `unsubscribe`
  runs after the name's subscriber map is gone. In both cases the model
  returns `threw = true`, and nothing has changed, because the source throws
  before it mutates anything.

Behaviour of the code worth stating outright, because a reader
could expect otherwise:

- `channel_left` for an unknown id throws a `TypeError`; the event is not
  dropped (`slack.js:97-98`). The same holds for `channel_marked`
  (`slack.js:102-103`).
- `channel_joined` stores the event's record as it is and does not update
  the name index (`slack.js:93`). A channel first seen through a join is
  therefore not found by name.
- When the socket closes on its own, `onclose` calls `disconnect` while the
  socket is already CLOSED, so the handle is kept (`slack.js:53`).
  `initSlackRtm` then returns early for good (`slack.js:62-64`): the client
  does not reconnect. `SlackRtmScenarios.ReconnectAfterRemoteClose` proves
  this.
- In the bot, a user without a Slack id is tagged with the display name as
  it is (`index.js:81`). A display name shaped like `<@id>` therefore becomes
  a mention of `id` (`SlackBot.UserTagMentions`).

## Model

| member | source | states |
|---|---|---|
| `SlackRtm.SlackSession.constructor` | chrome-extension/background/slack.js:3-8 | the session starts with no token, no user id, no socket, empty registry and subscription table, and no callback invocations |
| `SlackRtm.SlackSession.InitRtm` | chrome-extension/background/slack.js:61-67 | `rtm.start` is requested exactly when no socket handle exists; the request is the `xhrGet` URL carrying the cached token (rendered `null` when there is none) and `simple_latest=true`; nothing changes |
| `SlackRtm.SlackSession.TokenAcquired` | chrome-extension/background/slack.js:22-25 | a token that arrives is cached, and the session start is requested with that token unless a socket handle exists |
| `SlackRtm.SlackSession.OnRtmStart` | chrome-extension/background/slack.js:68-82 | the start response installs a CONNECTING socket and the user id, stores every snapshot channel by id and by name in snapshot order, and appends one fan-out per channel; the subscription table and the token are unchanged; the registry invariant is kept |
| `SlackRtm.SlackSession.StoreSnapshotChannel` | chrome-extension/background/slack.js:78-80 | one snapshot channel is stored under its id, its name is indexed to that id, and the log grows by exactly the fan-out of its name; the invariant is kept |
| `SlackRtm.SnapshotStored` | chrome-extension/background/slack.js:77-81 | after the snapshot loop every snapshot channel is in both maps; the record stored under an id, and the id stored under a name, come from the last snapshot channel that has it |
| `SlackRtm.SnapshotNotifies` | chrome-extension/background/slack.js:77-81 | during the snapshot loop every subscriber of every snapshot channel's name is called with that channel |
| `SlackRtm.SlackSession.NotifySubscribers` | chrome-extension/background/slack.js:148-155 | the log grows by exactly the fan-out of the record's name, and nothing else changes |
| `SlackRtm.FanOutExact` | chrome-extension/background/slack.js:148-155 | a fan-out calls each tab registered under the name exactly once, with that tab's callback and the record, in ascending tab order; with no subscriber map it calls no one |
| `SlackRtm.SortedKeysSpec` | chrome-extension/background/slack.js:151 | the key order used for callbacks lists every tab id once, strictly ascending |
| `SlackRtm.FanOutSingle` | chrome-extension/background/slack.js:148-155 | a single subscriber is called exactly once, with its callback and the record |
| `SlackRtm.SlackSession.HandleMessage` | chrome-extension/background/slack.js:85-121 | `channel_created` stores the record under its id and its name and calls no one. `channel_joined` replaces the record under its id, leaves the name index unchanged, and notifies the subscribers of the new record's name. `channel_left` sets only `isMember` to false and notifies. `channel_marked` sets only the two unread counts to the event's values and notifies. A `message` with no subtype, from another user, to a known channel adds exactly 1 to both counts and notifies. Every other event, a subtyped message, one's own message, or a message to an unknown id changes nothing and calls no one. `threw` holds exactly for left or marked on an unknown id, and then nothing changes. The subscriptions, the token, the user id and the socket never change, and the registry invariant is kept |
| `SlackRtm.SlackSession.Subscribe` | chrome-extension/background/slack.js:130-139 | the tab's callback is registered under the name, replacing an earlier one of the same tab, and other names are untouched; the callback is called at once with the current record exactly when the name index holds a non-empty id for the name; the invariant (no empty subscriber maps) is kept |
| `SlackRtm.SlackSession.Unsubscribe` | chrome-extension/background/slack.js:140-145 | only the tab's entry under the name is removed, and the name's map is dropped when no tab is left; other names are untouched; a missing map throws and changes nothing |
| `SlackRtm.SlackSession.Disconnect` | chrome-extension/background/slack.js:52-59 | both channel maps are emptied; the socket handle is cleared only when it is not already CLOSED; the subscription table, token, user id and log are unchanged |
| `SlackRtm.SlackSession.OnSocketClose` | chrome-extension/background/slack.js:72-74 | the close handler empties the registry; a CLOSED socket stays as the handle, and when an explicit disconnect already nulled the handle, it stays null; everything else is unchanged |
| `SlackRtmScenarios.MarkedAfterSnapshot` | chrome-extension/background/slack.js:101-105 | a tab subscribed before the snapshot receives exactly two calls: the snapshot record, then the record with the marked unread counts; `channel_marked` on the known channel does not throw |
| `SlackRtmScenarios.MessageBeforeCreated` | chrome-extension/background/slack.js:113-118 | a message to an unknown channel creates no record and calls no one; a later `channel_created` for that id is stored normally |
| `SlackRtmScenarios.LeftBeforeSnapshot` | chrome-extension/background/slack.js:96-98 | `channel_left` on an empty registry throws and leaves the registry empty |
| `SlackRtmScenarios.CreatedThenJoined` | chrome-extension/background/slack.js:88-95 | after `channel_created` and `channel_joined` for one id, the id holds the joined record and the created name resolves to that same record; neither event throws |
| `SlackRtmScenarios.ReconnectAfterRemoteClose` | chrome-extension/background/slack.js:52-64 | after the socket closes on its own, the handle stays CLOSED and `initSlackRtm` requests nothing |
| `SlackRtmScenarios.ReconnectAfterDisconnect` | chrome-extension/background/slack.js:52-82 | an explicit disconnect of a socket that is connecting, open or closing (or of no socket), then a new start, reuses the cached token, rebuilds the registry from the fresh snapshot, and re-notifies every subscriber |
| `QueryString.RequestUrl` | chrome-extension/background/slack.js:170-173 | the URL starts with the url and `?`; with no parameters it is exactly `url + "?"`, and with one parameter it is `url?k=v` |
| `QueryString.Assignments` | chrome-extension/background/slack.js:171-172 | one `k=v` string per parameter, in key order |
| `QueryString.RequestUrlRoundTrip` | chrome-extension/background/slack.js:170-173 | for a url without `?` and at least one parameter, the query string of the request URL parses back to exactly the parameters, in order, when no key holds `?`, `&` or `=` and no value holds `?` or `&` (nothing is encoded); with no parameters the query is empty and this is not claimed |
| `QueryString.SplitJoin` | chrome-extension/background/slack.js:173 | splitting an `&`-join of at least one part returns the parts when no part holds `&` (a join of no parts is `""`, which splits into `[""]`) |
| `QueryString.CodeParam` | chrome-extension/background/slack.js:36 | the regex `code=([^&]+)` finds a capture exactly when it matches at some position; the capture is the greedy run of non-`&` characters after `code=` at the leftmost matching position, so it is non-empty and free of `&` |
| `QueryString.QueryOf` | chrome-extension/background/slack.js:35 | `redirectUrl.split("?")[1]` exists exactly when the URL holds a `?`, and it is the text between the first `?` and the next `?` or the end |
| `QueryString.AuthorizationCode` | chrome-extension/background/slack.js:35-37 | a code is found exactly when the redirect URL holds a `?` and the regex matches the query piece; the code is the capture at the leftmost match |
| `QueryString.AuthorizationCodeOf` | chrome-extension/background/slack.js:35-36 | for a base, a code and a rest without `?`, and a non-empty code without `&`, a redirect `base?code=c&rest` yields exactly `c` |
| `SlackBot.MakePuzzleAddress` | slack-bot/index.js:68-70 | the address is an `http://` URL whose remainder is the host followed by the path |
| `SlackBot.MakeSlackChannelLink` | slack-bot/index.js:72-74 | the link is a `<#...>` reference whose length is that of the id and name plus the four markup characters |
| `SlackBot.ChannelLinkRoundTrip` | slack-bot/index.js:72-74 | for a channel id without `\|`, the link reads back as the puzzle's channel id and channel name |
| `SlackBot.MakeSlackUserTag` | slack-bot/index.js:76-83 | a user with a Slack id is tagged `<@id>`; otherwise the tag is the display name |
| `SlackBot.UserTagMentions` | slack-bot/index.js:76-83 | a tag mentions exactly the user's Slack id when there is one; otherwise the tag is the display name as it is, so it mentions whoever that name mentions: nobody when it does not start with `<@`, and `id` when it has the shape `<@id>` |
| `SlackBot.MakeSolvedMessage` | slack-bot/index.js:56-60 | the message is exactly the user tag, ` has solved `, the puzzle name, ` (`, the puzzle address, `) :correct:` and the solution line: each piece sits at its offset, the message ends with `) :correct:` plus the solution line, and its length is the sum of the pieces; the solution line is present, and the message ends in a backtick, exactly when the puzzle has a solution |
| `SlackBot.MakeNewPuzzleMessage` | slack-bot/index.js:62-66 | the message is exactly the name, ` META` exactly when the puzzle is a meta, the unlock notice closing the first line, the address on its own line, the invitation line, and the channel link: each piece sits at its offset, and the length is the sum of the pieces |
| `SlackBot.HandleEvent` | slack-bot/index.js:17-33 | an event leads to work only when it is newer than the bot's start and named `PuzzleCreated` or `PuzzleSolutionChanged`, and it carries that event's puzzle (and user) id |
| `SlackBot.PostSlackMessage` | slack-bot/index.js:37-44 | posts carry the given channel and text under the bot's name, with `:callitin:` when no emoji is given |
| `SlackBot.PostFor` | slack-bot/index.js:17-38 | every post goes to `site-dev` under the bot's name and answers an event newer than the start; a new puzzle is posted with `:callitin:` exactly when its record exists (a missing record makes the formatter throw); a solve is posted with `:pikadance:` exactly when both records exist; other event names post nothing |
| `ValueJoin.HoldsExactly` | slack-bot/index.js:96-97 | the gate `snap && snap.val()` refuses exactly a missing snapshot and the falsy values `null`, `false`, `0` and `""` |
| `ValueJoin.OnValue2.constructor` | slack-bot/index.js:92-104 | a new join holds no snapshots, is attached to both references, and has not called back |
| `ValueJoin.OnValue2.On1` | slack-bot/index.js:101-103 | a first-reference snapshot is stored while attached, and the callback runs with both snapshots exactly when both are present with truthy values; every call passes two truthy values |
| `ValueJoin.OnValue2.On2` | slack-bot/index.js:102-104 | symmetric for the second reference: stored while attached, and the callback runs exactly when both snapshots are present with truthy values |
| `ValueJoin.OnValue2.Update` | slack-bot/index.js:95-100 | the callback runs with both snapshots exactly when both are present and both values are truthy |
| `ValueJoin.OnValue2.Detach` | slack-bot/index.js:106-109 | after detaching, no further value reaches the join |
| `ValueJoin.OnceValue2.constructor` | slack-bot/index.js:113-125 | a new join holds no snapshots, still listens once on each reference, and has not called back |
| `ValueJoin.OnceValue2.On1` | slack-bot/index.js:122-124 | the single first-reference snapshot is stored, and the callback runs at most once over the join's life, only when both snapshots are present with truthy values, and with exactly those values |
| `ValueJoin.OnceValue2.On2` | slack-bot/index.js:123-125 | symmetric for the second reference: at most one call, only with both values truthy, with exactly those values |
| `ValueJoin.OnceValue2.Update` | slack-bot/index.js:116-121 | the callback runs with both values exactly when both snapshots are present and both values are truthy |

## Left out

- `connect` is left out: the storage read of the token, the interactive
  OAuth flow, the `oauth.access` exchange and the write-back of the token
  (`slack.js:15-50`) are asynchronous calls into services outside this code.
  `TokenAcquired` models only what happens when a token arrives.
- `SlackRtm.SlackSession.Subscribe`: assumes that the `connect()` call at
  the start of `subscribeToChannel` (`slack.js:131`) returns normally.
  `connect` reads `firebase.auth().currentUser.uid` synchronously
  (`slack.js:19-20`). When no user is signed in, that read throws, and the
  source then registers nothing. The model always registers.
- `connect` calls `initSlackRtm` twice when a token is cached
  (`slack.js:16-18` and `24`). Before the first response arrives, two
  `rtm.start` requests can be in flight. That interleaving is not modelled.
- `joinChannel` is left out: it sends a fire-and-forget request and has no
  effect on the state.
- The XHR and WebSocket transport is left out: ready-state and status
  gating, `JSON.parse`, and the socket URL of the `rtm.start` response.
  Events and snapshots are inputs that are already decoded.
- Callbacks are observers in the model. A callback that throws stops the
  source's `forEach` and leaves later subscribers uncalled. Callbacks that
  re-enter the module are not modelled either.
- The source passes the live record object to callbacks, and later in-place
  updates (`is_member`, `unread_count++`) show through it. The log records
  the value at call time.
- `SlackRtm.SlackSession.OnSocketClose`: a close that arrives after a new
  socket has replaced the handle is not modelled. In the source it would
  close and null the new socket. The handle is taken to be either the
  closing socket or null, the latter after an explicit `disconnect`.
- The channel maps are plain JavaScript objects. Names such as
  `constructor` or `__proto__`, which hit prototype properties, are not
  modelled. Neither is the order of tab keys that are not integers.
- `ValueJoin.Value` numbers are integers: a fractional number and `NaN`
  (falsy in JavaScript) are not modelled.
- Unread counts are unbounded integers, not JavaScript doubles. A missing
  count, which would become `NaN` on `++`, is not modelled.
- `QueryString.AuthorizationCode`: a redirect URL without `?` makes the
  source throw, which the model treats as "no code". Either way no token is
  requested.
- In the bot, the storage listener (`child_added`), the reads of the puzzle
  and user records, `chat.postMessage` and console logging are left out.
  `startTime` (`Date.now()`) is a parameter.
- `ValueJoin.OnValue2.On1`: value events after `detach` are no-ops, which
  stands in for the listener no longer being registered.
- The React/Redux web app (views, routing, puzzle hierarchy sorting, the
  login-page canvas animation, the Slack action glue) is not part of this
  model. It is UI code over external services.
