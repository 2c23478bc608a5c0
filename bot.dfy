/**
 * The notification bot (slack-bot/index.js): the message formatters, the
 * event filter of `handleEvent`, and the post that results once the puzzle
 * (and, for a solve, the user) have been read.
 */
module SlackBot {
  import opened Wrappers
  import QueryString

  const PostChannel := "site-dev"
  const DefaultEmoji := ":callitin:"
  const SolvedEmoji := ":pikadance:"
  const BotUsername := "SuperTeamAwesomeBot"

  /**
   * A puzzle record. `solution` is "" when the puzzle has no solution (a
   * missing or empty solution is falsy in the source).
   */
  datatype Puzzle = Puzzle(
    name: string,
    host: string,
    path: string,
    slackChannelId: string,
    slackChannel: string,
    isMeta: bool,
    solution: string)

  /** A user record; `slackUserId` is "" when the user has no Slack id. */
  datatype User = User(slackUserId: string, displayName: string)

  /** An `eventLogs` entry as the bot reads it. */
  datatype LogEvent = LogEvent(name: string, timestampMs: int, puzzleId: string, userId: string)

  /** What `handleEvent` goes on to read before posting, if anything. */
  datatype Reaction =
    | Ignore
    | AnnounceNewPuzzle(puzzleId: string)
    | AnnounceSolved(puzzleId: string, userId: string)

  /** A `chat.postMessage` call. */
  datatype Post = Post(channel: string, text: string, emoji: string, username: string)

  predicate StartsWith(s: string, prefix: string)
  {
    |prefix| <= |s| && s[..|prefix|] == prefix
  }

  predicate EndsWith(s: string, suffix: string)
  {
    |suffix| <= |s| && s[|s| - |suffix|..] == suffix
  }

  predicate OccursAt(s: string, i: nat, t: string)
  {
    i + |t| <= |s| && s[i..i + |t|] == t
  }

  /** `makePuzzleAddress`: an http URL made of the puzzle's host and path. */
  function MakePuzzleAddress(p: Puzzle): (r: string)
    ensures StartsWith(r, "http://") && r[7..] == p.host + p.path
  {
    "http://" + p.host + p.path
  }

  /** `makeSlackChannelLink`: Slack's `<#id|name>` channel reference. */
  function MakeSlackChannelLink(p: Puzzle): (r: string)
    ensures StartsWith(r, "<#") && EndsWith(r, ">")
    ensures |r| == |p.slackChannelId| + |p.slackChannel| + 4
  {
    "<#" + p.slackChannelId + "|" + p.slackChannel + ">"
  }

  /** `makeSlackUserTag`: a `<@id>` mention when the user has a Slack id, else the display name. */
  function MakeSlackUserTag(u: User): (r: string)
    ensures u.slackUserId != "" ==>
      |r| == |u.slackUserId| + 3 && StartsWith(r, "<@") && EndsWith(r, ">") && r[2..|r| - 1] == u.slackUserId
    ensures u.slackUserId == "" ==> r == u.displayName
  {
    if u.slackUserId != "" then "<@" + u.slackUserId + ">" else u.displayName
  }

  /** Reads a `<#id|name>` reference back into its id and name. */
  function ParseChannelLink(s: string): Option<(string, string)>
  {
    if |s| >= 3 && s[..2] == "<#" && s[|s| - 1] == '>' then
      QueryString.SplitFirst(s[2..|s| - 1], '|')
    else None
  }

  /** Round trip: a channel link names the puzzle's channel id and channel name. */
  lemma ChannelLinkRoundTrip(p: Puzzle)
    requires '|' !in p.slackChannelId
    ensures ParseChannelLink(MakeSlackChannelLink(p)) == Some((p.slackChannelId, p.slackChannel))
  {
    var r := MakeSlackChannelLink(p);
    assert r[2..|r| - 1] == p.slackChannelId + ['|'] + p.slackChannel;
    QueryString.SplitFirstAt(p.slackChannelId, '|', p.slackChannel);
  }

  /** The user a `<@id>` mention refers to. */
  function MentionedUser(s: string): Option<string>
  {
    if |s| >= 3 && s[..2] == "<@" && s[|s| - 1] == '>' then Some(s[2..|s| - 1]) else None
  }

  /**
   * A tag mentions exactly the user's Slack id when there is one; otherwise
   * the display name is posted as it is, so a name shaped `<@id>` mentions `id`.
   */
  lemma UserTagMentions(u: User)
    ensures u.slackUserId != "" ==> MentionedUser(MakeSlackUserTag(u)) == Some(u.slackUserId)
    ensures u.slackUserId == "" && !StartsWith(u.displayName, "<@") ==> MentionedUser(MakeSlackUserTag(u)) == None
    ensures u.slackUserId == "" ==> MentionedUser(MakeSlackUserTag(u)) == MentionedUser(u.displayName)
  {
  }

  /**
   * `makeSolvedMessage`: the user tag, then " has solved " and the puzzle
   * name, the address in parentheses and `:correct:`, then the solution in
   * backticks exactly when the puzzle has one.
   */
  function MakeSolvedMessage(p: Puzzle, u: User): (r: string)
    ensures StartsWith(r, MakeSlackUserTag(u))
    ensures OccursAt(r, |MakeSlackUserTag(u)|, " has solved ")
    ensures OccursAt(r, |MakeSlackUserTag(u)| + 12, p.name)
    ensures OccursAt(r, |MakeSlackUserTag(u)| + 12 + |p.name|, " (")
    ensures OccursAt(r, |MakeSlackUserTag(u)| + 14 + |p.name|, MakePuzzleAddress(p))
    ensures p.solution != "" <==> r[|r| - 1] == '`'
    ensures EndsWith(r, ") :correct:" + SolutionLine(p))
    ensures |r| == |MakeSlackUserTag(u)| + 12 + |p.name| + 2 + |MakePuzzleAddress(p)| + 11 + |SolutionLine(p)|
  {
    var tag := MakeSlackUserTag(u);
    var suffix := SolutionLine(p);
    var r := tag + " has solved " + p.name + " (" + MakePuzzleAddress(p) + ") :correct:" + suffix;
    var tail := ") :correct:" + suffix;
    SolvedMessageShape(r, tag, p.name, MakePuzzleAddress(p), suffix);
    LastOfSuffix(r, tail);
    assert tail[|tail| - 1] == (if p.solution != "" then '`' else ':');
    r
  }

  /** The line that reveals the solution, empty when the puzzle has none. */
  function SolutionLine(p: Puzzle): string
  {
    if p.solution != "" then "\n Solution: `" + p.solution + "`" else ""
  }

  lemma SolvedMessageShape(r: string, tag: string, name: string, address: string, suffix: string)
    requires r == tag + " has solved " + name + " (" + address + ") :correct:" + suffix
    ensures
      && StartsWith(r, tag)
      && OccursAt(r, |tag|, " has solved ")
      && OccursAt(r, |tag| + 12, name)
      && OccursAt(r, |tag| + 12 + |name|, " (")
      && OccursAt(r, |tag| + 14 + |name|, address)
      && OccursAt(r, |r| - |suffix| - 11, ") :correct:")
      && EndsWith(r, suffix)
      && EndsWith(r, ") :correct:" + suffix)
  {
    var x1 := tag + " has solved ";
    var x2 := x1 + name;
    var x3 := x2 + " (";
    var x4 := x3 + address;
    var x5 := x4 + ") :correct:";
    assert r == x5 + suffix;
    Append(tag, " has solved ");
    Append(x1, name);
    Append(x2, " (");
    Append(x3, address);
    Append(x4, ") :correct:");
    Append(x5, suffix);
    assert r == x4 + (") :correct:" + suffix);
    Append(x4, ") :correct:" + suffix);
    Within(r, x5, |x4|, ") :correct:");
    PrefixTrans(r, x5, x4);
    Within(r, x4, |x3|, address);
    PrefixTrans(r, x4, x3);
    Within(r, x3, |x2|, " (");
    PrefixTrans(r, x3, x2);
    Within(r, x2, |x1|, name);
    PrefixTrans(r, x2, x1);
    Within(r, x1, |tag|, " has solved ");
    PrefixTrans(r, x1, tag);
  }

  /**
   * `makeNewPuzzleMessage`: the puzzle name, " META" right after it exactly
   * when the puzzle is a meta, the unlock notice ending the first line, the
   * address on a line of its own, and a closing invitation that ends with
   * the channel link.
   */
  function MakeNewPuzzleMessage(p: Puzzle): (r: string)
    ensures StartsWith(r, p.name)
    ensures OccursAt(r, |p.name|, " META") <==> p.isMeta
    ensures OccursAt(r, |p.name| + (if p.isMeta then 5 else 0), " has been unlocked!\n")
    ensures OccursAt(r, |p.name| + (if p.isMeta then 5 else 0) + 20, MakePuzzleAddress(p))
    ensures OccursAt(r, |p.name| + (if p.isMeta then 5 else 0) + 20 + |MakePuzzleAddress(p)|,
                     "\nJoin the slack channel ")
    ensures EndsWith(r, MakeSlackChannelLink(p))
    ensures |r| == |p.name| + (if p.isMeta then 5 else 0) + 20 + |MakePuzzleAddress(p)| + 24 + |MakeSlackChannelLink(p)|
  {
    var marker := if p.isMeta then " META" else "";
    NewPuzzleMessageShape(p.name, marker, MakePuzzleAddress(p), MakeSlackChannelLink(p));
    p.name + marker + " has been unlocked!\n" +
    MakePuzzleAddress(p) + "\nJoin the slack channel " + MakeSlackChannelLink(p)
  }

  lemma NewPuzzleMessageShape(name: string, marker: string, address: string, link: string)
    requires marker == "" || marker == " META"
    ensures var r := name + marker + " has been unlocked!\n" + address + "\nJoin the slack channel " + link;
      && StartsWith(r, name)
      && (OccursAt(r, |name|, " META") <==> marker == " META")
      && OccursAt(r, |name| + |marker|, " has been unlocked!\n")
      && OccursAt(r, |name| + |marker| + 20, address)
      && OccursAt(r, |name| + |marker| + 20 + |address|, "\nJoin the slack channel ")
      && EndsWith(r, link)
  {
    var x1 := name + marker;
    var x2 := x1 + " has been unlocked!\n";
    var x3 := x2 + address;
    var x4 := x3 + "\nJoin the slack channel ";
    var r := x4 + link;
    Append(name, marker);
    Append(x1, " has been unlocked!\n");
    Append(x2, address);
    Append(x3, "\nJoin the slack channel ");
    Append(x4, link);
    PrefixTrans(r, x4, x3);
    PrefixTrans(r, x3, x2);
    PrefixTrans(r, x2, x1);
    PrefixTrans(r, x1, name);
    Within(r, x4, |x3|, "\nJoin the slack channel ");
    Within(r, x3, |x2|, address);
    Within(r, x2, |x1|, " has been unlocked!\n");
    if marker == "" {
      NotMetaMarker(r, |name|);
    } else {
      Within(r, x1, |name|, marker);
    }
  }

  /** The unlock notice cannot be read as the " META" marker. */
  lemma NotMetaMarker(r: string, i: nat)
    requires OccursAt(r, i, " has been unlocked!\n")
    ensures !OccursAt(r, i, " META")
  {
    assert r[i..i + 5][1] == r[i..i + 20][1] == 'h';
  }

  /** `x + y` starts with `x`, ends with `y`, and holds `y` right after `x`. */
  lemma Append(x: string, y: string)
    ensures StartsWith(x + y, x) && EndsWith(x + y, y) && OccursAt(x + y, |x|, y)
  {
    assert (x + y)[..|x|] == x;
    assert (x + y)[|x|..] == y;
  }

  lemma PrefixTrans(s: string, x: string, w: string)
    requires StartsWith(s, x) && StartsWith(x, w)
    ensures StartsWith(s, w)
  {
    assert s[..|w|] == s[..|x|][..|w|];
  }

  lemma LastOfSuffix(s: string, t: string)
    requires EndsWith(s, t) && |t| > 0
    ensures s[|s| - 1] == t[|t| - 1]
  {
    assert s[|s| - 1] == s[|s| - |t|..][|t| - 1];
  }

  /** What occurs in a prefix occurs at the same place in the whole. */
  lemma Within(s: string, x: string, i: nat, t: string)
    requires StartsWith(s, x) && OccursAt(x, i, t)
    ensures OccursAt(s, i, t)
  {
    assert s[i..i + |t|] == s[..|x|][i..i + |t|];
  }

  /**
   * `handleEvent`'s filter: only events logged after the bot started, and
   * only puzzle creations and solution changes, lead to a post.
   */
  function HandleEvent(ev: LogEvent, startTime: int): (r: Reaction)
    ensures r != Ignore <==>
      ev.timestampMs > startTime && (ev.name == "PuzzleCreated" || ev.name == "PuzzleSolutionChanged")
    ensures r.AnnounceNewPuzzle? <==> ev.timestampMs > startTime && ev.name == "PuzzleCreated"
    ensures r.AnnounceNewPuzzle? ==> r.puzzleId == ev.puzzleId
    ensures r.AnnounceSolved? ==> r == AnnounceSolved(ev.puzzleId, ev.userId)
  {
    if ev.timestampMs > startTime then
      if ev.name == "PuzzleCreated" then AnnounceNewPuzzle(ev.puzzleId)
      else if ev.name == "PuzzleSolutionChanged" then AnnounceSolved(ev.puzzleId, ev.userId)
      else Ignore
    else Ignore
  }

  /** `postSlackMessage`: the bot's name, and `:callitin:` unless an emoji is given. */
  function PostSlackMessage(channel: string, message: string, emoji: Option<string>): (r: Post)
    ensures r.channel == channel && r.text == message && r.username == BotUsername
    ensures emoji.None? ==> r.emoji == DefaultEmoji
    ensures emoji.Some? ==> r.emoji == emoji.value
  {
    Post(channel, message, if emoji.Some? then emoji.value else DefaultEmoji, BotUsername)
  }

  /**
   * The post `handleEvent` leads to, given what the puzzle and user reads
   * return (None for a missing record). A new puzzle with no record throws
   * in the formatter and posts nothing; a solve waits for both records, as
   * `onceValue2` does.
   */
  function PostFor(ev: LogEvent, startTime: int, puzzle: Option<Puzzle>, user: Option<User>): (r: Option<Post>)
    ensures r.Some? ==> ev.timestampMs > startTime && r.value.channel == PostChannel && r.value.username == BotUsername
    ensures r.Some? && ev.name == "PuzzleCreated" ==>
      puzzle.Some? && r.value.emoji == DefaultEmoji && r.value.text == MakeNewPuzzleMessage(puzzle.value)
    ensures r.Some? && ev.name == "PuzzleSolutionChanged" ==>
      puzzle.Some? && user.Some? && r.value.emoji == SolvedEmoji && r.value.text == MakeSolvedMessage(puzzle.value, user.value)
    ensures ev.timestampMs > startTime && ev.name == "PuzzleCreated" ==> (r.Some? <==> puzzle.Some?)
    ensures ev.timestampMs > startTime && ev.name == "PuzzleSolutionChanged" ==>
      (r.Some? <==> puzzle.Some? && user.Some?)
    ensures ev.name != "PuzzleCreated" && ev.name != "PuzzleSolutionChanged" ==> r.None?
  {
    match HandleEvent(ev, startTime)
    case Ignore => None
    case AnnounceNewPuzzle(_) =>
      if puzzle.Some? then Some(PostSlackMessage(PostChannel, MakeNewPuzzleMessage(puzzle.value), None)) else None
    case AnnounceSolved(_, _) =>
      if puzzle.Some? && user.Some? then
        Some(PostSlackMessage(PostChannel, MakeSolvedMessage(puzzle.value, user.value), Some(SolvedEmoji)))
      else None
  }
}
