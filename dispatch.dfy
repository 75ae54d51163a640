/** `get_message_processor` and the `process_slack_message` closure it returns:
    building the configured bots, and answering one decoded Slack event with
    every bot in turn. The pure functions say what a run does to the bots'
    seen lists and quip lists and what it posts; the Processor class does it
    on the bot objects. */
module Dispatch {
  import opened Wrappers
  import opened Errors
  import opened Matcher
  import opened ServiceNow
  import opened Replies
  import opened LinkBots

  // ---------------------------------------------------------------------------
  // Events and posts

  /** The keys of a decoded event that the closure reads: `type`, `text`,
      `channel` and `bot_id`, each present or absent. */
  datatype Event = Event(kind: Option<string>, text: Option<string>, channel: Option<string>, botId: Option<string>)

  /** One `chat.post_message(channel, text)`. */
  datatype Post = Post(channel: string, text: string)

  /** Events the closure returns from without doing anything: anything but a
      message, and messages whose `bot_id` is truthy. */
  predicate Ignored(e: Event): (b: bool)
    ensures e.kind.Some? && e.kind.value != "message" ==> b
    ensures e.kind == Some("message") ==> (b <==> e.botId.Some? && e.botId.value != "")
    ensures e.kind.None? ==> !b
  {
    e.kind.Some? && (e.kind.value != "message" || (e.botId.Some? && e.botId.value != ""))
  }

  /** Messages that the bots are asked about. */
  predicate Answers(e: Event)
  {
    e.kind.Some? && !Ignored(e) && e.text.Some?
  }

  // ---------------------------------------------------------------------------
  // What a run does, on values

  /** What the closure needs to know of a bot: its pattern, the quip list
      object it draws from (possibly shared with other bots), and its message
      method. */
  datatype Profile = Profile(pattern: string, list: PyList, answer: Answerer)

  /** A message method that keeps a seen list: a seen label raises and
      changes nothing; a new one is recorded, and does not raise the seen error. */
  ghost predicate KeepsSeen(f: Answerer)
  {
    forall seen, quips, k, linkLabel ::
      (linkLabel in seen ==> f(seen, quips, k, linkLabel) == Outcome(Err(Seen(linkLabel)), seen, quips)) &&
      (linkLabel !in seen ==> (f(seen, quips, k, linkLabel).seen == seen + [linkLabel] &&
        !(f(seen, quips, k, linkLabel).reply.Err? && f(seen, quips, k, linkLabel).reply.error.Seen?)))
  }

  /** A message method that ignores the seen list: it never raises the seen
      error and leaves the list as it is. */
  ghost predicate IgnoresSeen(f: Answerer)
  {
    forall seen, quips, k, linkLabel ::
      f(seen, quips, k, linkLabel).seen == seen &&
      !(f(seen, quips, k, linkLabel).reply.Err? && f(seen, quips, k, linkLabel).reply.error.Seen?)
  }

  /** LinkBot and JiraLinkBot keep a seen list. */
  lemma LinkBotKeepsSeen(v: Variant, link: string)
    requires !v.ServiceNowBot?
    ensures KeepsSeen(AnswererOf(v, link))
  {
    forall seen, quips, k, linkLabel {
      RespondDedup(v, link, seen, quips, k, linkLabel);
    }
  }

  /** ServiceNowBot ignores it. */
  lemma ServiceNowBotIgnoresSeen(v: Variant, link: string)
    requires v.ServiceNowBot?
    ensures IgnoresSeen(AnswererOf(v, link))
  {
    forall seen, quips, k, linkLabel {
      ServiceNowIgnoresSeen(v.host, v.records, link, seen, seen, quips, k, linkLabel);
    }
  }

  /** Every post went to the channel of the event, which therefore has one. */
  predicate Addressed(posts: seq<Post>, channel: Option<string>)
  {
    forall j :: 0 <= j < |posts| ==> channel.Some? && posts[j].channel == channel.value
  }

  /** How far one bot has got through its matches: its seen list, the items
      of its quip list, the posts made so far, and the error that escaped, if any. */
  datatype Stage = Stage(seen: seq<string>, quips: seq<string>, posts: seq<Post>, failure: Option<Error>)

  /** One match of the inner loop, with random pick k: the channel is looked
      up before the message; the seen error is swallowed; any other error
      escapes; a reply is posted to the channel. */
  function Step(b: Profile, channel: Option<string>, s: Stage, k: nat, linkLabel: string): (r: Stage)
    requires s.failure.None?
    ensures r.failure.Some? ==> !r.failure.value.Seen?
    ensures channel.None? ==> r == s.(failure := Some(MissingKey("channel")))
    ensures r.posts == s.posts || (channel.Some? && r.failure.None? && |r.posts| == |s.posts| + 1 &&
      r.posts[..|s.posts|] == s.posts && r.posts[|s.posts|].channel == channel.value)
    ensures Addressed(s.posts, channel) ==> Addressed(r.posts, channel)
    ensures channel.Some? ==>
      var o := b.answer(s.seen, s.quips, k, linkLabel);
      r.seen == o.seen && r.quips == o.quips &&
      (o.reply.Ok? ==> r.posts == s.posts + [Post(channel.value, o.reply.value)] && r.failure.None?) &&
      (o.reply.Err? ==>
         r.posts == s.posts && r.failure == (if o.reply.error.Seen? then None else Some(o.reply.error)))
  {
    if channel.None? then s.(failure := Some(MissingKey("channel")))
    else
      var o := b.answer(s.seen, s.quips, k, linkLabel);
      if o.reply.Err? && o.reply.error.Seen? then Stage(o.seen, o.quips, s.posts, None)
      else if o.reply.Err? then Stage(o.seen, o.quips, s.posts, Some(o.reply.error))
      else Stage(o.seen, o.quips, s.posts + [Post(channel.value, o.reply.value)], None)
  }

  /** The first n matches of one bot's turn, before its reset, from seen list
      `seen` and quip list `quips`; the turn stops at the first error that escapes. */
  function Steps(b: Profile, channel: Option<string>, seen: seq<string>, quips: seq<string>,
                 labels: seq<string>, n: nat, picks: seq<nat>): (s: Stage)
    requires n <= |labels| && n <= |picks|
    ensures s.failure.Some? ==> !s.failure.value.Seen?
    ensures |s.posts| <= n
    decreases n
  {
    if n == 0 then Stage(seen, quips, [], None)
    else
      var prev := Steps(b, channel, seen, quips, labels, n - 1, picks);
      if prev.failure.Some? then prev else Step(b, channel, prev, picks[n - 1], labels[n - 1])
  }

  /** The state a run reads and changes: each bot's seen list, by position, and
      the items of each quip list object. */
  datatype World = World(seen: seq<seq<string>>, lists: map<PyList, seq<string>>)

  /** The world with bot i's seen list and the items of list q replaced. */
  function Put(w: World, i: nat, q: PyList, seen: seq<string>, items: seq<string>): (r: World)
    requires i < |w.seen|
  {
    World(w.seen[i := seen], w.lists[q := items])
  }

  /** What a run has done: the new state, the posts, and the error that escaped, if any. */
  datatype Effect = Effect(world: World, posts: seq<Post>, failure: Option<Error>)

  /** A well-formed world for the bots: one seen list per bot, and every bot's
      quip list known. */
  predicate Fits(bots: seq<Profile>, w: World)
  {
    |w.seen| == |bots| && forall j :: 0 <= j < |bots| ==> bots[j].list in w.lists
  }

  /** The labels each bot matches in the text, in order: `bot.match(text)`. */
  function Matched(bots: seq<Profile>, text: string): (ls: seq<seq<string>>)
    ensures |ls| == |bots|
    ensures forall j :: 0 <= j < |bots| ==> ls[j] == Labels(bots[j].pattern, text)
  {
    seq(|bots|, j requires 0 <= j < |bots| => Labels(bots[j].pattern, text))
  }

  /** One list of labels and one pick per label for every bot. */
  predicate Shape(bots: seq<Profile>, labels: seq<seq<string>>, picks: seq<seq<nat>>)
  {
    |labels| == |bots| && |picks| == |bots| && forall j :: 0 <= j < |bots| ==> |picks[j]| == |labels[j]|
  }

  /** A point of a run: bot n about to answer its match k, or the end. */
  predicate At(labels: seq<seq<string>>, n: nat, k: nat)
  {
    (n < |labels| && k <= |labels[n]|) || (n == |labels| && k == 0)
  }

  /** Enough picks for every match of every bot. */
  predicate Enough(bots: seq<Profile>, text: string, picks: seq<seq<nat>>)
  {
    Shape(bots, Matched(bots, text), picks)
  }

  /** A run up to a point: the turns of the first n bots, each ending with
      `bot.reset()`, then the first k matches of bot n. The run stops at the
      first error that escapes, without resetting the bot that raised it. */
  function Progress(bots: seq<Profile>, channel: Option<string>, labels: seq<seq<string>>, w: World,
                    picks: seq<seq<nat>>, n: nat, k: nat): (r: Effect)
    requires Fits(bots, w) && Shape(bots, labels, picks) && At(labels, n, k)
    ensures Fits(bots, r.world)
    decreases n, k
  {
    if k > 0 then
      var prev := Progress(bots, channel, labels, w, picks, n, k - 1);
      if prev.failure.Some? then prev
      else
        var b := bots[n];
        var s := Step(b, channel, Stage(prev.world.seen[n], prev.world.lists[b.list], prev.posts, None),
                      picks[n][k - 1], labels[n][k - 1]);
        Effect(Put(prev.world, n, b.list, s.seen, s.quips), s.posts, s.failure)
    else if n > 0 then
      var prev := Progress(bots, channel, labels, w, picks, n - 1, |labels[n - 1]|);
      if prev.failure.Some? then prev
      else
        var q := bots[n - 1].list;
        Effect(Put(prev.world, n - 1, q, [], prev.world.lists[q]), prev.posts, None)
    else Effect(w, [], None)
  }

  /** `process_slack_message` on a decoded event: a missing `type` raises
      KeyError; ignored events do nothing; a message without `text` raises
      KeyError at the first bot; otherwise every bot takes its turn. */
  function Expected(bots: seq<Profile>, e: Event, w: World, picks: seq<seq<nat>>): (r: Effect)
    requires Fits(bots, w)
    requires Answers(e) ==> Enough(bots, e.text.value, picks)
    ensures Fits(bots, r.world)
    ensures e.kind.None? ==> r == Effect(w, [], Some(MissingKey("type")))
    ensures Ignored(e) ==> r == Effect(w, [], None)
    ensures r.failure.Some? ==> !r.failure.value.Seen?
    ensures r.failure.None? && !Ignored(e) ==> forall j :: 0 <= j < |bots| ==> r.world.seen[j] == []
    ensures Answers(e) ==> Addressed(r.posts, e.channel)
  {
    if e.kind.None? then Effect(w, [], Some(MissingKey("type")))
    else if Ignored(e) then Effect(w, [], None)
    else if e.text.None? then
      if bots == [] then Effect(w, [], None) else Effect(w, [], Some(MissingKey("text")))
    else
      ProgressKeeps(bots, e.channel, Matched(bots, e.text.value), w, picks, |bots|, 0);
      Progress(bots, e.channel, Matched(bots, e.text.value), w, picks, |bots|, 0)
  }

  /** What every point of a run keeps: the quip lists all still there; the
      seen error never escapes; with no error, the first n bots, whose turn is
      over, are reset; the bots still to come are untouched; every post goes
      to the event's channel. */
  predicate Keeps(bots: seq<Profile>, channel: Option<string>, w: World, n: nat, r: Effect)
    requires Fits(bots, w) && Fits(bots, r.world) && n <= |bots|
  {
    (forall q :: q in w.lists ==> q in r.world.lists) &&
    (r.failure.Some? ==> !r.failure.value.Seen?) &&
    (r.failure.None? ==> forall j :: 0 <= j < n ==> r.world.seen[j] == []) &&
    (forall j :: n < j < |bots| ==> r.world.seen[j] == w.seen[j]) &&
    Addressed(r.posts, channel)
  }

  lemma {:induction false} ProgressKeeps(bots: seq<Profile>, channel: Option<string>, labels: seq<seq<string>>,
                                         w: World, picks: seq<seq<nat>>, n: nat, k: nat)
    requires Fits(bots, w) && Shape(bots, labels, picks) && At(labels, n, k)
    ensures Keeps(bots, channel, w, n, Progress(bots, channel, labels, w, picks, n, k))
    decreases n, k
  {
    if k > 0 {
      ProgressKeeps(bots, channel, labels, w, picks, n, k - 1);
    } else if n > 0 {
      ProgressKeeps(bots, channel, labels, w, picks, n - 1, |labels[n - 1]|);
    }
  }

  /** A bot whose turn ended without an escaping error stays reset at every
      later point of the run, even when a later bot then raises: the reset of
      each bot follows its own loop, not the end of the run. */
  lemma {:induction false} DoneStaysReset(bots: seq<Profile>, channel: Option<string>, labels: seq<seq<string>>,
                                          w: World, picks: seq<seq<nat>>, j: nat, n: nat, k: nat)
    requires Fits(bots, w) && Shape(bots, labels, picks) && At(labels, n, k)
    requires j < n && Progress(bots, channel, labels, w, picks, j + 1, 0).failure.None?
    ensures Progress(bots, channel, labels, w, picks, n, k).world.seen[j] == []
    decreases n, k
  {
    if k > 0 {
      DoneStaysReset(bots, channel, labels, w, picks, j, n, k - 1);
    } else if n > j + 1 {
      DoneStaysReset(bots, channel, labels, w, picks, j, n - 1, |labels[n - 1]|);
    } else {
      ProgressKeeps(bots, channel, labels, w, picks, j + 1, 0);
    }
  }

  // ---------------------------------------------------------------------------
  // Properties of a run

  /** The labels a bot that keeps a seen list answers, in order: each label
      not seen before, the first time it occurs. */
  function Fresh(seen: seq<string>, labels: seq<string>): (f: seq<string>)
    ensures forall x :: x in f ==> x in labels && x !in seen
    ensures forall x :: x in labels ==> x in seen || x in f
    ensures forall a, c :: 0 <= a < c < |f| ==> f[a] != f[c]
    decreases |labels|
  {
    if labels == [] then []
    else
      var f := Fresh(seen, labels[..|labels| - 1]);
      var x := labels[|labels| - 1];
      assert forall y :: y in labels ==> y in labels[..|labels| - 1] || y == x;
      if x in seen || x in f then f else f + [x]
  }

  /** Without a channel, a bot with a match raises KeyError before answering it. */
  lemma {:induction false} NoChannelStops(b: Profile, seen: seq<string>, quips: seq<string>,
                                          labels: seq<string>, n: nat, picks: seq<nat>)
    requires 0 < n <= |labels| && n <= |picks|
    ensures Steps(b, None, seen, quips, labels, n, picks) == Stage(seen, quips, [], Some(MissingKey("channel")))
  {
    if n > 1 {
      NoChannelStops(b, seen, quips, labels, n - 1, picks);
    }
  }

  /** A LinkBot or JiraLinkBot whose turn raises nothing posts once for every
      label it has not seen, the first time it meets it, and nothing for the
      others; by then its seen list holds exactly those labels added. */
  lemma {:induction false} StepsAnswerFresh(b: Profile, channel: Option<string>, seen: seq<string>,
                                            quips: seq<string>, labels: seq<string>, n: nat, picks: seq<nat>)
    requires n <= |labels| && n <= |picks|
    requires KeepsSeen(b.answer)
    requires Steps(b, channel, seen, quips, labels, n, picks).failure.None?
    ensures var s := Steps(b, channel, seen, quips, labels, n, picks);
      s.seen == seen + Fresh(seen, labels[..n]) && |s.posts| == |Fresh(seen, labels[..n])|
  {
    if n == 0 {
      assert labels[..0] == [];
    } else {
      var prev := Steps(b, channel, seen, quips, labels, n - 1, picks);
      assert prev.failure.None?;
      StepsAnswerFresh(b, channel, seen, quips, labels, n - 1, picks);
      FreshLast(seen, labels, n);
      FreshStep(b, channel, prev, seen, Fresh(seen, labels[..n - 1]), picks[n - 1], labels[n - 1]);
    }
  }

  /** One step of StepsAnswerFresh: a label already seen changes nothing; a
      new one is recorded and posted. */
  /** One more label adds itself to the fresh ones, unless it was seen already. */
  lemma FreshLast(seen: seq<string>, labels: seq<string>, n: nat)
    requires 0 < n <= |labels|
    ensures var f := Fresh(seen, labels[..n - 1]); var x := labels[n - 1];
      Fresh(seen, labels[..n]) == if x in seen || x in f then f else f + [x]
  {
    assert labels[..n][..n - 1] == labels[..n - 1];
    assert labels[..n][n - 1] == labels[n - 1];
  }

  lemma FreshStep(b: Profile, channel: Option<string>, prev: Stage, seen: seq<string>, f: seq<string>,
                  k: nat, x: string)
    requires KeepsSeen(b.answer) && prev.failure.None? && prev.seen == seen + f
    requires Step(b, channel, prev, k, x).failure.None?
    ensures var r := Step(b, channel, prev, k, x);
      r.seen == seen + (if x in seen || x in f then f else f + [x]) &&
      |r.posts| == |prev.posts| + (if x in seen || x in f then 0 else 1)
  {
    assert x in prev.seen <==> x in seen || x in f;
    var o := b.answer(prev.seen, prev.quips, k, x);
    if channel.Some? && x !in prev.seen {
      assert o.seen == prev.seen + [x] && o.reply.Ok?;
      assert (seen + f) + [x] == seen + (f + [x]);
    }
  }

  /** A ServiceNowBot whose turn raises nothing answers every match, repeats
      included, and its seen list stays as it was. */
  lemma {:induction false} StepsAnswerAll(b: Profile, channel: Option<string>, seen: seq<string>,
                                          quips: seq<string>, labels: seq<string>, n: nat, picks: seq<nat>)
    requires n <= |labels| && n <= |picks|
    requires IgnoresSeen(b.answer)
    requires Steps(b, channel, seen, quips, labels, n, picks).failure.None?
    ensures var s := Steps(b, channel, seen, quips, labels, n, picks);
      s.seen == seen && |s.posts| == n
  {
    if n > 0 {
      StepsAnswerAll(b, channel, seen, quips, labels, n - 1, picks);
    }
  }

  /** A whole turn of a bot of class v that raises nothing: a LinkBot or
      JiraLinkBot posts once per fresh label, a ServiceNowBot once per match. */
  lemma TurnPosts(v: Variant, link: string, b: Profile, channel: Option<string>, seen: seq<string>,
                  quips: seq<string>, labels: seq<string>, picks: seq<nat>)
    requires b.answer == AnswererOf(v, link) && |labels| <= |picks|
    requires Steps(b, channel, seen, quips, labels, |labels|, picks).failure.None?
    ensures var s := Steps(b, channel, seen, quips, labels, |labels|, picks);
      (!v.ServiceNowBot? ==> |s.posts| == |Fresh(seen, labels)|) &&
      (v.ServiceNowBot? ==> |s.posts| == |labels|)
  {
    assert labels[..|labels|] == labels;
    if v.ServiceNowBot? {
      ServiceNowBotIgnoresSeen(v, link);
      StepsAnswerAll(b, channel, seen, quips, labels, |labels|, picks);
    } else {
      LinkBotKeepsSeen(v, link);
      StepsAnswerFresh(b, channel, seen, quips, labels, |labels|, picks);
    }
  }

  /** A step does not look at the posts made before it. */
  lemma StepPrefix(b: Profile, channel: Option<string>, s: Stage, before: seq<Post>, k: nat, linkLabel: string)
    requires s.failure.None?
    ensures var r := Step(b, channel, s, k, linkLabel);
      Step(b, channel, s.(posts := before + s.posts), k, linkLabel) == r.(posts := before + r.posts)
  {
    if channel.Some? {
      var o := b.answer(s.seen, s.quips, k, linkLabel);
      if o.reply.Ok? {
        assert (before + s.posts) + [Post(channel.value, o.reply.value)] ==
          before + (s.posts + [Post(channel.value, o.reply.value)]);
      }
    }
  }

  /** Within bot n's turn, up to its match k, the run is that bot's Steps
      from the state its turn started in, written back into the world. */
  predicate WithinTurn(bots: seq<Profile>, channel: Option<string>, labels: seq<seq<string>>,
                       w: World, picks: seq<seq<nat>>, n: nat, k: nat)
    requires Fits(bots, w) && Shape(bots, labels, picks) && n < |bots| && k <= |labels[n]|
  {
    var start := Progress(bots, channel, labels, w, picks, n, 0);
    var q := bots[n].list;
    var s := Steps(bots[n], channel, start.world.seen[n], start.world.lists[q], labels[n], k, picks[n]);
    Progress(bots, channel, labels, w, picks, n, k) ==
      Effect(Put(start.world, n, q, s.seen, s.quips), start.posts + s.posts, s.failure)
  }

  /** The whole of a bot's turn is its Steps. */
  lemma {:induction false} ProgressSteps(bots: seq<Profile>, channel: Option<string>, labels: seq<seq<string>>,
                                         w: World, picks: seq<seq<nat>>, n: nat, k: nat)
    requires Fits(bots, w) && Shape(bots, labels, picks) && n < |bots| && k <= |labels[n]|
    requires Progress(bots, channel, labels, w, picks, n, 0).failure.None?
    ensures WithinTurn(bots, channel, labels, w, picks, n, k)
  {
    if k == 0 {
      var start := Progress(bots, channel, labels, w, picks, n, 0);
      PutSame(start.world, n, bots[n].list);
      assert start.posts + [] == start.posts;
    } else {
      ProgressSteps(bots, channel, labels, w, picks, n, k - 1);
      WithinTurnNext(bots, channel, labels, w, picks, n, k - 1);
    }
  }

  /** One match further within the turn. */
  lemma WithinTurnNext(bots: seq<Profile>, channel: Option<string>, labels: seq<seq<string>>,
                       w: World, picks: seq<seq<nat>>, n: nat, k: nat)
    requires Fits(bots, w) && Shape(bots, labels, picks) && n < |bots| && k < |labels[n]|
    requires Progress(bots, channel, labels, w, picks, n, 0).failure.None?
    requires WithinTurn(bots, channel, labels, w, picks, n, k)
    ensures WithinTurn(bots, channel, labels, w, picks, n, k + 1)
  {
    var start := Progress(bots, channel, labels, w, picks, n, 0);
    var q := bots[n].list;
    var s := Steps(bots[n], channel, start.world.seen[n], start.world.lists[q], labels[n], k, picks[n]);
    if s.failure.None? {
      var prev := Progress(bots, channel, labels, w, picks, n, k);
      assert prev.world.seen[n] == s.seen && prev.world.lists[q] == s.quips;
      var here := s.(posts := start.posts + s.posts);
      assert Stage(prev.world.seen[n], prev.world.lists[q], prev.posts, None) == here;
      var r := Step(bots[n], channel, s, picks[n][k], labels[n][k]);
      assert Steps(bots[n], channel, start.world.seen[n], start.world.lists[q], labels[n], k + 1, picks[n]) == r;
      StepPrefix(bots[n], channel, s, start.posts, picks[n][k], labels[n][k]);
      var r' := Step(bots[n], channel, here, picks[n][k], labels[n][k]);
      assert r' == r.(posts := start.posts + r.posts);
      assert Progress(bots, channel, labels, w, picks, n, k + 1) ==
        Effect(Put(prev.world, n, q, r'.seen, r'.quips), r'.posts, r'.failure);
      PutTwice(start.world, n, q, s.seen, s.quips, r.seen, r.quips);
    }
  }

  /** The picks with the pick for bot i's match j set to x. */
  function SetPick(picks: seq<seq<nat>>, i: nat, j: nat, x: nat): (r: seq<seq<nat>>)
    requires i < |picks| && j < |picks[i]|
    ensures |r| == |picks| && forall a :: 0 <= a < |picks| ==> |r[a]| == |picks[a]|
    ensures r[i][j] == x
    ensures forall a, c :: 0 <= a < |picks| && 0 <= c < |picks[a]| && (a, c) != (i, j) ==> r[a][c] == picks[a][c]
  {
    var row: seq<nat> := picks[i][j := x];
    picks[i := row]
  }

  /** The run one match further on: bot n answers its match k. */
  lemma ProgressNext(bots: seq<Profile>, channel: Option<string>, labels: seq<seq<string>>,
                     w: World, picks: seq<seq<nat>>, n: nat, k: nat)
    requires Fits(bots, w) && Shape(bots, labels, picks) && n < |bots| && k < |labels[n]|
    requires Progress(bots, channel, labels, w, picks, n, k).failure.None?
    ensures var prev := Progress(bots, channel, labels, w, picks, n, k);
      var q := bots[n].list;
      var s := Step(bots[n], channel, Stage(prev.world.seen[n], prev.world.lists[q], prev.posts, None),
                    picks[n][k], labels[n][k]);
      Progress(bots, channel, labels, w, picks, n, k + 1) == Effect(Put(prev.world, n, q, s.seen, s.quips), s.posts, s.failure)
  {
  }

  /** The run one bot further on: bot n, having answered all its matches, is reset. */
  lemma ProgressReset(bots: seq<Profile>, channel: Option<string>, labels: seq<seq<string>>,
                      w: World, picks: seq<seq<nat>>, n: nat)
    requires Fits(bots, w) && Shape(bots, labels, picks) && n < |bots|
    requires Progress(bots, channel, labels, w, picks, n, |labels[n]|).failure.None?
    ensures var prev := Progress(bots, channel, labels, w, picks, n, |labels[n]|);
      var q := bots[n].list;
      Progress(bots, channel, labels, w, picks, n + 1, 0) == Effect(Put(prev.world, n, q, [], prev.world.lists[q]), prev.posts, None)
  {
  }

  /** Picks at or after a point do not change the run up to it. */
  lemma {:induction false} ProgressPicks(bots: seq<Profile>, channel: Option<string>, labels: seq<seq<string>>,
                                         w: World, picks: seq<seq<nat>>, n: nat, k: nat, i: nat, j: nat, x: nat)
    requires Fits(bots, w) && Shape(bots, labels, picks) && At(labels, n, k)
    requires i < |bots| && j < |labels[i]| && (n < i || (n == i && k <= j))
    ensures Shape(bots, labels, SetPick(picks, i, j, x))
    ensures Progress(bots, channel, labels, w, SetPick(picks, i, j, x), n, k) ==
      Progress(bots, channel, labels, w, picks, n, k)
    decreases n, k
  {
    if k > 0 {
      ProgressPicks(bots, channel, labels, w, picks, n, k - 1, i, j, x);
    } else if n > 0 {
      ProgressPicks(bots, channel, labels, w, picks, n - 1, |labels[n - 1]|, i, j, x);
    }
  }

  /** Once an error escapes, nothing further happens: every later point of
      the run is that same point. */
  lemma {:induction false} ProgressStops(bots: seq<Profile>, channel: Option<string>, labels: seq<seq<string>>,
                                         w: World, picks: seq<seq<nat>>, n: nat, k: nat, n': nat, k': nat)
    requires Fits(bots, w) && Shape(bots, labels, picks) && At(labels, n, k) && At(labels, n', k')
    requires n < n' || (n == n' && k <= k')
    requires Progress(bots, channel, labels, w, picks, n, k).failure.Some?
    ensures Progress(bots, channel, labels, w, picks, n', k') == Progress(bots, channel, labels, w, picks, n, k)
    decreases n', k'
  {
    if n' == n && k' == k {
    } else if k' > 0 {
      ProgressStops(bots, channel, labels, w, picks, n, k, n', k' - 1);
      StopsWithin(bots, channel, labels, w, picks, n', k');
    } else {
      ProgressStops(bots, channel, labels, w, picks, n, k, n' - 1, |labels[n' - 1]|);
      StopsBetween(bots, channel, labels, w, picks, n');
    }
  }

  /** After an error, a further match of the same bot changes nothing. */
  lemma StopsWithin(bots: seq<Profile>, channel: Option<string>, labels: seq<seq<string>>,
                    w: World, picks: seq<seq<nat>>, n: nat, k: nat)
    requires Fits(bots, w) && Shape(bots, labels, picks) && At(labels, n, k) && k > 0
    requires Progress(bots, channel, labels, w, picks, n, k - 1).failure.Some?
    ensures Progress(bots, channel, labels, w, picks, n, k) == Progress(bots, channel, labels, w, picks, n, k - 1)
  {
  }

  /** After an error, the reset that would end the bot's turn does not happen. */
  lemma StopsBetween(bots: seq<Profile>, channel: Option<string>, labels: seq<seq<string>>,
                     w: World, picks: seq<seq<nat>>, n: nat)
    requires Fits(bots, w) && Shape(bots, labels, picks) && At(labels, n, 0) && n > 0
    requires Progress(bots, channel, labels, w, picks, n - 1, |labels[n - 1]|).failure.Some?
    ensures Progress(bots, channel, labels, w, picks, n, 0) ==
      Progress(bots, channel, labels, w, picks, n - 1, |labels[n - 1]|)
  {
  }

  /** A message matched by no bot posts nothing and only resets the bots. */
  lemma {:induction false} NoMatchesNoPosts(bots: seq<Profile>, channel: Option<string>, labels: seq<seq<string>>,
                                            w: World, picks: seq<seq<nat>>, n: nat)
    requires Fits(bots, w) && Shape(bots, labels, picks) && n <= |bots|
    requires forall j :: 0 <= j < |bots| ==> labels[j] == []
    ensures var r := Progress(bots, channel, labels, w, picks, n, 0);
      r.posts == [] && r.failure.None? && r.world.lists == w.lists
  {
    if n > 0 {
      NoMatchesNoPosts(bots, channel, labels, w, picks, n - 1);
      var prev := Progress(bots, channel, labels, w, picks, n - 1, 0);
      assert prev.world.lists[bots[n - 1].list := prev.world.lists[bots[n - 1].list]] == prev.world.lists;
    }
  }

  /** Replacing bot i's state twice keeps only the second replacement. */
  lemma PutTwice(w: World, i: nat, q: PyList, seen: seq<string>, items: seq<string>,
                 seen': seq<string>, items': seq<string>)
    requires i < |w.seen|
    ensures Put(Put(w, i, q, seen, items), i, q, seen', items') == Put(w, i, q, seen', items')
  {
    assert w.seen[i := seen][i := seen'] == w.seen[i := seen'];
    assert w.lists[q := items][q := items'] == w.lists[q := items'];
  }

  /** Replacing bot i's state by what it already is changes nothing. */
  lemma PutSame(w: World, i: nat, q: PyList)
    requires i < |w.seen| && q in w.lists
    ensures Put(w, i, q, w.seen[i], w.lists[q]) == w
  {
    assert w.seen[i := w.seen[i]] == w.seen;
    assert w.lists[q := w.lists[q]] == w.lists;
  }

  // ---------------------------------------------------------------------------
  // Building the bots

  /** One entry of LINKBOTS: MATCH, LINK, QUIPS and LINK_CLASS, each present
      or absent, and what the bot's client would answer (the Jira issues; the
      ServiceNow host and records). */
  datatype BotConfig = BotConfig(matchText: Option<string>, link: Option<string>, quips: Option<PyList>,
                                 linkClass: Option<string>, issues: map<string, Issue>,
                                 host: string, records: map<string, Record>)

  /** `globals()[conf.get('LINK_CLASS', 'LinkBot')]`: the three bot classes;
      any other name raises KeyError. */
  function VariantOf(c: BotConfig): (r: Result<Variant, Error>)
    ensures c.linkClass.None? ==> r == Ok(Plain)
    ensures r.Ok? && r.value.Plain? ==> c.linkClass.None? || c.linkClass.value == "LinkBot"
    ensures r.Ok? && r.value.Jira? ==> c.linkClass == Some("JiraLinkBot") && r.value.issues == c.issues
    ensures r.Ok? && r.value.ServiceNowBot? ==>
      c.linkClass == Some("ServiceNowBot") && r.value.host == c.host && r.value.records == c.records
    ensures r.Err? ==> (c.linkClass.Some? && r.error == UnknownClass(c.linkClass.value) &&
      c.linkClass.value !in {"LinkBot", "JiraLinkBot", "ServiceNowBot"})
  {
    var name := if c.linkClass.Some? then c.linkClass.value else "LinkBot";
    if name == "LinkBot" then Ok(Plain)
    else if name == "JiraLinkBot" then Ok(Jira(c.issues))
    else if name == "ServiceNowBot" then Ok(ServiceNowBot(c.host, c.records))
    else Err(UnknownClass(name))
  }

  /** The classes of all configured bots, or the first unknown class name. */
  function Classes(cs: seq<BotConfig>): (r: Result<seq<Variant>, Error>)
    ensures r.Ok? <==> forall j :: 0 <= j < |cs| ==> VariantOf(cs[j]).Ok?
    ensures r.Ok? ==> |r.value| == |cs| && forall j :: 0 <= j < |cs| ==> r.value[j] == VariantOf(cs[j]).value
    ensures r.Err? ==> exists j :: (0 <= j < |cs| && VariantOf(cs[j]) == Err(r.error) &&
      forall a :: 0 <= a < j ==> VariantOf(cs[a]).Ok?)
  {
    if cs == [] then Ok([])
    else
      match VariantOf(cs[0])
      case Err(e) => Err(e)
      case Ok(v) =>
        var rest := Classes(cs[1..]);
        if rest.Err? then
          assert forall j :: 1 <= j < |cs| ==> cs[j] == cs[1..][j - 1];
          Err(rest.error)
        else
          assert forall j :: 1 <= j < |cs| ==> cs[j] == cs[1..][j - 1];
          Ok([v] + rest.value)
  }

  /** The first unknown class name is the one reported. */
  lemma {:induction false} FirstUnknown(cs: seq<BotConfig>, i: nat)
    requires i < |cs| && VariantOf(cs[i]).Err?
    requires forall a :: 0 <= a < i ==> VariantOf(cs[a]).Ok?
    ensures Classes(cs) == Err(VariantOf(cs[i]).error)
  {
    if i > 0 {
      assert forall a :: 0 <= a < i - 1 ==> cs[1..][a] == cs[a + 1];
      FirstUnknown(cs[1..], i - 1);
    }
  }

  /** A bot that `__init__` made from configuration c, as class v. */
  ghost predicate Configured(bot: LinkBot, c: BotConfig, classQuips: PyList, v: Variant)
  {
    bot.variant == v &&
    bot.pattern == (if c.matchText.Some? then c.matchText.value else "None") &&
    bot.link == (if c.link.Some? then c.link.value else DefaultLink) &&
    bot.quips == (if c.quips.Some? then c.quips.value else classQuips)
  }

  /** A bot that has answered nothing yet. */
  ghost predicate Unused(bot: LinkBot)
    reads bot
  {
    bot.seen == [] && bot.pool == null
  }

  /** A new bot made by `__init__` from configuration c, of class v. */
  ghost predicate Built(bot: LinkBot, c: BotConfig, classQuips: PyList, v: Variant)
    reads bot
  {
    Configured(bot, c, classQuips, v) && Unused(bot)
  }

  /** `LINK_CLASS(conf)` for the class v that the configuration names. */
  method NewBot(c: BotConfig, classQuips: PyList, v: Variant) returns (bot: LinkBot)
    ensures fresh(bot) && Unused(bot) && Configured(bot, c, classQuips, v) && bot.Valid()
  {
    bot := new LinkBot(c.matchText, c.link, c.quips, classQuips, v);
  }

  /** The first i configurations all name a class, and bots holds one
      distinct, new bot for each of them. */
  ghost predicate BuiltUpTo(bots: seq<LinkBot>, configs: seq<BotConfig>, classQuips: PyList, i: nat)
    reads set j | 0 <= j < |bots| :: bots[j]
  {
    i <= |configs| && |bots| == i &&
    (forall a :: 0 <= a < i ==> VariantOf(configs[a]).Ok?) &&
    (forall a, c :: 0 <= a < c < i ==> bots[a] != bots[c]) &&
    (forall j :: 0 <= j < i ==> Unused(bots[j]) && Configured(bots[j], configs[j], classQuips, VariantOf(configs[j]).value))
  }

  /** One more bot, for configuration i. */
  lemma BuiltNext(bots: seq<LinkBot>, bot: LinkBot, configs: seq<BotConfig>, classQuips: PyList, i: nat)
    requires BuiltUpTo(bots, configs, classQuips, i) && i < |configs| && VariantOf(configs[i]).Ok?
    requires Unused(bot) && Configured(bot, configs[i], classQuips, VariantOf(configs[i]).value) && bot !in bots
    ensures BuiltUpTo(bots + [bot], configs, classQuips, i + 1)
  {
    var bs := bots + [bot];
    assert forall j :: 0 <= j < i ==> bs[j] == bots[j];
  }

  /** `get_message_processor`: one bot per configuration, in order; an unknown
      class raises as soon as it is met, and no configuration at all raises
      "No linkbots defined". classQuips is `LinkBot.QUIPS`. */
  method GetMessageProcessor(configs: seq<BotConfig>, classQuips: PyList) returns (r: Result<Processor, Error>)
    ensures Classes(configs).Err? ==> r == Err(Classes(configs).error)
    ensures Classes(configs).Ok? && configs == [] ==> r == Err(NoBots)
    ensures r.Ok? ==> Classes(configs).Ok? && configs != []
    ensures r.Ok? ==> (r.value.Valid() && fresh(r.value) && |r.value.bots| == |configs| &&
      forall j :: 0 <= j < |configs| ==>
        fresh(r.value.bots[j]) && Built(r.value.bots[j], configs[j], classQuips, Classes(configs).value[j]))
  {
    var bots: seq<LinkBot> := [];
    var i := 0;
    while i < |configs|
      invariant BuiltUpTo(bots, configs, classQuips, i)
      invariant forall j :: 0 <= j < i ==> fresh(bots[j])
    {
      var v := VariantOf(configs[i]);
      if v.Err? {
        FirstUnknown(configs, i);
        return Err(v.error);
      }
      var bot := NewBot(configs[i], classQuips, v.value);
      BuiltNext(bots, bot, configs, classQuips, i);
      bots := bots + [bot];
      i := i + 1;
    }
    if |bots| == 0 {
      return Err(NoBots);
    }
    var p := new Processor(bots);
    r := Ok(p);
  }

  // ---------------------------------------------------------------------------
  // The closure

  /** The bots `process_slack_message` closes over. */
  class Processor {
    const bots: seq<LinkBot>

    constructor (bots: seq<LinkBot>)
      requires |bots| > 0
      requires forall j :: 0 <= j < |bots| ==> bots[j].Valid()
      requires forall a, c :: 0 <= a < c < |bots| ==> bots[a] != bots[c]
      ensures this.bots == bots && Valid()
    {
      this.bots := bots;
    }

    /** At least one bot; each bot a distinct object in a valid state. */
    ghost predicate Valid()
      reads bots
    {
      |bots| > 0 &&
      (forall j :: 0 <= j < |bots| ==> bots[j].Valid()) &&
      (forall a, c :: 0 <= a < c < |bots| ==> bots[a] != bots[c])
    }

    /** The quip list objects the bots draw from. */
    ghost function Lists(): set<PyList>
    {
      set j | 0 <= j < |bots| :: bots[j].quips
    }

    ghost function Profiles(): (ps: seq<Profile>)
      ensures |ps| == |bots|
    {
      seq(|bots|, j requires 0 <= j < |bots| => Profile(bots[j].pattern, bots[j].quips, bots[j].answer))
    }

    /** The current seen lists and quip lists. */
    ghost function Snapshot(): (w: World)
      reads bots, Lists()
      ensures |w.seen| == |bots| && w.lists.Keys == Lists()
    {
      World(seq(|bots|, j requires 0 <= j < |bots| reads bots => bots[j].seen),
            map q | q in Lists() :: q.items)
    }

    /** `bot.message(link_label)` for bot i: its reply is Respond's, and only
        that bot's seen list and its quip list change. The random pick is k. */
    method Answer(i: nat, linkLabel: string) returns (reply: Result<string, Error>, ghost k: nat)
      requires Valid() && i < |bots|
      modifies bots[i], bots[i].quips
      ensures Valid()
      ensures var w := old(Snapshot());
        var o := Respond(bots[i].variant, bots[i].link, w.seen[i], w.lists[bots[i].quips], k, linkLabel);
        reply == o.reply && Snapshot() == Put(w, i, bots[i].quips, o.seen, o.quips)
    {
      ghost var w := Snapshot();
      var bot := bots[i];
      reply, k := bot.Message(linkLabel);
      ghost var o := Respond(bot.variant, bot.link, w.seen[i], w.lists[bot.quips], k, linkLabel);
      assert forall j :: 0 <= j < |bots| && j != i ==> bots[j] != bot;
      assert Snapshot().seen == w.seen[i := o.seen];
      assert Snapshot().lists == w.lists[bot.quips := o.quips];
    }

    /** `bot.reset()` for bot i: its seen list empties and nothing else changes. */
    method ResetBot(i: nat)
      requires Valid() && i < |bots|
      modifies bots[i]
      ensures Valid()
      ensures Snapshot() == Put(old(Snapshot()), i, bots[i].quips, [], old(Snapshot()).lists[bots[i].quips])
    {
      ghost var w := Snapshot();
      bots[i].Reset();
      assert forall j :: 0 <= j < |bots| && j != i ==> bots[j] != bots[i];
      assert Snapshot().seen == w.seen[i := []];
      assert Snapshot().lists == w.lists[bots[i].quips := w.lists[bots[i].quips]];
    }

    /** The bots' state, with the posts so far and the error that escaped, is
        the run of bots ps over the labels `all` from world w0 up to bot i's
        match n. */
    /** The run has completed the turns of the first i bots without an error. */
    ghost predicate Ran(channel: Option<string>, posts: seq<Post>, err: Option<Error>,
                        ps: seq<Profile>, all: seq<seq<string>>, w0: World, picks: seq<seq<nat>>, i: nat)
      reads bots, Lists()
    {
      Valid() && ps == Profiles() && Fits(ps, w0) && Shape(ps, all, picks) && i <= |bots| && err.None? &&
      Effect(Snapshot(), posts, err) == Progress(ps, channel, all, w0, picks, i, 0)
    }

    ghost predicate Reached(channel: Option<string>, posts: seq<Post>, err: Option<Error>,
                            ps: seq<Profile>, all: seq<seq<string>>, w0: World, picks: seq<seq<nat>>, i: nat, n: nat)
      reads bots, Lists()
    {
      Valid() && ps == Profiles() && Fits(ps, w0) && Shape(ps, all, picks) && i < |bots| && n <= |all[i]| &&
      Effect(Snapshot(), posts, err) == Progress(ps, channel, all, w0, picks, i, n)
    }

    /** One pass of the inner loop of `process_slack_message`: bot i answers
        its match n, with the channel looked up first. The run moves on by
        one match, with the random pick the bot made recorded in the picks. */
    method AnswerMatch(i: nat, n: nat, channel: Option<string>, linkLabel: string, posts: seq<Post>,
                       ghost ps: seq<Profile>, ghost all: seq<seq<string>>, ghost w0: World,
                       ghost picks: seq<seq<nat>>)
      returns (posts': seq<Post>, err: Option<Error>, ghost picks': seq<seq<nat>>)
      requires Reached(channel, posts, None, ps, all, w0, picks, i, n)
      requires n < |all[i]| && linkLabel == all[i][n]
      modifies bots[i], bots[i].quips
      ensures Reached(channel, posts', err, ps, all, w0, picks', i, n + 1)
    {
      ghost var w := Snapshot();
      if channel.None? {
        PutSame(w, i, bots[i].quips);
        picks' := picks;
        posts' := posts;
        err := Some(MissingKey("channel"));
        return;
      }
      var reply, k := Answer(i, linkLabel);
      ghost var o := Respond(bots[i].variant, bots[i].link, w.seen[i], w.lists[bots[i].quips], k, linkLabel);
      assert ps[i].answer(w.seen[i], w.lists[ps[i].list], k, linkLabel) == o;
      ProgressPicks(ps, channel, all, w0, picks, i, n, i, n, k);
      picks' := SetPick(picks, i, n, k);
      ProgressNext(ps, channel, all, w0, picks', i, n);
      ghost var st := Step(ps[i], channel, Stage(w.seen[i], w.lists[ps[i].list], posts, None), k, linkLabel);
      assert st.seen == o.seen && st.quips == o.quips;
      assert reply == o.reply;
      if reply.Err? && !reply.error.Seen? {
        posts' := posts;
        err := Some(reply.error);
      } else if reply.Err? {
        posts' := posts;
        err := None;
      } else {
        posts' := posts + [Post(channel.value, reply.value)];
        err := None;
      }
    }

    /** The inner loop of `process_slack_message` for bot i: it answers its
        matches in the text, in order, until one raises. The run reaches the
        end of that bot's matches, or the match n that raised. */
    method AnswerAll(i: nat, text: string, channel: Option<string>, posts: seq<Post>,
                     ghost ps: seq<Profile>, ghost all: seq<seq<string>>, ghost w0: World,
                     ghost picks: seq<seq<nat>>)
      returns (posts': seq<Post>, err: Option<Error>, ghost picks': seq<seq<nat>>, ghost n: nat)
      requires Reached(channel, posts, None, ps, all, w0, picks, i, 0)
      requires all[i] == Labels(bots[i].pattern, text)
      modifies bots[i], bots[i].quips
      ensures n <= |all[i]| && (err.None? ==> n == |all[i]|)
      ensures Reached(channel, posts', err, ps, all, w0, picks', i, n)
    {
      posts', err, picks' := posts, None, picks;
      var labels := bots[i].Match(text);
      ghost var mine := all[i];
      assert |labels| == |mine| && forall a :: 0 <= a < |labels| ==> labels[a].linkLabel == mine[a];
      var j := 0;
      while j < |labels| && err.None?
        invariant j <= |labels| && Reached(channel, posts', err, ps, all, w0, picks', i, j)
      {
        posts', err, picks' := AnswerMatch(i, j, channel, labels[j].linkLabel, posts', ps, all, w0, picks');
        j := j + 1;
      }
      n := j;
    }

    /** One turn of the outer loop of `process_slack_message`: bot i answers
        each of its matches in the text, and is reset if none raised. The run
        moves on to the next bot, or, on an error, to its end. */
    method TakeTurn(i: nat, text: string, channel: Option<string>, posts: seq<Post>,
                    ghost ps: seq<Profile>, ghost all: seq<seq<string>>, ghost w0: World,
                    ghost picks: seq<seq<nat>>)
      returns (posts': seq<Post>, err: Option<Error>, ghost picks': seq<seq<nat>>)
      requires Ran(channel, posts, None, ps, all, w0, picks, i) && i < |bots|
      requires all[i] == Labels(bots[i].pattern, text)
      modifies bots[i], bots[i].quips
      ensures Valid() && ps == Profiles() && Shape(ps, all, picks')
      ensures Effect(Snapshot(), posts', err) == Progress(ps, channel, all, w0, picks', if err.None? then i + 1 else |bots|, 0)
      ensures err.None? ==> Ran(channel, posts', err, ps, all, w0, picks', i + 1)
    {
      assert Reached(channel, posts, None, ps, all, w0, picks, i, 0);
      ghost var n;
      posts', err, picks', n := AnswerAll(i, text, channel, posts, ps, all, w0, picks);
      if err.Some? {
        ProgressStops(ps, channel, all, w0, picks', i, n, |bots|, 0);
        return;
      }
      ghost var w := Snapshot();
      ResetBot(i);
      ProgressReset(ps, channel, all, w0, picks', i);
      assert Snapshot() == Put(w, i, ps[i].list, [], w.lists[ps[i].list]);
    }

    /** `process_slack_message(json_string)` on the decoded event e. The posts,
        the error that escapes (if any), and the bots' new seen lists and quip
        lists are those of Expected for the random picks made. */
    method Process(e: Event) returns (posts: seq<Post>, err: Option<Error>, ghost picks: seq<seq<nat>>)
      requires Valid()
      modifies bots, Lists()
      ensures Valid()
      ensures Answers(e) ==> Enough(Profiles(), e.text.value, picks)
      ensures Effect(Snapshot(), posts, err) == Expected(Profiles(), e, old(Snapshot()), picks)
    {
      picks := [];
      posts := [];
      err := None;
      if e.kind.None? {
        err := Some(MissingKey("type"));
        return;
      }
      if Ignored(e) {
        return;
      }
      if e.text.None? {
        err := Some(MissingKey("text"));
        return;
      }
      posts, err, picks := Turns(e.text.value, e.channel);
    }

    /** Every bot, in order, answers the matches in the text and is reset;
        the first error that escapes ends the run. */
    method Turns(text: string, channel: Option<string>) returns (posts: seq<Post>, err: Option<Error>, ghost picks: seq<seq<nat>>)
      requires Valid()
      modifies bots, Lists()
      ensures Valid()
      ensures Enough(Profiles(), text, picks)
      ensures Effect(Snapshot(), posts, err) == Progress(Profiles(), channel, Matched(Profiles(), text), old(Snapshot()), picks, |bots|, 0)
    {
      ghost var w0 := Snapshot();
      ghost var ps := Profiles();
      ghost var all := Matched(ps, text);
      // One pick per match, filled in as the bots answer.
      picks := seq(|bots|, j requires 0 <= j < |bots| => seq(|all[j]|, _ => 0));
      posts := [];
      err := None;
      var i := 0;
      while i < |bots|
        invariant Ran(channel, posts, err, ps, all, w0, picks, i)
      {
        posts, err, picks := TakeTurn(i, text, channel, posts, ps, all, w0, picks);
        if err.Some? {
          return;
        }
        i := i + 1;
      }
    }
  }
}
