/** The bot objects of linkbot.py: `LinkBot` and its subclasses
    `JiraLinkBot` and `ServiceNowBot`, distinguished by a Variant, and the
    Python list objects they share. */
module LinkBots {
  import opened Wrappers
  import opened Errors
  import opened PyText
  import opened Matcher
  import opened ServiceNow
  import opened Quips
  import opened Replies

  /** A Python list of strings: an object that several bots may hold. The
      class-level `LinkBot.QUIPS` is one such list, shared by every bot
      configured without QUIPS. */
  class PyList {
    var items: seq<string>

    constructor (xs: seq<string>)
      ensures items == xs
    {
      items := xs;
    }

    /** `list.remove(x)`: delete the first occurrence of x. */
    method Remove(x: string)
      requires x in items
      modifies this
      ensures items == RemoveFirst(old(items), x)
    {
      items := RemoveFirst(items, x);
    }
  }

  /** The LINK used when a bot's configuration has none. */
  const DefaultLink: string := "%s|%s"

  class LinkBot {
    /** `_match`, the text to look for. */
    const pattern: string
    /** `_link`, the template that `message` fills with the label twice. */
    const link: string
    /** `_quips`: the configured list object, or the class-level QUIPS. */
    const quips: PyList
    /** The bot's class and what its client would answer. */
    const variant: Variant
    /** `_quiplist`: null while it is still the private empty list made by
        `__init__`; once refilled, it is the object `_quips` itself. */
    var pool: PyList?
    /** `_seen`: the labels answered since the last reset. */
    var seen: seq<string>
    /** What `message` does, as a function of the state it reads. */
    ghost const answer: Answerer := AnswererOf(variant, link)

    ghost predicate Valid()
      reads this
    {
      pool == null || pool == quips
    }

    /** `LinkBot.__init__(conf)` for a configuration with MATCH, LINK and QUIPS
        each present or absent. A missing MATCH makes the pattern the text
        "None", as `'%s' % None` does. */
    constructor (matchText: Option<string>, link: Option<string>, configured: Option<PyList>,
                 classQuips: PyList, variant: Variant)
      ensures pattern == (if matchText.Some? then matchText.value else "None")
      ensures this.link == (if link.Some? then link.value else DefaultLink)
      ensures quips == (if configured.Some? then configured.value else classQuips)
      ensures this.variant == variant
      ensures pool == null && seen == []
      ensures Valid()
    {
      pattern := if matchText.Some? then matchText.value else "None";
      this.link := if link.Some? then link.value else DefaultLink;
      quips := if configured.Some? then configured.value else classQuips;
      this.variant := variant;
      pool := null;
      seen := [];
    }

    /** `match(text)`: the matches of the pattern in the text, in order. */
    function Match(text: string): (ms: seq<Matcher.Match>)
      ensures |ms| == |FindSpans(pattern, text)|
      ensures forall k :: 0 <= k < |ms| ==> SameLetters(ms[k].linkLabel, pattern)
      ensures forall k :: 0 <= k < |ms| ==>
        SpanFits(pattern, text, FindSpans(pattern, text)[k]) &&
        ms[k].linkLabel == text[FindSpans(pattern, text)[k].labelAt..FindSpans(pattern, text)[k].labelAt + |pattern|]
    {
      FindSpansSound(pattern, text);
      FindAll(pattern, text)
    }

    /** `_quip(link)`: refill an empty pool with the configured list itself,
        take a random quip out of it, and substitute the link into it; with no
        quips at all, the link comes back as it is. The random pick is k. */
    method Quip(text: string) returns (r: Result<string, Error>, ghost k: nat)
      requires Valid()
      modifies this, quips
      ensures Valid() && pool == quips
      ensures old(quips.items) == [] || k < |old(quips.items)|
      ensures (r, quips.items) == Draw(old(quips.items), k, text)
      ensures seen == old(seen)
    {
      if pool == null || |pool.items| == 0 {
        pool := quips;
      }
      if |pool.items| == 0 {
        k := 0;
        r := Ok(text);
        return;
      }
      var j :| 0 <= j < |pool.items|;
      k := j;
      PickInRange(k, |pool.items|);
      var quip := pool.items[j];
      pool.Remove(quip);
      r := QuipText(quip, text);
    }

    /** `message(link_label)` of the bot's class; the state it leaves and what
        it returns are those of Respond for the random pick k. */
    method Message(linkLabel: string) returns (r: Result<string, Error>, ghost k: nat)
      requires Valid()
      modifies this, quips
      ensures Valid()
      ensures old(quips.items) == [] || k < |old(quips.items)|
      ensures Outcome(r, seen, quips.items) == Respond(variant, link, old(seen), old(quips.items), k, linkLabel)
    {
      k := 0;
      if variant.ServiceNowBot? {
        var got := Get(variant.records, linkLabel);
        if got.Err? {
          r := Err(got.error);
          return;
        }
        var first;
        first, k := Quip(StrLink(variant.host, linkLabel).value);
        if first.Err? {
          r := Err(first.error);
          return;
        }
        r := RecordText(variant.host, first.value, got.value);
      } else {
        if linkLabel in seen {
          r := Err(Seen(linkLabel));
          return;
        }
        seen := seen + [linkLabel];
        var text := LinkText(link, linkLabel);
        if text.Err? {
          r := Err(text.error);
          return;
        }
        r, k := Quip(text.value);
        if variant.Jira? && r.Ok? {
          r := Ok(JiraText(r.value, IssueOf(variant.issues, linkLabel)));
        }
      }
    }

    /** `reset()`: forget the labels answered so far. */
    method Reset()
      requires Valid()
      modifies this
      ensures Valid() && seen == [] && pool == old(pool)
    {
      seen := [];
    }
  }
}
