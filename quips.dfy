/** The quip pool as values: `LinkBot.QUIPS`, substituting a link into a quip,
    and one draw of `LinkBot._quip`. Because `_quip` refills an empty pool by
    making it the very list object that holds the configured quips, a draw
    always takes from, and removes from, the configured list itself; the
    functions here therefore speak of that one list. */
module Quips {
  import opened Wrappers
  import opened Errors
  import opened PyText

  /** The text before and after the one %s of each quip of `LinkBot.QUIPS`, in order. */
  const QuipParts: seq<(string, string)> := [
    ("", ""),
    ("linkbot noticed a link!  ", ""),
    ("Oh, here it is... ", ""),
    ("Maybe this, ", ", will help?"),
    ("Click me!  ", ""),
    ("Click my shiny metal link!  ", ""),
    ("Here, let me link that for you... ", ""),
    ("Couldn't help but notice ", " was mentioned..."),
    ("Not that I was eavesdropping, " + "but did you mention ", "?"),
    ("hmmmm, did you mean ", "?"),
    ("", "...  Mama said " + "there'd be days like this..."),
    ("", "?  An epic, yet approachable tale..."),
    ("", "?  Reminds me of a story...")
  ]

  /** `LinkBot.QUIPS`, the class-level list used by bots configured without QUIPS. */
  const DefaultQuips: seq<string> :=
    seq(|QuipParts|, i requires 0 <= i < |QuipParts| => QuipParts[i].0 + "%s" + QuipParts[i].1)

  /** `quip % link`. */
  function QuipText(quip: string, link: string): (r: Result<string, Error>)
    ensures r.Ok? <==> Conversions(quip) == Some(1)
  {
    FormatSucceedsIff(quip, [link]);
    match Format(quip, [link])
    case Ok(s) => Ok(s)
    case Err(e) => Err(BadFormat(e))
  }

  /** A quip written as a + "%s" + b, with no other '%', puts the link between a and b. */
  lemma Splits(a: string, b: string, link: string)
    requires '%' !in a && '%' !in b
    ensures QuipText(a + "%s" + b, link) == Ok(a + link + b)
  {
    SubstituteOnce(a, b, link);
  }

  /** The text around each default quip's %s holds no other '%'. */
  lemma PlainParts0To7(i: nat)
    requires 0 <= i < 8
    ensures '%' !in QuipParts[i].0 && '%' !in QuipParts[i].1
  {
  }

  lemma PlainParts8To10(i: nat)
    requires 8 <= i < 11
    ensures '%' !in QuipParts[i].0 && '%' !in QuipParts[i].1
  {
  }

  lemma PlainParts11To12(i: nat)
    requires 11 <= i < 13
    ensures '%' !in QuipParts[i].0 && '%' !in QuipParts[i].1
  {
  }

  /** Every default quip has exactly one %s, so it puts the link, unchanged,
      between a fixed prefix and suffix. */
  lemma DefaultQuipTakesLink(i: nat, link: string)
    requires i < |DefaultQuips|
    ensures QuipText(DefaultQuips[i], link) == Ok(QuipParts[i].0 + link + QuipParts[i].1)
  {
    if i < 8 { PlainParts0To7(i); }
    else if i < 11 { PlainParts8To10(i); }
    else { PlainParts11To12(i); }
    Splits(QuipParts[i].0, QuipParts[i].1, link);
  }

  /** One draw of `_quip(link)` from the configured list `quips` with the
      random pick k (taken modulo the list's length): an empty list gives the
      bare link (the IndexError of `choice`); otherwise the picked quip is
      removed, first occurrence first, and the link is substituted into it. */
  function Draw(quips: seq<string>, k: nat, link: string): (d: (Result<string, Error>, seq<string>))
    ensures quips == [] ==> d == (Ok(link), [])
    ensures quips != [] ==> d.0 == QuipText(quips[k % |quips|], link)
    ensures quips != [] ==> (|d.1| == |quips| - 1 &&
      multiset(d.1) == multiset(quips) - multiset{quips[k % |quips|]})
  {
    if quips == [] then (Ok(link), [])
    else
      var quip := quips[k % |quips|];
      (QuipText(quip, link), RemoveFirst(quips, quip))
  }

  /** A pick already inside the list is the index itself. */
  lemma PickInRange(k: nat, n: nat)
    requires k < n
    ensures k % n == k
  {
  }

  /** A sequence of random picks, each valid for the list that is left at its turn. */
  predicate ValidPicks(quips: seq<string>, picks: seq<nat>)
    decreases |picks|
  {
    picks == [] ||
    (picks[0] < |quips| && ValidPicks(RemoveFirst(quips, quips[picks[0]]), picks[1..]))
  }

  /** The quips that successive draws take, and the list that is left. */
  function Drain(quips: seq<string>, picks: seq<nat>): (r: (seq<string>, seq<string>))
    requires ValidPicks(quips, picks)
    ensures |r.0| == |picks| && |r.1| == |quips| - |picks|
    ensures multiset(r.0) + multiset(r.1) == multiset(quips)
    decreases |picks|
  {
    if picks == [] then ([], quips)
    else
      var q := quips[picks[0]];
      var rest := Drain(RemoveFirst(quips, q), picks[1..]);
      TakeOne(quips, q, rest.0, rest.1);
      ([q] + rest.0, rest.1)
  }

  /** Drawing q first, then `later` from what is left, loses no quip. */
  lemma TakeOne(quips: seq<string>, q: string, later: seq<string>, left: seq<string>)
    requires q in quips
    requires multiset(later) + multiset(left) == multiset(RemoveFirst(quips, q))
    ensures multiset([q] + later) + multiset(left) == multiset(quips)
  {
    assert multiset([q] + later) == multiset{q} + multiset(later);
    assert multiset{q} + multiset(RemoveFirst(quips, q)) == multiset(quips);
  }

  /** Drain is the list that successive Draw calls leave, and takes the quips they picked. */
  lemma {:induction false} DrainIsDraws(quips: seq<string>, picks: seq<nat>, link: string)
    requires ValidPicks(quips, picks) && picks != []
    ensures Draw(quips, picks[0], link).1 == RemoveFirst(quips, quips[picks[0]])
    ensures Drain(quips, picks).0[0] == quips[picks[0]]
    ensures Drain(quips, picks).1 == Drain(Draw(quips, picks[0], link).1, picks[1..]).1
  {
    PickInRange(picks[0], |quips|);
  }

  /** One full cycle of |quips| draws uses every configured quip exactly as
      often as it is listed, and leaves the configured list empty; from then
      on every draw returns the bare link. */
  lemma FullCycle(quips: seq<string>, picks: seq<nat>, k: nat, link: string)
    requires ValidPicks(quips, picks) && |picks| == |quips|
    ensures multiset(Drain(quips, picks).0) == multiset(quips)
    ensures Drain(quips, picks).1 == []
    ensures Draw(Drain(quips, picks).1, k, link) == (Ok(link), [])
  {
  }
}
