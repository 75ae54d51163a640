/** `LinkBot.match`: `re.findall(r'(\A|\W)(P)(\W|\Z)', text, flags=re.I)` for a
    literal pattern P. The scan is left to right; at each start position the
    leading group tries `\A` before `\W`, the trailing group tries `\W` before
    `\Z`, and the next search resumes at the end of the previous match, so the
    trailing non-word character that a match consumes is not available as the
    leading boundary of the next one. */
module Matcher {
  import opened Wrappers

  /** Characters of `\w` (ASCII letters, digits and '_'). */
  predicate IsWordChar(c: char)
  {
    ('a' <= c <= 'z') || ('A' <= c <= 'Z') || ('0' <= c <= '9') || c == '_'
  }

  function Lower(c: char): char
  {
    if 'A' <= c <= 'Z' then (c as int + 32) as char else c
  }

  /** Equal up to (ASCII) case. */
  predicate SameLetters(a: string, b: string)
  {
    |a| == |b| && forall i :: 0 <= i < |a| ==> Lower(a[i]) == Lower(b[i])
  }

  /** The pattern occurs, ignoring case, at index q of the text. */
  predicate OccursAt(p: string, t: string, q: nat)
  {
    q + |p| <= |t| && SameLetters(t[q..q + |p|], p)
  }

  /** An occurrence at q preceded by the start of the text or a non-word
      character, and followed by a non-word character or the end of the text. */
  predicate BoundedAt(p: string, t: string, q: nat)
  {
    OccursAt(p, t, q) &&
    (q == 0 || !IsWordChar(t[q - 1])) &&
    (q + |p| == |t| || !IsWordChar(t[q + |p|]))
  }

  /** One match of the regular expression: group 1 is t[start..labelAt], group 2
      (the label) is t[labelAt..labelAt + |p|], group 3 is t[labelAt + |p|..end]. */
  datatype Span = Span(start: nat, labelAt: nat, end: nat)

  /** The three groups of the span lie within the text, in order. */
  predicate SpanFits(p: string, t: string, sp: Span)
  {
    sp.start <= sp.labelAt && sp.labelAt + |p| <= sp.end <= |t|
  }

  /** Where the trailing group `(\W|\Z)` ends after an occurrence at q. */
  function TrailEnd(p: string, t: string, q: nat): nat
  {
    if q + |p| < |t| then q + |p| + 1 else q + |p|
  }

  /** The regular expression tried at start position s, alternatives in order. */
  function MatchAt(p: string, t: string, s: nat): (r: Option<Span>)
    requires s <= |t|
    ensures r.Some? ==> r.value.start == s && BoundedAt(p, t, r.value.labelAt)
    ensures r.Some? ==> r.value.labelAt == s || r.value.labelAt == s + 1
    ensures r.Some? ==> r.value.end == TrailEnd(p, t, r.value.labelAt) <= |t|
    ensures r.Some? && r.value.labelAt == s + 1 ==> !IsWordChar(t[s])
    ensures r.Some? && r.value.labelAt == s ==> s == 0
  {
    if s == 0 && BoundedAt(p, t, 0) then Some(Span(0, 0, TrailEnd(p, t, 0)))
    else if s < |t| && !IsWordChar(t[s]) && BoundedAt(p, t, s + 1) then
      Some(Span(s, s + 1, TrailEnd(p, t, s + 1)))
    else None
  }

  /** The spans of re.findall, searching from position pos onwards. A match is
      empty only when text and pattern are both empty; then the scan simply
      moves past the end of the text. */
  function FindFrom(p: string, t: string, pos: nat): seq<Span>
    requires pos <= |t| + 1
    decreases |t| + 1 - pos
  {
    if pos > |t| then []
    else
      match MatchAt(p, t, pos)
      case None => FindFrom(p, t, pos + 1)
      case Some(sp) => [sp] + FindFrom(p, t, if sp.end > pos then sp.end else pos + 1)
  }

  /** The spans of `re.findall` over the whole text; each lies within it. */
  function FindSpans(p: string, t: string): (r: seq<Span>)
    ensures forall k :: 0 <= k < |r| ==> SpanFits(p, t, r[k])
  {
    FindFromStarts(p, t, 0);
    FindFrom(p, t, 0)
  }

  /** One tuple of re.findall: the three groups. */
  datatype Match = Match(lead: string, linkLabel: string, trail: string)

  function Groups(p: string, t: string, sp: Span): (m: Match)
    requires SpanFits(p, t, sp)
    ensures m.lead + m.linkLabel + m.trail == t[sp.start..sp.end]
    ensures m == Match(t[sp.start..sp.labelAt], t[sp.labelAt..sp.labelAt + |p|], t[sp.labelAt + |p|..sp.end])
  {
    assert t[sp.start..sp.end] == t[sp.start..sp.labelAt] + t[sp.labelAt..sp.labelAt + |p|] + t[sp.labelAt + |p|..sp.end];
    Match(t[sp.start..sp.labelAt], t[sp.labelAt..sp.labelAt + |p|], t[sp.labelAt + |p|..sp.end])
  }

  /** Each span is the match found at its start, at or after pos. */
  predicate StartsFound(p: string, t: string, spans: seq<Span>, pos: nat)
  {
    forall k :: 0 <= k < |spans| ==>
      pos <= spans[k].start <= |t| && MatchAt(p, t, spans[k].start) == Some(spans[k])
  }

  /** The spans are in increasing order and do not overlap. */
  predicate Ordered(spans: seq<Span>)
  {
    forall a, b :: 0 <= a < b < |spans| ==> spans[a].end <= spans[b].start && spans[a].start < spans[b].start
  }

  lemma {:induction false} FindFromStarts(p: string, t: string, pos: nat)
    requires pos <= |t| + 1
    ensures StartsFound(p, t, FindFrom(p, t, pos), pos)
    decreases |t| + 1 - pos
  {
    if pos <= |t| {
      match MatchAt(p, t, pos)
      case None =>
        FindFromStarts(p, t, pos + 1);
        assert FindFrom(p, t, pos) == FindFrom(p, t, pos + 1);
      case Some(sp) =>
        var next := if sp.end > pos then sp.end else pos + 1;
        FindFromStarts(p, t, next);
        var rest := FindFrom(p, t, next);
        var all := [sp] + rest;
        assert FindFrom(p, t, pos) == all;
        forall k | 0 <= k < |all|
          ensures pos <= all[k].start <= |t| && MatchAt(p, t, all[k].start) == Some(all[k])
        {
          if k > 0 { assert all[k] == rest[k - 1]; }
        }
    }
  }

  lemma OrderedCons(sp: Span, rest: seq<Span>, next: nat)
    requires Ordered(rest)
    requires forall k :: 0 <= k < |rest| ==> next <= rest[k].start
    requires sp.end <= next && sp.start < next
    ensures Ordered([sp] + rest)
  {
    var all := [sp] + rest;
    forall a, b | 0 <= a < b < |all|
      ensures all[a].end <= all[b].start && all[a].start < all[b].start
    {
      assert all[b] == rest[b - 1];
      if a > 0 { assert all[a] == rest[a - 1]; }
    }
  }

  lemma {:induction false} FindFromOrdered(p: string, t: string, pos: nat)
    requires pos <= |t| + 1
    ensures Ordered(FindFrom(p, t, pos))
    decreases |t| + 1 - pos
  {
    if pos <= |t| {
      match MatchAt(p, t, pos)
      case None =>
        FindFromOrdered(p, t, pos + 1);
        assert FindFrom(p, t, pos) == FindFrom(p, t, pos + 1);
      case Some(sp) =>
        var next := if sp.end > pos then sp.end else pos + 1;
        FindFromOrdered(p, t, next);
        FindFromStarts(p, t, next);
        OrderedCons(sp, FindFrom(p, t, next), next);
        assert FindFrom(p, t, pos) == [sp] + FindFrom(p, t, next);
    }
  }

  /** Every start position at which the expression matches is either the start
      of a returned span or lies strictly inside one. */
  predicate Covered(spans: seq<Span>, s: nat)
  {
    exists k :: 0 <= k < |spans| && spans[k].start <= s && (s == spans[k].start || s < spans[k].end)
  }

  lemma {:induction false} FindFromComplete(p: string, t: string, pos: nat, s: nat)
    requires pos <= s <= |t|
    requires MatchAt(p, t, s).Some?
    ensures Covered(FindFrom(p, t, pos), s)
    decreases |t| + 1 - pos
  {
    match MatchAt(p, t, pos)
    case None =>
      assert s != pos;
      FindFromComplete(p, t, pos + 1, s);
      assert FindFrom(p, t, pos) == FindFrom(p, t, pos + 1);
    case Some(sp) =>
      var next := if sp.end > pos then sp.end else pos + 1;
      var all := FindFrom(p, t, pos);
      assert all[0] == sp;
      if s == pos || s < sp.end {
        assert all[0].start <= s && (s == all[0].start || s < all[0].end);
      } else {
        FindFromComplete(p, t, next, s);
        var rest := FindFrom(p, t, next);
        assert all == [sp] + rest;
        var k :| 0 <= k < |rest| && rest[k].start <= s && (s == rest[k].start || s < rest[k].end);
        assert all[k + 1] == rest[k];
      }
  }

  /** The search position at which an occurrence at q would be found: the
      start of the text, or the non-word character just before it. */
  function LeadOf(q: nat): nat
  {
    if q == 0 then 0 else q - 1
  }

  lemma BoundedMatches(p: string, t: string, q: nat)
    requires BoundedAt(p, t, q)
    ensures LeadOf(q) <= |t| && MatchAt(p, t, LeadOf(q)).Some?
  {
  }

  // ---------------------------------------------------------------------------
  // Properties of `match`

  /** Soundness: every returned match's label is a bounded occurrence of the
      pattern, compared ignoring case, in the text's own casing; its leading
      group is empty at the start of the text and otherwise one non-word
      character, and its trailing group is one non-word character or empty at
      the end of the text. */
  lemma FindSpansSound(p: string, t: string)
    ensures forall sp :: sp in FindSpans(p, t) ==>
      BoundedAt(p, t, sp.labelAt) && SameLetters(t[sp.labelAt..sp.labelAt + |p|], p) &&
      sp.start <= sp.labelAt <= sp.start + 1 && sp.end == TrailEnd(p, t, sp.labelAt) <= |t|
  {
    FindFromStarts(p, t, 0);
  }

  /** Consumed boundaries: each match ends no later than the next one starts,
      so the non-word character that closes a match cannot open the next. */
  lemma FindSpansDisjoint(p: string, t: string)
    ensures forall a, b :: 0 <= a < b < |FindSpans(p, t)| ==>
      FindSpans(p, t)[a].end <= FindSpans(p, t)[b].start
  {
    FindFromOrdered(p, t, 0);
  }

  /** Completeness: for every bounded occurrence, either a returned match
      starts at its leading position, or that leading boundary was consumed
      by an earlier match. */
  lemma FindSpansComplete(p: string, t: string, q: nat)
    requires BoundedAt(p, t, q)
    ensures Covered(FindSpans(p, t), LeadOf(q))
  {
    BoundedMatches(p, t, q);
    FindFromComplete(p, t, 0, LeadOf(q));
  }

  /** The re.findall tuples, in order. */
  function FindAll(p: string, t: string): (ms: seq<Match>)
    ensures |ms| == |FindSpans(p, t)|
    ensures forall k :: 0 <= k < |ms| ==> SameLetters(ms[k].linkLabel, p)
    ensures forall k :: 0 <= k < |ms| ==>
      SpanFits(p, t, FindSpans(p, t)[k]) && ms[k] == Groups(p, t, FindSpans(p, t)[k])
  {
    var spans := FindSpans(p, t);
    FindSpansSound(p, t);
    seq(|spans|, k requires 0 <= k < |spans| => Groups(p, t, spans[k]))
  }

  /** `match[1]` for each tuple. */
  function Labels(p: string, t: string): (ls: seq<string>)
    ensures |ls| == |FindSpans(p, t)|
    ensures forall k :: 0 <= k < |ls| ==> SameLetters(ls[k], p)
    ensures forall k :: 0 <= k < |ls| ==>
      SpanFits(p, t, FindSpans(p, t)[k]) &&
      ls[k] == t[FindSpans(p, t)[k].labelAt..FindSpans(p, t)[k].labelAt + |p|]
  {
    var ms := FindAll(p, t);
    FindSpansSound(p, t);
    seq(|ms|, k requires 0 <= k < |ms| => ms[k].linkLabel)
  }

  lemma FirstSpanBounded(p: string, t: string)
    requires |FindSpans(p, t)| > 0
    ensures FindSpans(p, t)[0].labelAt <= |t| && BoundedAt(p, t, FindSpans(p, t)[0].labelAt)
  {
    FindFromStarts(p, t, 0);
  }

  /** No bounded occurrence, no label: a pattern embedded in a larger token is not matched. */
  lemma NoOccurrenceNoLabels(p: string, t: string)
    requires forall q :: 0 <= q <= |t| ==> !BoundedAt(p, t, q)
    ensures Labels(p, t) == []
  {
    if |FindSpans(p, t)| > 0 {
      FirstSpanBounded(p, t);
      assert false;
    }
  }

  /** "abc ABC" against `abc` gives a single match: the space is consumed as
      the first match's trailing group, so the second word has no leading
      boundary left. */
  lemma ConsumedSpaceExample()
    ensures Labels("abc", "abc ABC") == ["abc"]
  {
    var p, t := "abc", "abc ABC";
    assert BoundedAt(p, t, 0) by {
      assert t[0..3] == "abc";
    }
    assert MatchAt(p, t, 0) == Some(Span(0, 0, 4));
    assert !IsWordChar(t[3]);
    assert BoundedAt(p, t, 4) by {
      assert t[4..7] == "ABC";
    }
    forall s | 4 <= s <= 7 ensures MatchAt(p, t, s).None? {
      assert s < 7 ==> IsWordChar(t[s]);
    }
    assert FindFrom(p, t, 7) == [];
    assert FindFrom(p, t, 6) == [];
    assert FindFrom(p, t, 5) == [];
    assert FindFrom(p, t, 4) == [];
    assert FindSpans(p, t) == [Span(0, 0, 4)];
    assert t[0..3] == "abc";
  }

  /** The labels keep the text's own casing: a pattern written in lower case
      finds the upper-case key as it stands in the message. */
  lemma KeepsCasingExample()
    ensures Labels("abc", "x ABC") == ["ABC"]
  {
    var p, t := "abc", "x ABC";
    assert !IsWordChar(t[1]);
    assert BoundedAt(p, t, 2) by {
      assert t[2..5] == "ABC";
    }
    forall s | 0 <= s <= 5 && s != 1 ensures MatchAt(p, t, s).None? {
      if s == 0 { assert IsWordChar(t[0]); }
      assert s >= 2 && s < 5 ==> IsWordChar(t[s]);
    }
    assert MatchAt(p, t, 1) == Some(Span(1, 2, 5));
    assert FindFrom(p, t, 5) == [];
    assert FindFrom(p, t, 1) == [Span(1, 2, 5)];
    assert FindFrom(p, t, 0) == [Span(1, 2, 5)];
    assert t[2..5] == "ABC";
  }
}
