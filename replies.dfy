/** The text of a bot's reply: `LinkBot._escape_html`, the Jira issue lines of
    `JiraLinkBot.message`, the record lines of `ServiceNowBot.message` and
    `_strlink`, and, as one function of the bot's state, what a call of
    `message(link_label)` returns and leaves behind. */
module Replies {
  import opened Wrappers
  import opened Errors
  import opened PyText
  import opened ServiceNow
  import opened Quips

  // ---------------------------------------------------------------------------
  // _escape_html

  function Esc(c: char): string
  {
    if c == '&' then "&amp;" else if c == '<' then "&lt;" else if c == '>' then "&gt;" else [c]
  }

  /** `_escape_html(text)`: '&', '<' and '>' become entities, other characters stay. */
  function EscapeHtml(s: string): (r: string)
    ensures '<' !in r && '>' !in r
    ensures |r| >= |s|
  {
    if s == [] then [] else Esc(s[0]) + EscapeHtml(s[1..])
  }

  /** The inverse reading: the three entities back to their characters. */
  function Unescape(s: string): string
    decreases |s|
  {
    if s == [] then []
    else if |s| >= 5 && s[..5] == "&amp;" then "&" + Unescape(s[5..])
    else if |s| >= 4 && s[..4] == "&lt;" then "<" + Unescape(s[4..])
    else if |s| >= 4 && s[..4] == "&gt;" then ">" + Unescape(s[4..])
    else [s[0]] + Unescape(s[1..])
  }

  lemma UnescapeEsc(c: char, rest: string)
    ensures Unescape(Esc(c) + rest) == [c] + Unescape(rest)
  {
    var s := Esc(c) + rest;
    if c == '&' {
      assert s[..5] == "&amp;" && s[5..] == rest;
    } else if c == '<' {
      assert s[..4] == "&lt;" && s[4..] == rest;
      assert |s| >= 5 ==> s[..5][1] == 'l';
    } else if c == '>' {
      assert s[..4] == "&gt;" && s[4..] == rest;
      assert |s| >= 5 ==> s[..5][1] == 'g';
      assert s[..4][1] == 'g';
    } else {
      assert s[0] == c && s[1..] == rest;
      assert |s| >= 5 ==> s[..5][0] == c;
      assert |s| >= 4 ==> s[..4][0] == c;
    }
  }

  /** Escaping loses nothing: reading the entities back gives the original text. */
  lemma {:induction false} UnescapeEscapeHtml(s: string)
    ensures Unescape(EscapeHtml(s)) == s
  {
    if s != [] {
      UnescapeEsc(s[0], EscapeHtml(s[1..]));
      UnescapeEscapeHtml(s[1..]);
      assert [s[0]] + s[1..] == s;
    }
  }

  /** Text without '&', '<' and '>' is left unchanged. */
  lemma {:induction false} EscapeHtmlPlain(s: string)
    requires '&' !in s && '<' !in s && '>' !in s
    ensures EscapeHtml(s) == s
  {
    if s != [] {
      assert s[0] in s;
      assert Esc(s[0]) == [s[0]];
      assert forall c :: c in s[1..] ==> c in s;
      EscapeHtmlPlain(s[1..]);
      assert [s[0]] + s[1..] == s;
    }
  }

  /** Escaping works character by character, so it distributes over concatenation. */
  lemma {:induction false} EscapeHtmlAppend(a: string, b: string)
    ensures EscapeHtml(a + b) == EscapeHtml(a) + EscapeHtml(b)
  {
    if a == [] {
      assert a + b == b;
    } else {
      assert (a + b)[0] == a[0] && (a + b)[1..] == a[1..] + b;
      EscapeHtmlAppend(a[1..], b);
    }
  }

  /** Escaping adds no line break. */
  lemma {:induction false} EscapeHtmlNoNewline(s: string)
    requires '\n' !in s
    ensures '\n' !in EscapeHtml(s)
  {
    if s != [] {
      assert forall c :: c in s[1..] ==> c in s;
      EscapeHtmlNoNewline(s[1..]);
      assert '\n' !in Esc(s[0]);
      assert EscapeHtml(s) == Esc(s[0]) + EscapeHtml(s[1..]);
    }
  }

  // ---------------------------------------------------------------------------
  // Reply lines

  /** The separator between the lines of a reply. */
  const Sep: string := "\n> "

  /** A line that cannot hold the separator `"\n> "`, and in which the separator
      cannot begin either: it has no line break, or it has no '>'. */
  predicate LineOK(x: string)
  {
    '\n' !in x || '>' !in x
  }

  /** In a line followed by the separator, the separator cannot start inside the line. */
  lemma NoSepBefore(x: string, i: nat)
    requires LineOK(x) && i < |x|
    ensures !OccursAt(x + Sep, Sep, i)
  {
    var s := x + Sep;
    if i + 3 <= |s| {
      assert s[i..i + 3][0] == s[i] && s[i..i + 3][1] == s[i + 1];
      if i + 1 < |x| {
        assert s[i] == x[i] && s[i + 1] == x[i + 1];
        assert x[i] in x && x[i + 1] in x;
      } else {
        assert s[i + 1] == '\n';
      }
    }
  }

  /** The separator does not occur in a line. */
  lemma NoSepIn(x: string, i: nat)
    requires LineOK(x) && i <= |x|
    ensures !OccursAt(x, Sep, i)
  {
    if i + 3 <= |x| {
      assert x[i..i + 3][0] == x[i] && x[i..i + 3][1] == x[i + 1];
      assert x[i] in x && x[i + 1] in x;
    }
  }

  /** The separator after a line is the first one. */
  lemma FindAfterLine(x: string)
    requires LineOK(x)
    ensures Find(x + Sep, Sep) == Some(|x|)
  {
    NoSepInside(x);
    SepAfter(x);
    FindIs(x + Sep, Sep, |x|);
  }

  /** The separator does not start inside a line followed by it. */
  lemma NoSepInside(x: string)
    requires LineOK(x)
    ensures forall i :: 0 <= i < |x| ==> !OccursAt(x + Sep, Sep, i)
  {
    forall i | 0 <= i < |x|
      ensures !OccursAt(x + Sep, Sep, i)
    {
      NoSepBefore(x, i);
    }
  }

  /** The separator follows the line. */
  lemma SepAfter(x: string)
    ensures OccursAt(x + Sep, Sep, |x|)
  {
    assert (x + Sep)[|x|..|x| + 3] == Sep;
  }

  /** A line on its own holds no separator. */
  lemma FindInLine(x: string)
    requires LineOK(x)
    ensures Find(x, Sep).None?
  {
    forall i | 0 <= i <= |x|
      ensures !OccursAt(x, Sep, i)
    {
      NoSepIn(x, i);
    }
  }

  /** Lines that cannot hold the separator are recovered by splitting the reply. */
  lemma LinesSplit(lines: seq<string>)
    requires |lines| > 0
    requires forall k :: 0 <= k < |lines| ==> LineOK(lines[k])
    ensures Split(Join(Sep, lines), Sep) == lines
  {
    forall k | 0 <= k < |lines|
      ensures Find(lines[k] + Sep, Sep) == Some(|lines[k]|) && Find(lines[k], Sep).None?
    {
      FindAfterLine(lines[k]);
      FindInLine(lines[k]);
    }
    SplitJoin(Sep, lines);
  }

  // ---------------------------------------------------------------------------
  // JiraLinkBot.message

  /** The issue fields the reply uses; a person is absent (None) or has a display name. */
  datatype Issue = Issue(summary: string, reporter: Option<string>, assignee: Option<string>, status: string)

  /** `person and person.displayName or 'None'`. */
  function DisplayName(person: Option<string>): (r: string)
    ensures r != ""
    ensures person.Some? && person.value != "" ==> r == person.value
  {
    if person.Some? && person.value != "" then person.value else "None"
  }

  /** The four issue lines, each HTML-escaped. */
  function JiraLines(i: Issue): (ls: seq<string>)
    ensures |ls| == 4
    ensures forall k :: 0 <= k < |ls| ==> '<' !in ls[k] && '>' !in ls[k]
  {
    [EscapeHtml(i.summary),
     EscapeHtml("*Reporter* " + DisplayName(i.reporter)),
     EscapeHtml("*Assignee* " + DisplayName(i.assignee)),
     EscapeHtml("*Status* " + i.status)]
  }

  /** The reply of JiraLinkBot given the quipped message and the issue the
      tracker returns (None: the lookup raised, and the message is kept). */
  function JiraText(msg: string, issue: Option<Issue>): (r: string)
    ensures msg <= r
    ensures issue.None? ==> r == msg
  {
    match issue
    case None => msg
    case Some(i) => Join(Sep, [msg] + JiraLines(i))
  }

  lemma EscapeHtmlTag(tag: string, s: string)
    requires '&' !in tag && '<' !in tag && '>' !in tag
    ensures EscapeHtml(tag + s) == tag + EscapeHtml(s)
  {
    EscapeHtmlAppend(tag, s);
    EscapeHtmlPlain(tag);
  }

  lemma JiraLinesOK(msg: string, i: Issue)
    requires LineOK(msg)
    ensures forall k :: 0 <= k < 5 ==> LineOK(([msg] + JiraLines(i))[k])
  {
    var all := [msg] + JiraLines(i);
    assert all[1] == EscapeHtml(i.summary);
    assert all[2] == EscapeHtml("*Reporter* " + DisplayName(i.reporter));
    assert all[3] == EscapeHtml("*Assignee* " + DisplayName(i.assignee));
    assert all[4] == EscapeHtml("*Status* " + i.status);
  }

  /** A found issue adds four lines under the message: the summary and the
      labelled reporter, assignee and status, each escaped so that it holds no
      angle bracket and reads back as the original text. Splitting the reply
      at the separator gives the message and those lines back. */
  lemma JiraTextLines(msg: string, i: Issue)
    requires LineOK(msg)
    ensures var lines := JiraLines(i);
      Split(JiraText(msg, Some(i)), Sep) == [msg] + lines &&
      lines[1] == "*Reporter* " + EscapeHtml(DisplayName(i.reporter)) &&
      lines[2] == "*Assignee* " + EscapeHtml(DisplayName(i.assignee)) &&
      lines[3] == "*Status* " + EscapeHtml(i.status) &&
      Unescape(lines[0]) == i.summary &&
      forall k :: 0 <= k < 4 ==> '<' !in lines[k] && '>' !in lines[k]
  {
    JiraSplit(msg, i);
    JiraLinesText(i);
    JiraLinesSafe(i);
  }

  /** The reply of a found issue splits back into the message and the four lines. */
  lemma JiraSplit(msg: string, i: Issue)
    requires LineOK(msg)
    ensures Split(JiraText(msg, Some(i)), Sep) == [msg] + JiraLines(i)
  {
    JiraLinesOK(msg, i);
    LinesSplit([msg] + JiraLines(i));
  }

  /** The four issue lines: the escaped summary, then the labelled fields. */
  lemma JiraLinesText(i: Issue)
    ensures var lines := JiraLines(i);
      lines[1] == "*Reporter* " + EscapeHtml(DisplayName(i.reporter)) &&
      lines[2] == "*Assignee* " + EscapeHtml(DisplayName(i.assignee)) &&
      lines[3] == "*Status* " + EscapeHtml(i.status)
  {
    var lines := JiraLines(i);
    assert lines[1] == EscapeHtml("*Reporter* " + DisplayName(i.reporter));
    assert lines[2] == EscapeHtml("*Assignee* " + DisplayName(i.assignee));
    assert lines[3] == EscapeHtml("*Status* " + i.status);
    EscapeHtmlTag("*Reporter* ", DisplayName(i.reporter));
    EscapeHtmlTag("*Assignee* ", DisplayName(i.assignee));
    EscapeHtmlTag("*Status* ", i.status);
  }

  /** No issue line holds an angle bracket, and the summary reads back as it was. */
  lemma JiraLinesSafe(i: Issue)
    ensures var lines := JiraLines(i);
      Unescape(lines[0]) == i.summary &&
      forall k :: 0 <= k < 4 ==> '<' !in lines[k] && '>' !in lines[k]
  {
    UnescapeEscapeHtml(i.summary);
  }

  // ---------------------------------------------------------------------------
  // ServiceNowBot.message and _strlink

  /** `_strlink(link_label)`: a Slack link to the record's page, shown as the label. */
  function StrLink(host: string, linkLabel: string): (r: Result<string, Error>)
    ensures r.Err? <==> TableFromNumber(linkLabel).Err?
    ensures r.Err? ==> r.error == TableFromNumber(linkLabel).error
  {
    match Link(host, linkLabel)
    case Err(e) => Err(e)
    case Ok(url) => Ok("<" + url + "|" + linkLabel + ">")
  }

  /** The line, if any, that one (display name, value) pair adds to the reply.
      A str.format of a mapping would show Python's rendering of a dict, which
      is not modelled (DictText); a mapping appended as it is makes the final
      join fail (NotText). */
  function ItemLine(host: string, key: string, v: Value): (r: Result<Option<Value>, Error>)
    ensures r.Err? ==> !r.error.Seen?
  {
    if key == "Subject" then Ok(Some(if Truthy(v) then v else Str("No subject")))
    else if key == "Parent" && Truthy(v) then
      if v.Str? then
        match StrLink(host, v.s)
        case Err(e) => Err(e)
        case Ok(l) => Ok(Some(Str("*Parent* " + l)))
      else Err(NotText)
    else if Truthy(v) && key != "Number" then
      if v.Str? then Ok(Some(Str("*" + key + "* " + v.s))) else Err(DictText)
    else Ok(None)
  }

  /** The lines the loop appends for the pairs, in order; the first failing pair stops it. */
  function Lines(host: string, pairs: seq<(string, Value)>): (r: Result<seq<Value>, Error>)
    ensures r.Err? ==> !r.error.Seen?
  {
    if pairs == [] then Ok([])
    else
      match ItemLine(host, pairs[0].0, pairs[0].1)
      case Err(e) => Err(e)
      case Ok(line) =>
        match Lines(host, pairs[1..])
        case Err(e) => Err(e)
        case Ok(rest) => Ok((if line.Some? then [line.value] else []) + rest)
  }

  /** `'\n> '.join(lines)`, which fails when a line is not a string. */
  function JoinValues(vs: seq<Value>): (r: Result<string, Error>)
    ensures r.Ok? <==> forall k :: 0 <= k < |vs| ==> vs[k].Str?
  {
    if forall k :: 0 <= k < |vs| ==> vs[k].Str? then
      Ok(Join(Sep, seq(|vs|, k requires 0 <= k < |vs| => vs[k].s)))
    else Err(NotText)
  }

  /** Joining string values joins their texts. */
  lemma JoinStrs(xs: seq<string>)
    ensures JoinValues(Strs(xs)) == Ok(Join(Sep, xs))
  {
    var vs := Strs(xs);
    assert forall k :: 0 <= k < |vs| ==> vs[k].Str?;
    assert seq(|vs|, k requires 0 <= k < |vs| => vs[k].s) == xs;
  }

  /** The reply of ServiceNowBot for a found record, given the quipped link
      that is its first line. Errors of the lines come before a missing
      attribute, as the generator raises only when it reaches that field. */
  function RecordText(host: string, first: string, rec: Record): (r: Result<string, Error>)
    ensures r.Ok? ==> forall j :: 0 <= j < |Fields| ==> Fields[j].0 in rec
    ensures r.Err? ==> !r.error.Seen?
  {
    var y := Items(rec, true);
    match Lines(host, y.pairs)
    case Err(e) => Err(e)
    case Ok(vs) =>
      if y.failure.Some? then Err(y.failure.value) else JoinValues([Str(first)] + vs)
  }

  /** The text of a value that is a string or null (null reads as empty, so falsy). */
  function TextOf(v: Value): string
  {
    if v.Str? then v.s else ""
  }

  /** The labelled line for a key, shown only when its text is not empty. */
  function Labelled(key: string, text: string): seq<string>
  {
    if text != "" then ["*" + key + "* " + text] else []
  }

  /** The attribute's value, with a mapping's display value taken. */
  function Attr(rec: Record, field: string): Value
    requires field in rec
  {
    Unwrap(rec[field])
  }

  /** The attribute is present and, after unwrapping, a string or null. */
  predicate PlainAttr(rec: Record, field: string)
  {
    field in rec && (Attr(rec, field).Str? || Attr(rec, field).Null?)
  }

  /** A record every one of whose seven attributes is present and plain, with a
      parent (if any) from a known table. */
  predicate PlainRecord(rec: Record)
    ensures PlainRecord(rec) ==> HasFields(rec)
  {
    PlainAttr(rec, "short_description") && PlainAttr(rec, "number") && PlainAttr(rec, "parent") &&
    PlainAttr(rec, "state") && PlainAttr(rec, "assigned_to") && PlainAttr(rec, "opened_by") &&
    PlainAttr(rec, "sys_updated_on") &&
    (TextOf(Attr(rec, "parent")) != "" ==> TableFromNumber(TextOf(Attr(rec, "parent"))).Ok?)
  }

  /** The lines under the quip, stated field by field: the subject or "No
      subject", the parent as a link when there is one, then state, assignee,
      opener and last update when not empty; the number is never shown. */
  function RecordLines(host: string, rec: Record): seq<string>
    requires PlainRecord(rec)
  {
    SubjectLine(Attr(rec, "short_description")) +
    ParentLine(host, Attr(rec, "parent")) +
    Labelled("State", TextOf(Attr(rec, "state"))) +
    Labelled("Assigned To", TextOf(Attr(rec, "assigned_to"))) +
    Labelled("Opened By", TextOf(Attr(rec, "opened_by"))) +
    Labelled("Last Update", TextOf(Attr(rec, "sys_updated_on")))
  }

  /** String values of the given texts. */
  function Strs(xs: seq<string>): (vs: seq<Value>)
    ensures |vs| == |xs| && forall k :: 0 <= k < |xs| ==> vs[k] == Str(xs[k])
  {
    seq(|xs|, k requires 0 <= k < |xs| => Str(xs[k]))
  }

  function LabelledValue(host: string, key: string, v: Value): seq<Value>
  {
    if ItemLine(host, key, v).Ok? && ItemLine(host, key, v).value.Some? then [ItemLine(host, key, v).value.value] else []
  }

  lemma ItemLineLabelled(host: string, key: string, v: Value)
    requires key != "Subject" && key != "Parent" && key != "Number"
    requires v.Str? || v.Null?
    ensures ItemLine(host, key, v).Ok?
    ensures LabelledValue(host, key, v) == Strs(Labelled(key, TextOf(v)))
  {
  }

  lemma StrsAppend(a: seq<string>, b: seq<string>)
    ensures Strs(a + b) == Strs(a) + Strs(b)
  {
  }

  /** Every one of the seven attributes is present. */
  predicate HasFields(rec: Record)
  {
    "short_description" in rec && "number" in rec && "parent" in rec && "state" in rec &&
    "assigned_to" in rec && "opened_by" in rec && "sys_updated_on" in rec
  }

  /** The seven (display name, value) pairs of a record that has every field. */
  function NamedPairs(rec: Record): seq<(string, Value)>
    requires HasFields(rec)
  {
    [("Subject", Attr(rec, "short_description")),
     ("Number", Attr(rec, "number")),
     ("Parent", Attr(rec, "parent")),
     ("State", Attr(rec, "state")),
     ("Assigned To", Attr(rec, "assigned_to")),
     ("Opened By", Attr(rec, "opened_by")),
     ("Last Update", Attr(rec, "sys_updated_on"))]
  }

  /** With every field present, `items(pretty_names=True)` yields the seven
      display names in declaration order, each with its unwrapped value. */
  lemma ItemsNamed(rec: Record)
    requires HasFields(rec)
    ensures Items(rec, true) == Yielded(NamedPairs(rec), None)
  {
    assert forall j :: 0 <= j < |Fields| ==> Fields[j].0 in rec;
    var ps := Items(rec, true).pairs;
    forall k | 0 <= k < 7
      ensures ps[k] == NamedPairs(rec)[k]
    {
    }
  }

  lemma ConsThree<T>(a: T, b: T, c: T, tail: seq<T>)
    ensures [a] + ([b] + ([c] + tail)) == [a, b, c] + tail
  {
  }

  lemma AppendNil<T>(a: seq<T>)
    ensures a + [] == a
  {
  }

  lemma AppendFour<T>(a: seq<T>, b: seq<T>, c: seq<T>, d: seq<T>)
    ensures a + (b + (c + d)) == a + b + c + d
  {
  }

  lemma AppendSix<T>(a: seq<T>, b: seq<T>, c: seq<T>, d: seq<T>, e: seq<T>, f: seq<T>)
    ensures a + b + c + d + e + f == (a + b) + (c + d + e + f)
  {
  }

  lemma AppendAssoc<T>(a: seq<T>, b: seq<T>, c: seq<T>)
    ensures a + (b + c) == (a + b) + c
  {
  }

  lemma LinesCons(host: string, x: (string, Value), rest: seq<(string, Value)>)
    requires ItemLine(host, x.0, x.1).Ok? && Lines(host, rest).Ok?
    ensures Lines(host, [x] + rest) == Ok(LabelledValue(host, x.0, x.1) + Lines(host, rest).value)
  {
    assert ([x] + rest)[0] == x && ([x] + rest)[1..] == rest;
  }

  /** The state, assignee, opener and last-update pairs. */
  lemma TailLines(host: string, a: Value, b: Value, c: Value, d: Value)
    requires (a.Str? || a.Null?) && (b.Str? || b.Null?) && (c.Str? || c.Null?) && (d.Str? || d.Null?)
    ensures Lines(host, [("State", a), ("Assigned To", b), ("Opened By", c), ("Last Update", d)]) ==
      Ok(Strs(Labelled("State", TextOf(a)) + Labelled("Assigned To", TextOf(b)) +
              Labelled("Opened By", TextOf(c)) + Labelled("Last Update", TextOf(d))))
  {
    var l3, l4 := Labelled("State", TextOf(a)), Labelled("Assigned To", TextOf(b));
    var l5, l6 := Labelled("Opened By", TextOf(c)), Labelled("Last Update", TextOf(d));
    assert Lines(host, []) == Ok(Strs([]));
    LabelledCons(host, "Last Update", d, [], []);
    AppendNil(l6);
    AppendNil([("Last Update", d)]);
    LabelledCons(host, "Opened By", c, [("Last Update", d)], l6);
    LabelledCons(host, "Assigned To", b, [("Opened By", c), ("Last Update", d)], l5 + l6);
    LabelledCons(host, "State", a, [("Assigned To", b), ("Opened By", c), ("Last Update", d)], l4 + (l5 + l6));
    AppendFour(l3, l4, l5, l6);
  }

  /** A labelled pair puts its line, if any, before the lines of the pairs after it. */
  lemma LabelledCons(host: string, key: string, v: Value, rest: seq<(string, Value)>, tail: seq<string>)
    requires key != "Subject" && key != "Parent" && key != "Number"
    requires v.Str? || v.Null?
    requires Lines(host, rest) == Ok(Strs(tail))
    ensures Lines(host, [(key, v)] + rest) == Ok(Strs(Labelled(key, TextOf(v)) + tail))
  {
    ItemLineLabelled(host, key, v);
    LinesCons(host, (key, v), rest);
    StrsAppend(Labelled(key, TextOf(v)), tail);
  }

  /** The subject line: the subject, or "No subject" when it is empty. */
  function SubjectLine(s: Value): seq<string>
  {
    [if TextOf(s) != "" then TextOf(s) else "No subject"]
  }

  /** The parent line, when there is a parent: its number, linked to its page. */
  function ParentLine(host: string, p: Value): seq<string>
    requires TextOf(p) != "" ==> TableFromNumber(TextOf(p)).Ok?
  {
    if TextOf(p) != "" then ["*Parent* " + StrLink(host, TextOf(p)).value] else []
  }

  lemma SubjectValue(host: string, s: Value)
    requires s.Str? || s.Null?
    ensures ItemLine(host, "Subject", s).Ok?
    ensures LabelledValue(host, "Subject", s) == Strs(SubjectLine(s))
  {
  }

  lemma NumberValue(host: string, n: Value)
    ensures ItemLine(host, "Number", n).Ok?
    ensures LabelledValue(host, "Number", n) == []
  {
  }

  lemma ParentValue(host: string, p: Value)
    requires p.Str? || p.Null?
    requires TextOf(p) != "" ==> TableFromNumber(TextOf(p)).Ok?
    ensures ItemLine(host, "Parent", p).Ok?
    ensures LabelledValue(host, "Parent", p) == Strs(ParentLine(host, p))
  {
  }

  /** The subject, number and parent pairs in front of other lines. */
  lemma HeadLines(host: string, s: Value, n: Value, p: Value, tail: seq<(string, Value)>)
    requires (s.Str? || s.Null?) && (p.Str? || p.Null?)
    requires TextOf(p) != "" ==> TableFromNumber(TextOf(p)).Ok?
    requires Lines(host, tail).Ok?
    ensures Lines(host, [("Subject", s), ("Number", n), ("Parent", p)] + tail) ==
      Ok(Strs(SubjectLine(s) + ParentLine(host, p)) + Lines(host, tail).value)
  {
    var rest := Lines(host, tail).value;
    ParentValue(host, p);
    LinesCons(host, ("Parent", p), tail);
    NumberValue(host, n);
    LinesCons(host, ("Number", n), [("Parent", p)] + tail);
    assert [] + (Strs(ParentLine(host, p)) + rest) == Strs(ParentLine(host, p)) + rest;
    SubjectValue(host, s);
    LinesCons(host, ("Subject", s), [("Number", n)] + ([("Parent", p)] + tail));
    StrsAppend(SubjectLine(s), ParentLine(host, p));
    AppendAssoc(Strs(SubjectLine(s)), Strs(ParentLine(host, p)), rest);
    ConsThree(("Subject", s), ("Number", n), ("Parent", p), tail);
  }

  /** The lines a plain record adds, as values, are the strings of RecordLines. */
  lemma RecordValues(host: string, rec: Record)
    requires PlainRecord(rec)
    ensures Lines(host, NamedPairs(rec)) == Ok(Strs(RecordLines(host, rec)))
  {
    var s, n, p := Attr(rec, "short_description"), Attr(rec, "number"), Attr(rec, "parent");
    var a, b := Attr(rec, "state"), Attr(rec, "assigned_to");
    var c, d := Attr(rec, "opened_by"), Attr(rec, "sys_updated_on");
    var tail := [("State", a), ("Assigned To", b), ("Opened By", c), ("Last Update", d)];
    TailLines(host, a, b, c, d);
    HeadLines(host, s, n, p, tail);
    assert NamedPairs(rec) == [("Subject", s), ("Number", n), ("Parent", p)] + tail;
    var lt := Labelled("State", TextOf(a)) + Labelled("Assigned To", TextOf(b)) +
              Labelled("Opened By", TextOf(c)) + Labelled("Last Update", TextOf(d));
    StrsAppend(SubjectLine(s) + ParentLine(host, p), lt);
    AppendSix(SubjectLine(s), ParentLine(host, p), Labelled("State", TextOf(a)),
      Labelled("Assigned To", TextOf(b)), Labelled("Opened By", TextOf(c)), Labelled("Last Update", TextOf(d)));
  }

  /** For a plain record the reply is the quipped link followed by exactly the
      lines stated field by field in RecordLines. */
  lemma RecordTextPlain(host: string, first: string, rec: Record)
    requires PlainRecord(rec)
    ensures RecordText(host, first, rec) == Ok(Join(Sep, [first] + RecordLines(host, rec)))
  {
    ItemsNamed(rec);
    RecordValues(host, rec);
    StrsAppend([first], RecordLines(host, rec));
    assert Strs([first]) == [Str(first)];
    JoinStrs([first] + RecordLines(host, rec));
  }

  // ---------------------------------------------------------------------------
  // One call of message(link_label)

  /** The class of a bot, with what its client would answer: for Jira the
      issues the tracker holds, for ServiceNow the host and the records the
      server returns, keyed by number. */
  datatype Variant =
    | Plain
    | Jira(issues: map<string, Issue>)
    | ServiceNowBot(host: string, records: map<string, Record>)

  /** What a call returns (or raises), and the seen list and configured quip
      list it leaves. */
  datatype Outcome = Outcome(reply: Result<string, Error>, seen: seq<string>, quips: seq<string>)

  /** `self._link % (link_label, link_label)`. */
  function LinkText(link: string, linkLabel: string): (r: Result<string, Error>)
    ensures r.Ok? <==> Conversions(link) == Some(2)
  {
    FormatSucceedsIff(link, [linkLabel, linkLabel]);
    match Format(link, [linkLabel, linkLabel])
    case Ok(s) => Ok(s)
    case Err(e) => Err(BadFormat(e))
  }

  /** `LinkBot.message`: a label already seen raises; otherwise it is recorded
      as seen before the link is formatted and quipped. */
  function BaseMessage(link: string, seen: seq<string>, quips: seq<string>, k: nat, linkLabel: string): (o: Outcome)
    ensures linkLabel in seen ==> o == Outcome(Err(Seen(linkLabel)), seen, quips)
    ensures linkLabel !in seen ==> o.seen == seen + [linkLabel] && !(o.reply.Err? && o.reply.error.Seen?)
    ensures o.quips == quips || (quips != [] && o.quips == RemoveFirst(quips, quips[k % |quips|]))
    ensures linkLabel !in seen && LinkText(link, linkLabel).Ok? ==>
      (o.reply, o.quips) == Draw(quips, k, LinkText(link, linkLabel).value)
    ensures linkLabel !in seen && LinkText(link, linkLabel).Err? ==>
      o == Outcome(LinkText(link, linkLabel), seen + [linkLabel], quips)
  {
    if linkLabel in seen then Outcome(Err(Seen(linkLabel)), seen, quips)
    else
      match LinkText(link, linkLabel)
      case Err(e) => Outcome(Err(e), seen + [linkLabel], quips)
      case Ok(text) =>
        var d := Draw(quips, k, text);
        Outcome(d.0, seen + [linkLabel], d.1)
  }

  /** The issue the tracker returns, or None when the lookup raises. */
  function IssueOf(issues: map<string, Issue>, linkLabel: string): Option<Issue>
  {
    if linkLabel in issues then Some(issues[linkLabel]) else None
  }

  /** `ServiceNowBot.message`: no seen check; the record is fetched first, and
      the quip is drawn only once the record has been found. */
  function ServiceNowMessage(host: string, records: map<string, Record>, seen: seq<string>,
                             quips: seq<string>, k: nat, linkLabel: string): (o: Outcome)
    ensures o.seen == seen
    ensures Get(records, linkLabel).Err? ==> o == Outcome(Err(Get(records, linkLabel).error), seen, quips)
  {
    match Get(records, linkLabel)
    case Err(e) => Outcome(Err(e), seen, quips)
    case Ok(rec) =>
      var d := Draw(quips, k, StrLink(host, linkLabel).value);
      match d.0
      case Err(e) => Outcome(Err(e), seen, d.1)
      case Ok(first) => Outcome(RecordText(host, first, rec), seen, d.1)
  }

  /** `bot.message(link_label)` for a bot of class v with state (seen, quips) and random pick k. */
  function Respond(v: Variant, link: string, seen: seq<string>, quips: seq<string>, k: nat, linkLabel: string): (o: Outcome)
    ensures o.quips == quips || (quips != [] && o.quips == RemoveFirst(quips, quips[k % |quips|]))
    ensures o.seen == seen || o.seen == seen + [linkLabel]
    ensures o.reply.Err? && o.reply.error.Seen? ==> !v.ServiceNowBot? && o.reply.error.linkLabel == linkLabel
  {
    match v
    case Plain => BaseMessage(link, seen, quips, k, linkLabel)
    case Jira(issues) =>
      var o := BaseMessage(link, seen, quips, k, linkLabel);
      if o.reply.Ok? then o.(reply := Ok(JiraText(o.reply.value, IssueOf(issues, linkLabel)))) else o
    case ServiceNowBot(host, records) => ServiceNowMessage(host, records, seen, quips, k, linkLabel)
  }

  /** What `bot.message(label)` does, as a function of the bot's seen list,
      the items of its quip list and the random pick. */
  type Answerer = (seq<string>, seq<string>, nat, string) -> Outcome

  /** The message method of a bot of class v with link template `link`. */
  function AnswererOf(v: Variant, link: string): Answerer
  {
    (seen: seq<string>, quips: seq<string>, k: nat, linkLabel: string) => Respond(v, link, seen, quips, k, linkLabel)
  }

  /** LinkBot and JiraLinkBot answer a label at most once until reset: a seen
      label raises and changes nothing; a new one is recorded as seen, and
      whatever else happens the call does not raise the seen error. */
  lemma RespondDedup(v: Variant, link: string, seen: seq<string>, quips: seq<string>, k: nat, linkLabel: string)
    requires !v.ServiceNowBot?
    ensures var o := Respond(v, link, seen, quips, k, linkLabel);
      (linkLabel in seen ==> o == Outcome(Err(Seen(linkLabel)), seen, quips)) &&
      (linkLabel !in seen ==> o.seen == seen + [linkLabel] && !(o.reply.Err? && o.reply.error.Seen?))
  {
  }

  /** ServiceNowBot keeps no seen list: it never raises the seen error, leaves
      the list alone, and answers the same whatever the list holds. */
  lemma ServiceNowIgnoresSeen(host: string, records: map<string, Record>, link: string,
                              seen: seq<string>, seen': seq<string>, quips: seq<string>, k: nat, linkLabel: string)
    ensures var o := Respond(ServiceNowBot(host, records), link, seen, quips, k, linkLabel);
      var o' := Respond(ServiceNowBot(host, records), link, seen', quips, k, linkLabel);
      o.seen == seen && !(o.reply.Err? && o.reply.error.Seen?) &&
      o.reply == o'.reply && o.quips == o'.quips
  {
  }

  /** A leading %s takes the first argument. */
  lemma FormatFirstSlot(x: string, u: string, more: seq<string>)
    ensures Format("%s" + u, [x] + more) == Prepend(x, Format(u, more))
  {
    var t := "%s" + u;
    assert t[0] == '%' && t[1] == 's' && t[2..] == u;
    assert ([x] + more)[0] == x && ([x] + more)[1..] == more;
  }

  /** A link template `a%sb%sc` with no other '%' shows the label twice. */
  lemma LinkTextTwoSlots(a: string, b: string, c: string, linkLabel: string)
    requires '%' !in a && '%' !in b && '%' !in c
    ensures LinkText(a + "%s" + b + "%s" + c, linkLabel) == Ok(a + linkLabel + b + linkLabel + c)
  {
    var t := a + "%s" + b + "%s" + c;
    var rest := "%s" + b + "%s" + c;
    assert t == a + rest;
    FormatLiteralPrefix(a, rest, [linkLabel, linkLabel]);
    assert rest == "%s" + (b + "%s" + c);
    FormatFirstSlot(linkLabel, b + "%s" + c, [linkLabel]);
    assert [linkLabel] + [linkLabel] == [linkLabel, linkLabel];
    SubstituteOnce(b, c, linkLabel);
    assert a + (linkLabel + (b + linkLabel + c)) == a + linkLabel + b + linkLabel + c;
  }

  /** The default LINK `%s|%s` gives `label|label`. */
  lemma DefaultLinkText(linkLabel: string)
    ensures LinkText("%s|%s", linkLabel) == Ok(linkLabel + "|" + linkLabel)
  {
    LinkTextTwoSlots("", "|", "", linkLabel);
    assert "" + "%s" + "|" + "%s" + "" == "%s|%s";
    assert "" + linkLabel + "|" + linkLabel + "" == linkLabel + "|" + linkLabel;
  }

  /** A bot with no quips answers a new label with the bare formatted link. */
  lemma NoQuipsBareLink(link: string, seen: seq<string>, k: nat, linkLabel: string)
    requires linkLabel !in seen && LinkText(link, linkLabel).Ok?
    ensures Respond(Plain, link, seen, [], k, linkLabel) == Outcome(LinkText(link, linkLabel), seen + [linkLabel], [])
  {
  }

  /** With the class-level quips, a new label is answered with the formatted
      link set inside the picked quip, and that quip leaves the list. */
  lemma DefaultQuipReply(link: string, seen: seq<string>, k: nat, linkLabel: string)
    requires k < |DefaultQuips| && linkLabel !in seen && LinkText(link, linkLabel).Ok?
    ensures var o := Respond(Plain, link, seen, DefaultQuips, k, linkLabel);
      var text := LinkText(link, linkLabel).value;
      o.reply == Ok(QuipParts[k].0 + text + QuipParts[k].1) &&
      o.seen == seen + [linkLabel] &&
      o.quips == RemoveFirst(DefaultQuips, DefaultQuips[k])
  {
    var text := LinkText(link, linkLabel).value;
    DefaultQuipTakesLink(k, text);
    PickInRange(k, |DefaultQuips|);
    assert Draw(DefaultQuips, k, text) == (QuipText(DefaultQuips[k], text), RemoveFirst(DefaultQuips, DefaultQuips[k]));
    assert Respond(Plain, link, seen, DefaultQuips, k, linkLabel) == BaseMessage(link, seen, DefaultQuips, k, linkLabel);
  }

  /** JiraLinkBot answers exactly as LinkBot does, with the issue lines added
      below a successful message when the tracker has the issue. */
  lemma JiraExtendsPlain(issues: map<string, Issue>, link: string, seen: seq<string>,
                         quips: seq<string>, k: nat, linkLabel: string)
    ensures var p := Respond(Plain, link, seen, quips, k, linkLabel);
      var j := Respond(Jira(issues), link, seen, quips, k, linkLabel);
      j.seen == p.seen && j.quips == p.quips &&
      (p.reply.Err? ==> j.reply == p.reply) &&
      (p.reply.Ok? && linkLabel !in issues ==> j.reply == p.reply) &&
      (p.reply.Ok? && linkLabel in issues ==> j.reply == Ok(JiraText(p.reply.value, Some(issues[linkLabel]))))
  {
  }

  /** ServiceNowBot raises for an unknown ticket prefix or a record the server
      does not return, before any quip is drawn. */
  lemma ServiceNowLookupFails(host: string, records: map<string, Record>, link: string,
                              seen: seq<string>, quips: seq<string>, k: nat, linkLabel: string)
    requires Get(records, linkLabel).Err?
    ensures var o := Respond(ServiceNowBot(host, records), link, seen, quips, k, linkLabel);
      o.quips == quips && o.seen == seen &&
      (TableFromNumber(linkLabel).Err? ==> o.reply == Err(UnknownTable(StripDigits(linkLabel)))) &&
      (TableFromNumber(linkLabel).Ok? ==> o.reply == Err(NotFound(linkLabel)))
  {
  }

  /** For a found plain record and a well-formed quip, the reply is the quipped
      record link followed by the record's lines. */
  lemma ServiceNowFound(host: string, records: map<string, Record>, link: string,
                        seen: seq<string>, quips: seq<string>, k: nat, linkLabel: string)
    requires Get(records, linkLabel).Ok? && PlainRecord(records[linkLabel])
    requires Draw(quips, k, StrLink(host, linkLabel).value).0.Ok?
    ensures var o := Respond(ServiceNowBot(host, records), link, seen, quips, k, linkLabel);
      var first := Draw(quips, k, StrLink(host, linkLabel).value).0.value;
      o.reply == Ok(Join(Sep, [first] + RecordLines(host, records[linkLabel])))
  {
    var first := Draw(quips, k, StrLink(host, linkLabel).value).0.value;
    FoundReply(host, records, link, seen, quips, k, linkLabel);
    RecordTextPlain(host, first, records[linkLabel]);
  }

  /** A found record and a well-formed quip: the reply is the record text. */
  lemma FoundReply(host: string, records: map<string, Record>, link: string,
                   seen: seq<string>, quips: seq<string>, k: nat, linkLabel: string)
    requires Get(records, linkLabel).Ok?
    requires Draw(quips, k, StrLink(host, linkLabel).value).0.Ok?
    ensures Respond(ServiceNowBot(host, records), link, seen, quips, k, linkLabel).reply ==
      RecordText(host, Draw(quips, k, StrLink(host, linkLabel).value).0.value, records[linkLabel])
  {
  }
}
