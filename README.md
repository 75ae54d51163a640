# linkbot, modelled in Dafny

linkbot is a Slack bot. It watches the messages of a Slack workspace for
snippets that name a resource, such as a Jira issue key or a ServiceNow ticket
number, and answers each one with a link to that resource.

Each bot is configured by one entry of `LINKBOTS`, which gives:

- the snippet to look for (`MATCH`);
- a Slack link template (`LINK`);
- optional quips;
- optionally the bot class (`LINK_CLASS`).

There are three classes:

- `LinkBot` fills the template with the matched label and wraps it in a random quip.
- `JiraLinkBot` adds four HTML-escaped lines about the issue.
- `ServiceNowBot` looks the ticket up and lists the record's fields.

`get_message_processor` builds the bots. The closure it returns,
`process_slack_message`, answers one event: every bot in turn answers each of
its matches and is then reset. A label that a LinkBot already answered raises
`LinkBotSeenException`, which is swallowed. Any other exception escapes and
ends the run.

The model is split into modules:

| module | file | what it holds |
|---|---|---|
| `Errors` | `errors.dfy` | one constructor per exception the engine raises or lets through |
| `Wrappers` | `wrappers.dfy` | `Option` and `Result` |
| `PyText` | `pytext.dfy` | the parts of Python's `str` and `list` that the engine relies on: `join`, `%` formatting with `%s` and `%%`, `list.remove`; and `find`/`split`, which the engine never calls, as the inverse that reads a joined reply back into its lines |
| `Matcher` | `matcher.dfy` | `LinkBot.match`, i.e. `re.findall(r'(\A|\W)(P)(\W|\Z)', text, re.I)` for a literal pattern |
| `ServiceNow` | `servicenow.dfy` | `_table_from_number`, `link`, the record lookup of `get`, and `ServiceNowRecord.fields`/`items` |
| `Quips` | `quips.dfy` | `LinkBot.QUIPS` and one draw of `_quip` |
| `Replies` | `replies.dfy` | `_escape_html`, the Jira and ServiceNow reply texts, `_strlink`, and `Respond` |
| `LinkBots` | `linkbot.dfy` | the bot objects as classes; `PyList` is a Python list object that several bots may share |
| `Dispatch` | `dispatch.dfy` | the events, building the bots, and the closure as the `Processor` class |

`Respond` is one function of a bot's state: it gives what `message(label)`
returns and the seen list and quip list that the call leaves.

The random choice of `_quip` is an explicit pick `k`. It is a ghost
out-parameter of the methods that draw. Every method is proved against a
function of the inputs and the pick:

- `LinkBot.Message` against `Respond`.
- `Processor.Process` against `Expected`, which is built from `Progress`, a
  run of the two nested loops over a table of picks.

## Model

| member | source | states |
|---|---|---|
| `PyText.Join` | linkbot.py:123 | `sep.join(parts)` begins with the first part and ends with the last; no parts give the empty text |
| `PyText.Find` | linkbot.py:123 | the index found is an occurrence of the separator and no earlier index is; None means no occurrence at all |
| `PyText.FindIs` | linkbot.py:123 | the first occurrence is the index that Find returns |
| `PyText.FindKeepsFirst` | linkbot.py:123 | text appended after the first separator does not move it |
| `PyText.OccursShift` | linkbot.py:123 | dropping the first character shifts every occurrence one place left |
| `PyText.SplitJoin` | linkbot.py:123 | splitting `sep.join(parts)` at sep gives parts back when no part holds or starts the separator |
| `PyText.Format` | linkbot.py:72 | `template % args` succeeds only when the template counts one %s per argument and no other conversion |
| `PyText.FormatSucceedsIff` | linkbot.py:72 | `template % args` succeeds exactly when the template has only %s and %% conversions and one %s per argument |
| `PyText.FormatLiteralPrefix` | linkbot.py:84 | text without '%' before a template is copied unchanged and adds no conversion |
| `PyText.SubstituteOnce` | linkbot.py:84 | a template a + "%s" + b with no other '%' puts the argument between a and b |
| `PyText.IndexOf` | linkbot.py:83 | the index of the first occurrence: the element is there and not before it |
| `PyText.RemoveFirst` | linkbot.py:83 | `list.remove` loses exactly one copy of the element, as a multiset |
| `PyText.RemoveFirstAt` | linkbot.py:83 | `list.remove` deletes precisely the first occurrence, keeping the order of the rest |
| `PyText.ConsCut` | linkbot.py:83 | proof helper of RemoveFirstAt: cutting element j out of a tail is cutting element j + 1 out of the whole list |
| `Matcher.MatchAt` | linkbot.py:65 | a match at a start position begins with `\A` or one non-word character, holds the pattern, and ends with one non-word character or the end |
| `Matcher.Groups` | linkbot.py:65 | the three groups of a match put together are the matched text, and group 2 is the text's own slice at the label, in the text's casing |
| `Matcher.FindSpans` | linkbot.py:65 | the findall scan (`FindFrom` from position 0): each span's three groups lie within the text |
| `Matcher.FindFromStarts` | linkbot.py:65 | every span that findall reports is the match tried at its own start |
| `Matcher.OrderedCons` | linkbot.py:65 | proof helper of FindFromOrdered: a span ending before an ordered list of later spans keeps the list ordered |
| `Matcher.FindFromOrdered` | linkbot.py:65 | the reported spans are in text order and never overlap |
| `Matcher.FindFromComplete` | linkbot.py:65 | every position where the expression matches lies inside some reported span |
| `Matcher.BoundedMatches` | linkbot.py:65 | an occurrence of the pattern between word boundaries is a match of the expression |
| `Matcher.FindSpansSound` | linkbot.py:65 | every reported label is an occurrence of the pattern, ignoring case, between word boundaries |
| `Matcher.FindSpansDisjoint` | linkbot.py:65 | reported matches do not overlap |
| `Matcher.FindSpansComplete` | linkbot.py:65 | every occurrence between word boundaries is covered by a reported match |
| `Matcher.FindAll` | linkbot.py:65 | one tuple per span, in order, each lying within the text and being the groups of its span; each label equals the pattern up to case |
| `Matcher.Labels` | linkbot.py:173-178 | the labels `match[1]` handed to `message`, one per match, are each the text's own slice at the match's label position, and equal the pattern up to case |
| `Matcher.FirstSpanBounded` | linkbot.py:65 | the first match's label is an occurrence between word boundaries |
| `Matcher.NoOccurrenceNoLabels` | linkbot.py:65 | a text with no bounded occurrence gives no labels |
| `Matcher.ConsumedSpaceExample` | linkbot.py:65 | in "abc ABC", the space consumed by the first match hides the second occurrence |
| `Matcher.KeepsCasingExample` | linkbot.py:65 | the pattern "abc" finds "ABC" in "x ABC" and the label keeps the text's casing |
| `ServiceNow.StripDigits` | linkbot/clients.py:20 | the result keeps every non-digit of the input, in it, and no digit |
| `ServiceNow.StripDigitsAppend` | linkbot/clients.py:59 | removing digits distributes over concatenation |
| `ServiceNow.StripDigitsNoDigits` | linkbot/clients.py:59 | a string without digits is unchanged |
| `ServiceNow.StripDigitsAllDigits` | linkbot/clients.py:59 | a string of digits vanishes |
| `ServiceNow.TableFromNumber` | linkbot/clients.py:58-63 | succeeds exactly when the digit-free remainder is a key of the table map, gives its table, and otherwise raises KeyError naming the remainder |
| `ServiceNow.TableIsKnown` | linkbot/clients.py:14-19 | a resolved table is one of the four table names |
| `ServiceNow.DigitsAnywhere` | linkbot/clients.py:59-60 | digits inserted anywhere in a number do not change its table |
| `ServiceNow.PrefixSelectsTable` | linkbot/clients.py:14-19 | a ticket prefix followed by digits selects that prefix's table |
| `ServiceNow.Link` | linkbot/clients.py:52-56 | the link fails exactly when the table lookup fails, with the same error |
| `ServiceNow.LinkShape` | linkbot/clients.py:55-56 | the link is host, "/", the table, ".do?sysparm_table=", the table again, then "&sysparm_query=number%3D" and the number |
| `ServiceNow.Unwrap` | linkbot/clients.py:85-87 | a value is kept, unless it is a mapping holding `display_value`, which gives that entry |
| `ServiceNow.ItemsOver` | linkbot/clients.py:82-90 | the generator yields one pair per field in order, named and unwrapped, and stops with AttributeError at the first missing attribute |
| `ServiceNow.Items` | linkbot/clients.py:66-73 | the seven fields in declaration order; all seven exactly when every attribute is present; otherwise the first missing one is reported |
| `ServiceNow.PrettyKeys` | linkbot/clients.py:88-89 | with `pretty_names` the keys are the seven display names, in order |
| `ServiceNow.RawKeys` | linkbot/clients.py:82-90 | without `pretty_names` the keys are the attribute names |
| `ServiceNow.Get` | linkbot/clients.py:29-50 | the table is resolved first; a record is returned exactly when one exists and is not empty; otherwise KeyError naming the number |
| `Quips.QuipText` | linkbot.py:84 | `quip % link` succeeds exactly when the quip has one %s and no other conversion |
| `Quips.Splits` | linkbot.py:84 | a quip a + "%s" + b puts the link, unchanged, between a and b |
| `Quips.PlainParts0To7` | linkbot.py:40-54 | the text around the first eight class quips' %s holds no '%' |
| `Quips.PlainParts8To10` | linkbot.py:40-54 | the same for quips 8 to 10 |
| `Quips.PlainParts11To12` | linkbot.py:40-54 | the same for quips 11 and 12 |
| `Quips.DefaultQuipTakesLink` | linkbot.py:40-54 | every class quip of `DefaultQuips` (the constants `QuipParts` and `DefaultQuips` hold `LinkBot.QUIPS`) puts the link between its fixed prefix and suffix |
| `Quips.Draw` | linkbot.py:77-88 | an empty list gives the bare link; otherwise the picked quip is formatted and exactly one copy of it leaves the list |
| `Quips.PickInRange` | linkbot.py:82 | proof helper of DrainIsDraws, LinkBot.Quip and DefaultQuipReply: a pick inside the list is the index itself |
| `Quips.Drain` | linkbot.py:79-83 | successive draws take one quip each and lose none of the list |
| `Quips.TakeOne` | linkbot.py:82-83 | drawing one quip and then the rest loses no quip |
| `Quips.DrainIsDraws` | linkbot.py:79-83 | Drain takes the quip that Draw picks and continues from the list Draw leaves |
| `Quips.FullCycle` | linkbot.py:79-88 | \|quips\| draws use each configured quip as often as it is listed and empty the list; after that every draw is the bare link |
| `Replies.EscapeHtml` | linkbot.py:93-100 | the escaped text holds no angle bracket and is at least as long |
| `Replies.UnescapeEsc` | linkbot.py:94-98 | reading back one escaped character gives that character |
| `Replies.UnescapeEscapeHtml` | linkbot.py:93-100 | reading the entities back gives the original text |
| `Replies.EscapeHtmlPlain` | linkbot.py:100 | text without '&', '<' and '>' is left unchanged |
| `Replies.EscapeHtmlAppend` | linkbot.py:100 | escaping distributes over concatenation |
| `Replies.EscapeHtmlNoNewline` | linkbot.py:100 | escaping adds no line break |
| `Replies.NoSepBefore` | linkbot.py:123 | the separator cannot start inside a line that is followed by it |
| `Replies.NoSepIn` | linkbot.py:123 | the separator does not occur in a line |
| `Replies.NoSepInside` | linkbot.py:123 | the same, at every index of the line |
| `Replies.SepAfter` | linkbot.py:123 | the separator follows its line |
| `Replies.FindAfterLine` | linkbot.py:123 | the first separator after a line is the one just after it |
| `Replies.FindInLine` | linkbot.py:123 | a last line holds no separator |
| `Replies.LinesSplit` | linkbot.py:123 | a reply joined from such lines splits back into them |
| `Replies.DisplayName` | linkbot.py:117 | a person's display name, or "None" for a missing person; never empty |
| `Replies.JiraLines` | linkbot.py:116-122 | four issue lines, none holding an angle bracket |
| `Replies.JiraText` | linkbot.py:112-126 | the reply starts with the LinkBot message, and is just that message when the issue lookup raised |
| `Replies.EscapeHtmlTag` | linkbot.py:118-121 | escaping "*Reporter* " + name escapes only the name |
| `Replies.JiraLinesOK` | linkbot.py:121-123 | the message and the four escaped lines cannot hold or start the separator |
| `Replies.JiraTextLines` | linkbot.py:112-126 | a found issue adds four lines under the message: the summary, then the labelled reporter, assignee and status; each holds no angle bracket; the summary reads back unchanged; splitting at the separator gives the message and the lines back |
| `Replies.JiraSplit` | linkbot.py:123 | the Jira reply splits back into the message and the four lines |
| `Replies.JiraLinesText` | linkbot.py:117-121 | the reporter, assignee and status lines are their label followed by the escaped value, "None" for a missing person |
| `Replies.JiraLinesSafe` | linkbot.py:121-122 | no issue line holds an angle bracket, and the summary reads back as it was |
| `Replies.StrLink` | linkbot.py:149-151 | the Slack link fails exactly when the table lookup fails, with the same error |
| `Replies.ItemLine` | linkbot.py:140-146 | processing one record pair never raises the seen error |
| `Replies.Lines` | linkbot.py:139-146 | the loop over the record pairs never raises the seen error |
| `Replies.JoinValues` | linkbot.py:147 | the final join succeeds exactly when every line is a string |
| `Replies.JoinStrs` | linkbot.py:147 | lines that are all strings are joined with the separator |
| `Replies.RecordText` | linkbot.py:135-147 | a ServiceNow reply exists only for a record with all seven attributes, and its failure is never the seen error |
| `Replies.PlainRecord` | linkbot/clients.py:66-73 | a record whose values are all text or null has every field |
| `Replies.Strs` | linkbot.py:138-147 | the lines as values are the strings, one for one |
| `Replies.ItemLineLabelled` | linkbot.py:145-146 | a text value gives the line "*Key* value"; an empty or null one gives no line |
| `Replies.StrsAppend` | linkbot.py:138-147 | proof helper of LabelledCons, HeadLines and RecordValues: string lines concatenate one for one |
| `Replies.ItemsNamed` | linkbot/clients.py:82-90 | a record with every attribute yields the seven named pairs and no failure |
| `Replies.ConsThree` | linkbot.py:140-144 | proof helper of HeadLines: three pairs consed onto a tail are that tail behind a three-element list |
| `Replies.AppendNil` | linkbot.py:145-146 | proof helper of TailLines: appending nothing changes nothing |
| `Replies.AppendFour` | linkbot.py:145-146 | proof helper of TailLines: concatenation of four sequences regrouped |
| `Replies.AppendSix` | linkbot.py:139-146 | proof helper of RecordValues: concatenation of six sequences regrouped |
| `Replies.AppendAssoc` | linkbot.py:140-144 | proof helper of HeadLines: concatenation is associative |
| `Replies.LinesCons` | linkbot.py:139-146 | the lines of a pair come before the lines of the pairs after it |
| `Replies.LabelledCons` | linkbot.py:145-146 | a labelled pair puts its line, if any, before the later lines |
| `Replies.TailLines` | linkbot.py:145-146 | the state, assignee, opener and last-update lines appear, in order, exactly for those values that are not empty |
| `Replies.SubjectValue` | linkbot.py:140-141 | the subject line is the subject, or "No subject" when it is empty |
| `Replies.NumberValue` | linkbot.py:145 | the number adds no line |
| `Replies.ParentValue` | linkbot.py:142-144 | a parent adds "*Parent* " and its Slack link; an empty one adds nothing |
| `Replies.HeadLines` | linkbot.py:140-144 | the subject, number and parent pairs give the subject line and the parent line, before the lines that follow |
| `Replies.RecordValues` | linkbot.py:139-146 | for a record of text values the loop gives exactly the subject line, the parent line and the labelled lines |
| `Replies.RecordTextPlain` | linkbot.py:135-147 | the ServiceNow reply is the quipped link, then those lines, joined with the separator |
| `Replies.BaseMessage` | linkbot.py:67-72 | a seen label raises the seen error and changes nothing; a new label is recorded and does not raise it; its reply and the quip list left are Draw's for the quip list, the pick and `LINK % (label, label)`, or, when that formatting fails, its error with the quip list unchanged |
| `Replies.ServiceNowMessage` | linkbot.py:135-147 | the seen list is untouched, and a failed lookup raises its error before any quip is drawn |
| `Replies.LinkText` | linkbot.py:72 | `LINK % (label, label)` succeeds exactly when LINK has two %s and no other conversion |
| `Replies.Respond` | linkbot.py:67-72 | a message leaves the quip list as it was or without one copy of the picked quip, and the seen list as it was or with the label added; the seen error is raised only by LinkBot and JiraLinkBot, and only for that label |
| `Replies.RespondDedup` | linkbot.py:68-71 | a LinkBot or JiraLinkBot raises the seen error for a seen label and changes nothing; for a new label it records the label and does not raise the seen error |
| `Replies.ServiceNowIgnoresSeen` | linkbot.py:135-147 | a ServiceNowBot neither reads nor changes the seen list |
| `Replies.FormatFirstSlot` | linkbot.py:72 | proof helper of LinkTextTwoSlots: a leading %s takes the first argument |
| `Replies.LinkTextTwoSlots` | linkbot.py:72 | a LINK with two %s puts the label in both places |
| `Replies.DefaultLinkText` | linkbot.py:60 | the default LINK "%s\|%s" gives "label\|label" |
| `Replies.NoQuipsBareLink` | linkbot.py:85-88 | with no quips, a new label is answered by the bare link |
| `Replies.DefaultQuipReply` | linkbot.py:40-54 | with the class quips, a new label is answered by the picked quip's prefix, the link and its suffix, and that quip leaves the list |
| `Replies.JiraExtendsPlain` | linkbot.py:112-126 | a JiraLinkBot changes the state exactly as a LinkBot does and returns the same reply, extended with the issue lines when the issue is found |
| `Replies.ServiceNowLookupFails` | linkbot.py:136 | a failed lookup raises before any quip is drawn: KeyError for an unknown prefix or a record not found |
| `Replies.ServiceNowFound` | linkbot.py:135-147 | a found record of text values is answered by the quipped Slack link with the record lines under it |
| `Replies.FoundReply` | linkbot.py:135-147 | proof helper of ServiceNowFound: a found record and a well-formed quip give the record text as the reply |
| `LinkBots.PyList.Remove` | linkbot.py:83 | the list becomes `list.remove(x)` of the old list |
| `LinkBots.LinkBot.constructor` | linkbot.py:56-62 | MATCH, LINK and QUIPS as configured, or None, "%s\|%s" and the class quips; empty pool and seen list |
| `LinkBots.LinkBot.Match` | linkbot.py:64-65 | one match per span of the expression; each label is the message's own slice at that span, equal to the pattern up to case |
| `LinkBots.LinkBot.Quip` | linkbot.py:77-91 | the draw of Draw for the pick from the configured list itself; the pool becomes that list; the seen list is unchanged |
| `LinkBots.LinkBot.Message` | linkbot.py:67-72 | the reply, the seen list and the quip list left are those of Respond for the random pick |
| `LinkBots.LinkBot.Reset` | linkbot.py:74-75 | the seen list is emptied and the pool kept |
| `Dispatch.LinkBotKeepsSeen` | linkbot.py:67-72 | LinkBot and JiraLinkBot keep a seen list |
| `Dispatch.ServiceNowBotIgnoresSeen` | linkbot.py:135-147 | ServiceNowBot ignores it |
| `Dispatch.Ignored` | linkbot.py:168-170 | an event that is not a message is ignored, a message is ignored exactly when its `bot_id` is truthy, and an event without a type is not ignored (it raises) |
| `Dispatch.Step` | linkbot.py:175-182 | one match: with no channel a KeyError before any message; otherwise the bot's state is what `message` leaves; a reply is appended as one post of exactly that text to the event's channel; the seen error is swallowed and any other error escapes, posting nothing |
| `Dispatch.Steps` | linkbot.py:173-182 | a bot's matches in order post at most once each, and the seen error never escapes |
| `Dispatch.Matched` | linkbot.py:172-173 | each bot's labels are those of its own pattern on the text |
| `Dispatch.Progress` | linkbot.py:172-183 | at every point of a run there is still one seen list per bot and every bot's quip list |
| `Dispatch.Expected` | linkbot.py:165-183 | a missing type raises KeyError and changes nothing; ignored events do nothing; the seen error never escapes; a completed run resets every bot; every post goes to the event's channel |
| `Dispatch.ProgressKeeps` | linkbot.py:172-183 | at every point: no quip list is lost, the seen error has not escaped, with no error escaped the bots that are done are reset, the bots to come are untouched, and every post went to the channel |
| `Dispatch.DoneStaysReset` | linkbot.py:172-183 | a bot whose turn ended without an escaping error stays reset at every later point, even when a later bot raises |
| `Dispatch.Fresh` | linkbot.py:68-71 | the labels not seen before, in order and without repeats |
| `Dispatch.NoChannelStops` | linkbot.py:176-177 | with no channel, the first match raises KeyError and nothing is posted or changed |
| `Dispatch.StepsAnswerFresh` | linkbot.py:172-182 | in a LinkBot's turn that raises nothing, each new label is posted once and recorded; repeats post nothing |
| `Dispatch.FreshLast` | linkbot.py:68-71 | one more label adds itself to the fresh ones unless it was seen already |
| `Dispatch.FreshStep` | linkbot.py:175-182 | one match of a LinkBot posts and records exactly the labels that are fresh |
| `Dispatch.StepsAnswerAll` | linkbot.py:172-182 | in a ServiceNowBot's turn that raises nothing, every match is posted, repeats included |
| `Dispatch.TurnPosts` | linkbot.py:172-183 | the number of posts of a turn: the fresh labels for LinkBot and JiraLinkBot, all matches for ServiceNowBot |
| `Dispatch.StepPrefix` | linkbot.py:175-180 | earlier posts do not affect a step |
| `Dispatch.ProgressSteps` | linkbot.py:172-182 | within a bot's turn, the run is that bot's Steps from the state at the start of its turn |
| `Dispatch.WithinTurnNext` | linkbot.py:173-182 | one more match extends the bot's Steps by one |
| `Dispatch.SetPick` | linkbot.py:82 | proof helper of ProgressPicks: a pick table with one entry replaced and all others kept |
| `Dispatch.ProgressNext` | linkbot.py:173-182 | the point after match k is the Step of bot n on match k |
| `Dispatch.ProgressReset` | linkbot.py:183 | after its last match a bot is reset, and nothing else changes |
| `Dispatch.ProgressPicks` | linkbot.py:172-183 | a run up to a point does not depend on the later picks |
| `Dispatch.ProgressStops` | linkbot.py:172-183 | once an error escapes, every later point is that same point |
| `Dispatch.StopsWithin` | linkbot.py:173-182 | after an error, a further match of the same bot changes nothing |
| `Dispatch.StopsBetween` | linkbot.py:183 | a bot whose turn raised is not reset |
| `Dispatch.NoMatchesNoPosts` | linkbot.py:172-183 | a message that no bot matches posts nothing and leaves the quip lists alone |
| `Dispatch.PutTwice` | linkbot.py:172-183 | proof helper of WithinTurnNext: replacing a bot's state twice keeps only the second replacement |
| `Dispatch.PutSame` | linkbot.py:172-183 | proof helper of ProgressSteps and Processor.AnswerMatch: replacing a bot's state by itself changes nothing |
| `Dispatch.VariantOf` | linkbot.py:159 | `LINK_CLASS` defaults to LinkBot; the three class names give their classes; any other name raises KeyError with that name |
| `Dispatch.Classes` | linkbot.py:158-160 | all entries name a class exactly when the result is Ok; the classes are the entries' own; an error is the first unknown name |
| `Dispatch.FirstUnknown` | linkbot.py:158-160 | the first unknown class name is the one reported |
| `Dispatch.NewBot` | linkbot.py:160 | a new bot built from the entry, as the class it names |
| `Dispatch.BuiltNext` | linkbot.py:158-160 | appending the bot for entry i keeps the bots distinct and each one built from its entry |
| `Dispatch.GetMessageProcessor` | linkbot.py:154-163 | one new, distinct bot per entry, in order; an unknown class raises; no entries raise "No linkbots defined" |
| `Dispatch.Processor.constructor` | linkbot.py:165 | the closure holds the bots it was given |
| `Dispatch.Processor.Answer` | linkbot.py:178 | bot i's reply and state are Respond's; every other bot and list is unchanged |
| `Dispatch.Processor.ResetBot` | linkbot.py:183 | bot i's seen list is emptied; every other bot and list is unchanged |
| `Dispatch.Processor.AnswerMatch` | linkbot.py:175-182 | one match of bot i advances the run to the next point of Progress |
| `Dispatch.Processor.AnswerAll` | linkbot.py:173-182 | bot i's matches advance the run to the end of its matches or the point where an error escaped |
| `Dispatch.Processor.TakeTurn` | linkbot.py:172-183 | bot i's turn, ending with its reset, advances the run to the next bot or, on an error, to the end |
| `Dispatch.Processor.Turns` | linkbot.py:172-183 | the bots and the posts end as Progress says for the whole run |
| `Dispatch.Processor.Process` | linkbot.py:165-183 | the bots and the posts end as Expected says for the event |

## Left out

- `ServiceNow.Unwrap`: the test `isinstance(value, collections.Mapping)` assumes the alias `collections.Mapping`, which Python 3.10 removed. There `items()` raises AttributeError at its first field. The model follows the older Pythons where the alias exists.
- `ServiceNow.Value`: a field value is null, text or a mapping. JSON numbers, booleans and lists are not modelled, since the client asks the server for display values, which come back as text.
- The Slack connection is not modelled: the RTM websocket loop of `linkbot()`, the `auth.test` call that finds `robo_id`, and posting as that user. A post is recorded as a (channel, text) pair.
- The Flask route, the queue and the two worker threads at the end of linkbot.py are not modelled. They are I/O and concurrency.
- JSON decoding is not modelled. An event is the four keys the closure reads, each present or absent.
- The `print` calls (" match!", the Jira exception, the GET URL) and the logging are left out. They are output only.
- The Jira and ServiceNow clients are not modelled. Only their answers are: a map from issue key to issue, and a map from ticket number to record. A failed Jira lookup, whatever its cause, is a key missing from the map. A non-200 ServiceNow response is not modelled. The record map stands for the server's reply.
- `UwSamlJira` and the SAML session are not part of this model.
- `LinkBot.Match`: the expression is modelled for a literal pattern with ASCII word characters and ASCII case folding. Regular-expression metacharacters in MATCH and Unicode `\w`/case rules are not modelled.
- `PyText.Format`: only the %s and %% conversions are modelled. Any other conversion (%r, %d, widths) is treated as a formatting error, although Python accepts some of them.
- `Replies.ItemLine`: a mapping without `display_value` in a "*Key* value" line would show Python's `str()` of a dict. That text is not modelled; the line fails with DictText.
- `LinkBots.LinkBot`: the private empty list that `__init__` stores in `_quiplist` is modelled as null. It is never shared or mutated, so only its emptiness matters.
- `Dispatch.VariantOf`: a `LINK_CLASS` naming some other global of linkbot.py is treated as an unknown class.
- `Quips.Draw`: `random.choice` is an explicit pick. It is taken modulo the list's length, and the methods promise a pick inside the list.
- Two behaviours of the code are kept as written:
  - `bot.reset()` is not in a `finally`, so a bot whose turn raised keeps its seen list (`Dispatch.StopsBetween`).
  - A failed ServiceNow lookup propagates out of the closure (`Replies.ServiceNowLookupFails`).
