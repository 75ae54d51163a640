/** The ServiceNow string and record helpers of linkbot/clients.py:
    `ServiceNowClient._table_from_number`, `ServiceNowClient.link`, the record
    lookup of `ServiceNowClient.get` as a map the caller supplies, and
    `ServiceNowRecord.items`. */
module ServiceNow {
  import opened Wrappers
  import opened Errors

  /** `ServiceNowClient.table_map`: ticket prefix to table name. */
  const TableMap: map<string, string> := map[
    "REQ" := "u_simple_requests",
    "INC" := "incident",
    "RTASK" := "u_request_task",
    "ITASK" := "u_incident_task"
  ]

  predicate IsDigit(c: char)
  {
    '0' <= c <= '9'
  }

  /** `_digits_regex.sub('', number)`: every character of [0-9] removed, wherever it stands. */
  function StripDigits(s: string): (r: string)
    ensures forall c :: c in r ==> c in s && !IsDigit(c)
    ensures forall c :: c in s && !IsDigit(c) ==> c in r
    ensures |r| <= |s|
  {
    if s == [] then []
    else if IsDigit(s[0]) then StripDigits(s[1..])
    else [s[0]] + StripDigits(s[1..])
  }

  /** Removing digits distributes over concatenation. */
  lemma {:induction false} StripDigitsAppend(a: string, b: string)
    ensures StripDigits(a + b) == StripDigits(a) + StripDigits(b)
  {
    if a != [] {
      assert (a + b)[0] == a[0] && (a + b)[1..] == a[1..] + b;
      StripDigitsAppend(a[1..], b);
    } else {
      assert a + b == b;
    }
  }

  /** A string without digits is left as it is. */
  lemma {:induction false} StripDigitsNoDigits(s: string)
    requires forall c :: c in s ==> !IsDigit(c)
    ensures StripDigits(s) == s
  {
    if s != [] {
      assert forall c :: c in s[1..] ==> c in s;
      StripDigitsNoDigits(s[1..]);
      assert [s[0]] + s[1..] == s;
    }
  }

  /** A string of digits disappears entirely. */
  lemma {:induction false} StripDigitsAllDigits(d: string)
    requires forall c :: c in d ==> IsDigit(c)
    ensures StripDigits(d) == []
  {
    if d != [] {
      assert forall c :: c in d[1..] ==> c in d;
      StripDigitsAllDigits(d[1..]);
    }
  }

  /** `_table_from_number(number)`; an unknown remainder raises KeyError. */
  function TableFromNumber(number: string): (r: Result<string, Error>)
    ensures r.Ok? <==> StripDigits(number) in TableMap
    ensures r.Ok? ==> r.value == TableMap[StripDigits(number)]
    ensures r.Err? ==> r.error == UnknownTable(StripDigits(number))
  {
    var ticketType := StripDigits(number);
    if ticketType in TableMap then Ok(TableMap[ticketType]) else Err(UnknownTable(ticketType))
  }

  /** Whenever the lookup succeeds, the result is one of the four table names. */
  lemma TableIsKnown(number: string)
    requires TableFromNumber(number).Ok?
    ensures TableFromNumber(number).value in
      {"u_simple_requests", "incident", "u_request_task", "u_incident_task"}
  {
  }

  /** Digits inserted anywhere in a number do not change its table. */
  lemma DigitsAnywhere(a: string, d: string, b: string)
    requires forall c :: c in d ==> IsDigit(c)
    ensures TableFromNumber(a + d + b) == TableFromNumber(a + b)
  {
    StripDigitsAppend(a + d, b);
    StripDigitsAppend(a, d);
    StripDigitsAppend(a, b);
    StripDigitsAllDigits(d);
    assert StripDigits(a) + [] == StripDigits(a);
  }

  /** A ticket prefix followed by its number selects that prefix's table. */
  lemma PrefixSelectsTable(prefix: string, digits: string)
    requires prefix in TableMap && forall c :: c in digits ==> IsDigit(c)
    ensures TableFromNumber(prefix + digits) == Ok(TableMap[prefix])
  {
    StripDigitsAppend(prefix, digits);
    assert forall c :: c in prefix ==> !IsDigit(c);
    StripDigitsNoDigits(prefix);
    StripDigitsAllDigits(digits);
    assert prefix + [] == prefix;
  }

  /** `ServiceNowClient.link(number)`: the record's web page. */
  function Link(host: string, number: string): (r: Result<string, Error>)
    ensures r.Err? <==> TableFromNumber(number).Err?
    ensures r.Err? ==> r.error == TableFromNumber(number).error
  {
    match TableFromNumber(number)
    case Err(e) => Err(e)
    case Ok(table) =>
      Ok(host + "/" + table + ".do?sysparm_table=" + table + "&sysparm_query=number%3D" + number)
  }

  /** The link starts at the host, names the record's table as the page and as
      `sysparm_table`, and ends by querying the number itself. */
  lemma LinkShape(host: string, number: string)
    requires TableFromNumber(number).Ok?
    ensures var t := TableFromNumber(number).value;
      var url := Link(host, number).value;
      var head := host + "/" + t + ".do?sysparm_table=" + t;
      |head| <= |url| && url[..|head|] == head &&
      url[|head|..] == "&sysparm_query=number%3D" + number
  {
    var t := TableFromNumber(number).value;
    var head := host + "/" + t + ".do?sysparm_table=" + t;
    var url := Link(host, number).value;
    assert url == head + ("&sysparm_query=number%3D" + number);
  }

  // ---------------------------------------------------------------------------
  // ServiceNowRecord

  /** An attribute value of a record as decoded from JSON. */
  datatype Value = Null | Str(s: string) | Mapping(entries: map<string, Value>)

  /** Python truthiness of a value. */
  predicate Truthy(v: Value)
  {
    match v
    case Null => false
    case Str(s) => s != ""
    case Mapping(m) => |m| > 0
  }

  /** A record, i.e. the keyword arguments its constructor stored as attributes. */
  type Record = map<string, Value>

  /** `ServiceNowRecord.fields`, in declaration order: attribute and display name. */
  const Fields: seq<(string, string)> := [
    ("short_description", "Subject"),
    ("number", "Number"),
    ("parent", "Parent"),
    ("state", "State"),
    ("assigned_to", "Assigned To"),
    ("opened_by", "Opened By"),
    ("sys_updated_on", "Last Update")
  ]

  /** A mapping that holds `display_value` is replaced by that entry. */
  function Unwrap(v: Value): (r: Value)
    ensures !v.Mapping? ==> r == v
    ensures r == v || (v.Mapping? && "display_value" in v.entries && r == v.entries["display_value"])
  {
    if v.Mapping? && "display_value" in v.entries then v.entries["display_value"] else v
  }

  /** What the generator `items()` produced before it stopped, and why it stopped
      early, if it did. */
  datatype Yielded = Yielded(pairs: seq<(string, Value)>, failure: Option<Error>)

  /** The generator run over the field list fs. */
  function ItemsOver(rec: Record, pretty: bool, fs: seq<(string, string)>): (y: Yielded)
    ensures |y.pairs| <= |fs|
    ensures y.failure.None? <==> forall j :: 0 <= j < |fs| ==> fs[j].0 in rec
    ensures forall k :: 0 <= k < |y.pairs| ==> (fs[k].0 in rec &&
      y.pairs[k] == (if pretty then fs[k].1 else fs[k].0, Unwrap(rec[fs[k].0])))
    ensures y.failure.None? ==> |y.pairs| == |fs|
    ensures y.failure.Some? ==> (|y.pairs| < |fs| &&
      fs[|y.pairs|].0 !in rec && y.failure.value == MissingField(fs[|y.pairs|].0))
  {
    if fs == [] then Yielded([], None)
    else
      var (field, name) := fs[0];
      if field !in rec then Yielded([], Some(MissingField(field)))
      else
        var rest := ItemsOver(rec, pretty, fs[1..]);
        var pairs := [(if pretty then name else field, Unwrap(rec[field]))] + rest.pairs;
        assert forall k :: 1 <= k < |pairs| ==> pairs[k] == rest.pairs[k - 1];
        Yielded(pairs, rest.failure)
  }

  /** `ServiceNowRecord.items(pretty_names)`: one pair per field, in
      declaration order, stopping with an AttributeError at the first missing
      attribute. */
  function Items(rec: Record, pretty: bool): (y: Yielded)
    ensures y.failure.None? <==> forall j :: 0 <= j < |Fields| ==> Fields[j].0 in rec
    ensures y.failure.None? ==> |y.pairs| == 7
    ensures y.failure.Some? ==> |y.pairs| < 7 && y.failure.value == MissingField(Fields[|y.pairs|].0)
    ensures |y.pairs| <= 7 && forall k :: 0 <= k < |y.pairs| ==> (Fields[k].0 in rec &&
      y.pairs[k] == (if pretty then Fields[k].1 else Fields[k].0, Unwrap(rec[Fields[k].0])))
  {
    ItemsOver(rec, pretty, Fields)
  }

  /** With pretty names the keys are the seven display names, in order. */
  lemma PrettyKeys(rec: Record)
    requires forall j :: 0 <= j < |Fields| ==> Fields[j].0 in rec
    ensures var ps := Items(rec, true).pairs;
      [ps[0].0, ps[1].0, ps[2].0, ps[3].0, ps[4].0, ps[5].0, ps[6].0] ==
      ["Subject", "Number", "Parent", "State", "Assigned To", "Opened By", "Last Update"]
  {
  }

  /** Without pretty names, the keys are the attribute names. */
  lemma RawKeys(rec: Record)
    requires forall j :: 0 <= j < |Fields| ==> Fields[j].0 in rec
    ensures var ps := Items(rec, false).pairs;
      [ps[0].0, ps[1].0, ps[2].0, ps[3].0, ps[4].0, ps[5].0, ps[6].0] ==
      ["short_description", "number", "parent", "state", "assigned_to", "opened_by", "sys_updated_on"]
  {
  }

  /** The record lookup of `ServiceNowClient.get(number)`: the table is
      resolved first (KeyError for an unknown prefix); then the record the
      server returns is taken, and a missing or empty one raises KeyError. */
  function Get(records: map<string, Record>, number: string): (r: Result<Record, Error>)
    ensures r.Ok? <==> TableFromNumber(number).Ok? && number in records && records[number] != map[]
    ensures r.Ok? ==> r.value == records[number]
    ensures TableFromNumber(number).Err? ==> r == Err(TableFromNumber(number).error)
    ensures TableFromNumber(number).Ok? && r.Err? ==> r.error == NotFound(number)
  {
    match TableFromNumber(number)
    case Err(e) => Err(e)
    case Ok(_) =>
      if number in records && records[number] != map[] then Ok(records[number]) else Err(NotFound(number))
  }
}
