/**
 * The call blocker of a1fbox/callblocker.py: it reads the router's call
 * monitor lines, and for each incoming (RING) or outgoing (CALL) call it
 * looks the number up in the white- and blacklist phone books, otherwise
 * rates it with the reputation cascade of `CallInfo`, may add it to the
 * block list, and emits one `;`-separated decision line that
 * `CallBlockerLine` parses and anonymizes.
 */
module A1CallBlocker {
  import opened Wrappers
  import opened PyStr
  import opened PyInt
  import opened Utils
  import opened Contacts
  import opened Prefixes
  import opened Lookups
  import CM = A1CallMonitor
  import CP = A1CallPrefix
  import PB = A1Phonebook
  import CI = A1CallInfo

  /** The prefix label of a number whose prefix resolves to an empty name. */
  const FAKE_PREFIX := "FAKE_PREFIX"

  // CallBlockerRate: the rate field of a decision line.
  const WHITELIST := "WHITELIST"
  const BLACKLIST := "BLACKLIST"
  const BLOCK := "BLOCK"
  const PASS := "PASS"

  /** The method field of a decision line written without a rating, and
      of one written after rating. */
  const UNRATED := "0"
  const RATED := "1"

  /** The name field of a call without a number. */
  const ANON := "ANON"

  // ---------------------------------------------------------------- CallBlockerLine

  /** A parsed decision line; `tag` is the integer of its method field. */
  datatype CallBlockerLine = CallBlockerLine(
    datetime: string, date: string, time: string, rate: string, tag: int,
    caller: string, name: string,
    score: Option<string>, comments: Option<string>, searches: Option<string>)

  /** `raw_line.strip().split(';', 8)` */
  function LineParams(raw: string): (params: seq<string>)
    ensures 1 <= |params| <= 9
  {
    SplitMax(Strip(raw), ';', 8)
  }

  predicate IsQuote(ch: char)
  {
    ch == '"'
  }

  /** How many fields after the name a method tag reads: the score alone
      for the wemgehoert method, score, comments and searches for the
      tellows and cascade methods, nothing otherwise. */
  function Extra(tag: int): nat
  {
    if tag == CI.WEMGEHOERT_SCORE then 1
    else if tag == CI.TELLOWS_SCORE || tag == CI.CASCADE then 3
    else 0
  }

  /** `CallBlockerLine.__init__` over the fields of the line. */
  function ParseParams(params: seq<string>): (r: Result<CallBlockerLine, PyError>)
    ensures r.Ok? <==> && |params| >= 5 && |Split(params[0], ' ')| == 2 && ParseInt(params[2]).Some?
                       && |params| >= 5 + Extra(ParseInt(params[2]).value)
    ensures r.Err? ==> (r.error == ValueError <==> |params| < 5 || |Split(params[0], ' ')| != 2 || ParseInt(params[2]).None?)
    ensures r.Err? ==> r.error == ValueError || r.error == IndexError
    ensures r.Ok? ==>
              var l, n := r.value, Extra(r.value.tag);
              && l.datetime == params[0] && [l.date, l.time] == Split(params[0], ' ')
              && l.rate == params[1] && Some(l.tag) == ParseInt(params[2]) && l.caller == params[3]
              && l.name == StripChars(params[4], IsQuote)
              && l.score == (if n >= 1 then Some(params[5]) else None)
              && l.comments == (if n == 3 then Some(params[6]) else None)
              && l.searches == (if n == 3 then Some(params[7]) else None)
  {
    if |params| < 5 then Err(ValueError)
    else
      var dt := Split(params[0], ' ');
      if |dt| != 2 then Err(ValueError)
      else
        var tag := ParseInt(params[2]);
        if tag.None? then Err(ValueError)
        else
          assert [dt[0], dt[1]] == dt;
          var more := params[5..];
          var base := CallBlockerLine(params[0], dt[0], dt[1], params[1], tag.value, params[3],
                                      StripChars(params[4], IsQuote), None, None, None);
          if tag.value == CI.WEMGEHOERT_SCORE then
            if |more| < 1 then Err(IndexError) else Ok(base.(score := Some(more[0])))
          else if tag.value == CI.TELLOWS_SCORE || tag.value == CI.CASCADE then
            if |more| < 3 then Err(IndexError)
            else Ok(base.(score := Some(more[0]), comments := Some(more[1]), searches := Some(more[2])))
          else Ok(base)
  }

  /** `CallBlockerLine(raw_line)` */
  function ParseLine(raw: string): Result<CallBlockerLine, PyError>
  {
    ParseParams(LineParams(raw))
  }

  /** The fields every shown line starts with. */
  function ShownHead(l: CallBlockerLine): string
  {
    "date:" + l.date + " time:" + l.time + " rate:" + l.rate + " caller:" + l.caller + " name:" + l.name
  }

  /** `__str__`: date, time, rate, caller and name, then the score for the
      wemgehoert method, and score, comments and searches for the tellows
      and cascade methods. */
  function ShowLine(l: CallBlockerLine): (r: string)
    ensures ShownHead(l) <= r
    ensures Extra(l.tag) == 0 ==> r == ShownHead(l)
    ensures Extra(l.tag) == 1 ==> r == ShownHead(l) + " score:" + CM.Repr(l.score)
    ensures Extra(l.tag) == 3 ==>
              r == ShownHead(l) + " score:" + CM.Repr(l.score) + " comments:" + CM.Repr(l.comments)
                   + " searches:" + CM.Repr(l.searches)
  {
    var start := ShownHead(l);
    if l.tag == CI.WEMGEHOERT_SCORE then start + " score:" + CM.Repr(l.score)
    else if l.tag == CI.TELLOWS_SCORE || l.tag == CI.CASCADE then
      start + " score:" + CM.Repr(l.score) + " comments:" + CM.Repr(l.comments) + " searches:" + CM.Repr(l.searches)
    else start
  }

  // ---------------------------------------------------------------- the emitted lines

  /** `{ci.score}` and the like: an int as `str` prints it, None as "None". */
  function ReprInt(o: Option<int>): string
  {
    if o.Some? then IntToString(o.value) else "None"
  }

  /** A decision line: its fields joined by ';', then a newline.  Each
      f-string the blocker writes ends in ';', so its last field is empty. */
  function LineOf(fields: seq<string>): string
  {
    Join(fields, ';') + "\n"
  }

  function Quoted(name: string): string
  {
    "\"" + name + "\""
  }

  /** `{dt};PASS;0;;ANON;`: the decision line for a call without a number. */
  function AnonLine(dt: string): string
  {
    LineOf([dt, PASS, UNRATED, "", ANON, ""])
  }

  /** `{dt};{rate};0;{full_number};"{name}";`: the decision line for a
      number found in the white- or blacklist. */
  function ListedLine(dt: string, rate: string, fullNumber: string, name: string): string
  {
    LineOf([dt, rate, UNRATED, fullNumber, Quoted(name), ""])
  }

  /** `{dt};{rate};1;{full_number};{score_str}` with `score_str` the quoted
      name, score, comments and searches, each ended by ';': the decision
      line for a rated number. */
  function ScoredLine(dt: string, rate: string, fullNumber: string, i: CI.Info): string
  {
    LineOf([dt, rate, RATED, fullNumber, Quoted(i.name), ReprInt(i.score), ReprInt(i.comments), CM.Repr(i.searches), ""])
  }

  /** A datetime as the call monitor passes it on: it does not start with
      whitespace, holds no ';' and splits at its spaces into a date and a time. */
  predicate GoodDateTime(dt: string)
  {
    dt != [] && !IsSpace(dt[0]) && ';' !in dt && |Split(dt, ' ')| == 2
  }

  /** A name that survives the quoting of a decision line. */
  predicate GoodName(name: string)
  {
    ';' !in name && IsStripped(name, IsQuote)
  }

  lemma IntToStringNoSemicolon(n: int)
    ensures ';' !in IntToString(n)
  {
    var d := NatToString(if n < 0 then -n else n);
    assert forall k :: 0 <= k < |d| ==> d[k] != ';';
    if n < 0 {
      assert IntToString(n) == "-" + d;
    }
  }

  lemma QuotedNoSemicolon(name: string)
    requires ';' !in name
    ensures ';' !in Quoted(name)
  {
    assert forall k :: 0 <= k < |Quoted(name)| ==> Quoted(name)[k] == '"' || Quoted(name)[k] in name;
  }

  /** Stripping the quotes around a name gives the name. */
  lemma UnquoteName(name: string)
    requires IsStripped(name, IsQuote)
    ensures StripChars(Quoted(name), IsQuote) == name
  {
    var q := Quoted(name);
    var tail := name + "\"";
    assert q[1..] == tail;
    if name == [] {
      assert TrimLeft(tail, IsQuote) == [];
    } else {
      assert tail[0] == name[0];
      assert TrimLeft(tail, IsQuote) == tail;
      assert tail[..|tail| - 1] == name;
      assert TrimRight(tail, IsQuote) == TrimRight(name, IsQuote);
    }
  }

  /** A line joined from separator-free fields, the first not starting with
      whitespace and the last empty, splits back into the fields. */
  lemma ParamsOfFields(fields: seq<string>)
    requires 2 <= |fields| <= 9 && forall i :: 0 <= i < |fields| ==> ';' !in fields[i]
    requires fields[0] != [] && !IsSpace(fields[0][0]) && fields[|fields| - 1] == ""
    ensures LineParams(LineOf(fields)) == fields
  {
    var j := Join(fields, ';');
    JoinFirst(fields, ';');
    JoinLast(fields, ';');
    assert !IsSpace(j[0]) && j[|j| - 1] == ';';
    StripNewline(j);
    SplitOfJoin(fields, ';', 8);
  }

  /** The method fields the blocker writes parse as integers. */
  lemma MethodFields()
    ensures ParseInt(UNRATED) == Some(0) && ParseInt(RATED) == Some(1)
  {
    assert IntToString(0) == UNRATED;
    assert IntToString(1) == RATED;
    ParseIntOfIntToString(0);
    ParseIntOfIntToString(1);
  }

  /** Fields with a well-formed datetime and method, and enough of them for
      the method, parse into the line those fields describe. */
  lemma ParseFields(fields: seq<string>, tag: int)
    requires |fields| >= 5 && |Split(fields[0], ' ')| == 2 && ParseInt(fields[2]) == Some(tag)
    requires |fields| >= 5 + Extra(tag)
    ensures ParseParams(fields) ==
              Ok(CallBlockerLine(fields[0], Split(fields[0], ' ')[0], Split(fields[0], ' ')[1], fields[1], tag,
                                 fields[3], StripChars(fields[4], IsQuote),
                                 if Extra(tag) >= 1 then Some(fields[5]) else None,
                                 if Extra(tag) == 3 then Some(fields[6]) else None,
                                 if Extra(tag) == 3 then Some(fields[7]) else None))
  {
  }

  /** What the blocker's lines have in common: separator-free fields, a
      well-formed datetime first and an empty field last. */
  predicate Writable(fields: seq<string>)
  {
    && 2 <= |fields| <= 9 && (forall i :: 0 <= i < |fields| ==> ';' !in fields[i])
    && GoodDateTime(fields[0]) && fields[|fields| - 1] == ""
  }

  /** A six-field line with method 0 parses to its datetime, rate, caller
      and unquoted name, and nothing more. */
  lemma ParsePlainFields(fields: seq<string>)
    requires Writable(fields) && |fields| == 6 && fields[2] == UNRATED
    ensures ParseLine(LineOf(fields)) ==
              Ok(CallBlockerLine(fields[0], Split(fields[0], ' ')[0], Split(fields[0], ' ')[1], fields[1], 0,
                                 fields[3], StripChars(fields[4], IsQuote), None, None, None))
  {
    assert LineParams(LineOf(fields)) == fields by { ParamsOfFields(fields); }
    assert ParseInt(fields[2]) == Some(0) by { MethodFields(); }
    ParseFields(fields, 0);
  }

  /** A nine-field line with method 1 parses to its datetime, rate, caller
      and unquoted name, with score, comments and searches. */
  lemma ParseRatedFields(fields: seq<string>)
    requires Writable(fields) && |fields| == 9 && fields[2] == RATED
    ensures ParseLine(LineOf(fields)) ==
              Ok(CallBlockerLine(fields[0], Split(fields[0], ' ')[0], Split(fields[0], ' ')[1], fields[1], 1,
                                 fields[3], StripChars(fields[4], IsQuote), Some(fields[5]), Some(fields[6]), Some(fields[7])))
  {
    assert LineParams(LineOf(fields)) == fields by { ParamsOfFields(fields); }
    assert ParseInt(fields[2]) == Some(1) by { MethodFields(); }
    ParseFields(fields, 1);
  }

  /** The line for a call without a number parses back: rate PASS, method
      0, no caller, the name "ANON", nothing more. */
  lemma ParseAnonLine(dt: string)
    requires GoodDateTime(dt)
    ensures ParseLine(AnonLine(dt)) ==
              Ok(CallBlockerLine(dt, Split(dt, ' ')[0], Split(dt, ' ')[1], PASS, 0, "", ANON, None, None, None))
  {
    StripCharsOfStripped(ANON, IsQuote);
    ParsePlainLine(dt, PASS, "", ANON);
  }

  /** An unrated line parses back to its datetime, rate, number and
      unquoted name. */
  lemma ParsePlainLine(dt: string, rate: string, fullNumber: string, quoted: string)
    requires GoodDateTime(dt) && ';' !in rate && ';' !in fullNumber && ';' !in quoted
    ensures ParseLine(LineOf([dt, rate, UNRATED, fullNumber, quoted, ""])) ==
              Ok(CallBlockerLine(dt, Split(dt, ' ')[0], Split(dt, ' ')[1], rate, 0, fullNumber,
                                 StripChars(quoted, IsQuote), None, None, None))
  {
    PlainWritable(dt, rate, fullNumber, quoted);
    ParsePlainFields([dt, rate, UNRATED, fullNumber, quoted, ""]);
  }

  /** The line for a listed number parses back to its rate, number and
      name, with method 0. */
  lemma ParseListedLine(dt: string, rate: string, fullNumber: string, name: string)
    requires GoodDateTime(dt) && ';' !in rate && ';' !in fullNumber && GoodName(name)
    ensures ParseLine(ListedLine(dt, rate, fullNumber, name)) ==
              Ok(CallBlockerLine(dt, Split(dt, ' ')[0], Split(dt, ' ')[1], rate, 0, fullNumber, name, None, None, None))
  {
    QuotedNoSemicolon(name);
    UnquoteName(name);
    ParsePlainLine(dt, rate, fullNumber, Quoted(name));
  }

  /** The line for a rated number parses back to its rate, number and name,
      with method 1 and the score, comments and searches as printed. */
  lemma ParseScoredLine(dt: string, rate: string, fullNumber: string, i: CI.Info)
    requires GoodDateTime(dt) && ';' !in rate && ';' !in fullNumber && GoodName(i.name)
    requires i.searches.Some? ==> ';' !in i.searches.value
    ensures ParseLine(ScoredLine(dt, rate, fullNumber, i)) ==
              Ok(CallBlockerLine(dt, Split(dt, ' ')[0], Split(dt, ' ')[1], rate, 1, fullNumber, i.name,
                                 Some(ReprInt(i.score)), Some(ReprInt(i.comments)), Some(CM.Repr(i.searches))))
  {
    var fields := [dt, rate, RATED, fullNumber, Quoted(i.name), ReprInt(i.score), ReprInt(i.comments), CM.Repr(i.searches), ""];
    assert Writable(fields) by {
      if i.score.Some? {
        IntToStringNoSemicolon(i.score.value);
      }
      if i.comments.Some? {
        IntToStringNoSemicolon(i.comments.value);
      }
      QuotedNoSemicolon(i.name);
      RatedWritable(dt, rate, fullNumber, Quoted(i.name), ReprInt(i.score), ReprInt(i.comments), CM.Repr(i.searches));
    }
    assert StripChars(Quoted(i.name), IsQuote) == i.name by { UnquoteName(i.name); }
    ParseRatedFields(fields);
  }

  /** A rated line, once written and read back, shows the caller's score,
      comments and searches as written, and the score shown reads back as the
      score the lookup found. */
  lemma ShowScoredLine(dt: string, rate: string, fullNumber: string, i: CI.Info)
    requires GoodDateTime(dt) && ';' !in rate && ';' !in fullNumber && GoodName(i.name)
    requires i.searches.Some? ==> ';' !in i.searches.value
    requires i.score.Some?
    ensures ParseLine(ScoredLine(dt, rate, fullNumber, i)).Ok?
    ensures var l := ParseLine(ScoredLine(dt, rate, fullNumber, i)).value;
            && ShowLine(l) == ShownHead(l) + " score:" + IntToString(i.score.value)
                              + " comments:" + ReprInt(i.comments) + " searches:" + CM.Repr(i.searches)
            && l.score.Some? && ParseInt(l.score.value) == i.score
  {
    ParseScoredLine(dt, rate, fullNumber, i);
    ParseIntOfIntToString(i.score.value);
  }

  lemma PlainWritable(dt: string, rate: string, fullNumber: string, quoted: string)
    requires GoodDateTime(dt) && ';' !in rate && ';' !in fullNumber && ';' !in quoted
    ensures Writable([dt, rate, UNRATED, fullNumber, quoted, ""])
  {
    var fields := [dt, rate, UNRATED, fullNumber, quoted, ""];
    forall k | 0 <= k < |fields| ensures ';' !in fields[k] {
      if k == 2 || k == 5 {
        assert fields[k] == UNRATED || fields[k] == "";
      }
    }
  }

  lemma RatedWritable(dt: string, rate: string, fullNumber: string, quoted: string, score: string, comments: string, searches: string)
    requires GoodDateTime(dt) && ';' !in rate && ';' !in fullNumber && ';' !in quoted
    requires ';' !in score && ';' !in comments && ';' !in searches
    ensures Writable([dt, rate, RATED, fullNumber, quoted, score, comments, searches, ""])
  {
    var fields := [dt, rate, RATED, fullNumber, quoted, score, comments, searches, ""];
    forall k | 0 <= k < |fields| ensures ';' !in fields[k] {
      if k == 2 || k == 8 {
        assert fields[k] == RATED || fields[k] == "";
      }
    }
  }

  // ---------------------------------------------------------------- anonymize

  const ANONYMIZED := "\"Anonymized\""

  /** The fields of a line with the number masked and the name replaced. */
  function AnonymizedParams(params: seq<string>): (r: seq<string>)
    requires |params| >= 5
    ensures |r| == |params| && r[3] == AnonymizeNumber(params[3]) && r[4] == ANONYMIZED
    ensures forall i :: 0 <= i < |params| && i != 3 && i != 4 ==> r[i] == params[i]
  {
    params[3 := AnonymizeNumber(params[3])][4 := ANONYMIZED]
  }

  /** `CallBlockerLine.anonymize`: split the stripped line at every ';',
      mask field 3, overwrite field 4 (IndexError when either is missing),
      and join again with one newline. */
  function AnonymizedLine(raw: string): (r: Result<string, PyError>)
    ensures r.Err? <==> |Split(Strip(raw), ';')| < 5
    ensures r.Err? ==> r.error == IndexError
  {
    var params := Split(Strip(raw), ';');
    if |params| < 5 then Err(IndexError) else Ok(Join(AnonymizedParams(params), ';') + "\n")
  }

  method Anonymize(rawLine: string) returns (r: Result<string, PyError>)
    ensures r == AnonymizedLine(rawLine)
  {
    var params := Split(Strip(rawLine), ';');
    if |params| < 4 {
      return Err(IndexError);
    }
    params := params[3 := AnonymizeNumber(params[3])];
    if |params| < 5 {
      return Err(IndexError);
    }
    params := params[4 := ANONYMIZED];
    return Ok(Join(params, ';') + "\n");
  }

  /** Replacing inner fields keeps the join stripped. */
  lemma AnonymizedStripped(params: seq<string>)
    requires |params| >= 5 && IsStripped(Join(params, ';'), IsSpace)
    ensures IsStripped(Join(AnonymizedParams(params), ';'), IsSpace)
  {
    var q := AnonymizedParams(params);
    AnonymizedQuoted();
    assert q[|q| - 1] == params[|params| - 1] || q[|q| - 1] == ANONYMIZED;
    JoinStripped(params, q, ';');
  }

  lemma AnonymizedQuoted()
    ensures ANONYMIZED != [] && ANONYMIZED[|ANONYMIZED| - 1] == '"' && !IsSpace('"')
  {
  }

  /** Anonymizing changes field 3 to its masked form and field 4 to
      "Anonymized", and leaves the count and every other field alone. */
  lemma AnonymizeFields(raw: string)
    requires AnonymizedLine(raw).Ok?
    ensures var p, q := Split(Strip(raw), ';'), Split(Strip(AnonymizedLine(raw).value), ';');
            && |q| == |p| && q[3] == AnonymizeNumber(p[3]) && q[4] == ANONYMIZED
            && forall i :: 0 <= i < |p| && i != 3 && i != 4 ==> q[i] == p[i]
  {
    AnonymizedSplit(raw);
  }

  /** The fields of an anonymized line are the anonymized fields. */
  lemma AnonymizedSplit(raw: string)
    requires AnonymizedLine(raw).Ok?
    ensures Split(Strip(AnonymizedLine(raw).value), ';') == AnonymizedParams(Split(Strip(raw), ';'))
  {
    var s := Strip(raw);
    var p := Split(s, ';');
    var a := AnonymizedParams(p);
    assert IsStripped(Join(a, ';'), IsSpace) by {
      StripCharsResult(raw, IsSpace);
      JoinOfSplitMax(s, ';', |s|);
      AnonymizedStripped(p);
    }
    StripNewline(Join(a, ';'));
    assert forall i :: 0 <= i < |a| ==> ';' !in a[i] by {
      SplitParts(s, ';');
      AnonymizedNoSeparator(p);
    }
    SplitOfJoinAll(a, ';');
  }

  lemma AnonymizedNoSeparator(p: seq<string>)
    requires |p| >= 5 && forall i :: 0 <= i < |p| ==> ';' !in p[i]
    ensures forall i :: 0 <= i < |p| ==> ';' !in AnonymizedParams(p)[i]
  {
    var a := AnonymizedParams(p);
    AnonymizeNumberShape(p[3], ';');
    AnonymizedQuoted();
    assert ';' !in ANONYMIZED;
  }

  /** Anonymizing an anonymized line changes nothing more. */
  lemma AnonymizeIdempotent(raw: string)
    requires AnonymizedLine(raw).Ok?
    ensures AnonymizedLine(AnonymizedLine(raw).value) == AnonymizedLine(raw)
  {
    var p := Split(Strip(raw), ';');
    var out := AnonymizedLine(raw).value;
    AnonymizeFields(raw);
    var q := Split(Strip(out), ';');
    AnonymizeNumberIdempotent(p[3]);
    assert AnonymizedParams(q) == AnonymizedParams(p);
  }

  // ---------------------------------------------------------------- the decision

  /** What the router answers while one event is examined: its phone books
      (read by the hourly reload and by `add_contact`), its phone books as a
      reload after a block-list write reads them, and whether it answered
      that write with an empty (successful) reply. */
  datatype Router = Router(books: map<int, seq<Contact>>, booksAfterWrite: map<int, seq<Contact>>, writeAccepted: bool)

  /** What the reputation cascade of `CallInfo` is given: the reverse-search
      page, its decoder, and the score service's response. */
  datatype Reputation = Reputation(page: Fetch<string>, decode: string -> Result<CI.Generic, PyError>, response: Fetch<TellowsRecord>)

  /** The fields of a `CallBlocker` that change, and the lines handed to
      its logger. */
  datatype State = State(whitelist: map<string, string>, blacklist: map<string, string>, listAge: real, log: seq<string>)

  /** An `add_contact` call: the entry it asks for, and whether it sent the
      request to the router.  It sends nothing when the number is already in
      the block book, or when the book cannot be read. */
  datatype AddCall = AddCall(entry: Request, sent: bool)

  /** What one call-monitor line leads to: the decision line emitted, the
      `add_contact` call made, and the exception raised, if any. */
  datatype Outcome = Outcome(line: Option<string>, added: Option<AddCall>, error: Option<PyError>)

  /** Seconds after which the lists are read again. */
  const RELOAD_AGE: real := 3600.0

  /** The number an event is about: the caller of a RING, the callee of a
      CALL; a missing number reads as "" (both are falsy). */
  function NumberOf(l: CM.CallMonitorLine): string
  {
    var n := if l.kind == "RING" then l.caller else l.callee;
    if n.Some? then n.value else ""
  }

  /** `full_number`: a number without a leading '0' is in the own area. */
  function FullNumber(number: string, areaCode: string): string
  {
    if "0" <= number then number else areaCode + number
  }

  /** `is_abroad`: an international number with another country code. */
  predicate IsAbroad(number: string, countryCode: string)
  {
    "00" <= number && !(countryCode <= number)
  }

  /** `get_name_for_number_in_dict(number, list, area_code=...)`, which is
      not given the country code. */
  function ListName(list: map<string, string>, number: string, areaCode: string): Option<string>
  {
    FirstHit(list, PB.Candidates(number, areaCode, ""))
  }

  /** Python truthiness of a name that may be None. */
  predicate Truthy(name: Option<string>)
  {
    name.Some? && name.value != ""
  }

  /** The head of the message raised for a number on both lists. */
  const BOTH_LISTS := "Problem in your phonebooks detected: a number should not be on white- and blacklist. Please fix! Details: "

  function BothListsMessage(white: string, black: string): string
  {
    BOTH_LISTS + "whitelist:" + white + " blacklist:" + black
  }

  /** The reputation record has every field the decision line prints:
      `CallInfo` assigns score, comments and searches only when a score
      lookup succeeds, and printing an unassigned one raises AttributeError. */
  predicate Scored(ci: CI.Info)
  {
    ci.score.Some? && ci.comments.Some? && ci.searches.Some?
  }

  /** The reputation record with an unknown name replaced by the prefix label. */
  function Named(ci: CI.Info, prefixName: string): (r: CI.Info)
    ensures ci.name == CI.UNKNOWN_NAME ==> r == ci.(name := prefixName)
    ensures ci.name != CI.UNKNOWN_NAME ==> r == ci
  {
    if ci.name == CI.UNKNOWN_NAME then ci.(name := prefixName) else ci
  }

  class CallBlocker {
    const whitelistPbIds: seq<int>
    const blacklistPbIds: seq<int>
    const blocklistPbId: int
    const blocknamePrefix: string
    const minScore: int
    const minComments: int
    const blockAbroad: bool
    const blockIllegalPrefix: bool
    /** Whether a logger was given. */
    const logging: bool
    /** The prefix table and the own area and country codes of `self.cp`. */
    const prefixTable: map<string, CP.PrefixEntry>
    const areaCode: string
    const countryCode: string

    var whitelist: map<string, string>
    var blacklist: map<string, string>
    var listAge: real
    var log: seq<string>

    function Snapshot(): State
      reads this
    {
      State(whitelist, blacklist, listAge, log)
    }

    /** The fields the source assigns before it reads the phone books; the
        lists start empty until `NewCallBlocker` reloads them. */
    constructor (whitelistPbIds: seq<int>, blacklistPbIds: seq<int>, blocklistPbId: int, blocknamePrefix: string,
                 minScore: int, minComments: int, blockAbroad: bool, blockIllegalPrefix: bool, logging: bool,
                 prefixTable: map<string, CP.PrefixEntry>, areaCode: string, countryCode: string)
      ensures this.whitelistPbIds == whitelistPbIds && this.blacklistPbIds == blacklistPbIds
      ensures this.blocklistPbId == blocklistPbId && this.blocknamePrefix == blocknamePrefix
      ensures this.minScore == minScore && this.minComments == minComments
      ensures this.blockAbroad == blockAbroad && this.blockIllegalPrefix == blockIllegalPrefix && this.logging == logging
      ensures this.prefixTable == prefixTable && this.areaCode == areaCode && this.countryCode == countryCode
      ensures Snapshot() == State(map[], map[], 0.0, [])
    {
      this.whitelistPbIds := whitelistPbIds;
      this.blacklistPbIds := blacklistPbIds;
      this.blocklistPbId := blocklistPbId;
      this.blocknamePrefix := blocknamePrefix;
      this.minScore := minScore;
      this.minComments := minComments;
      this.blockAbroad := blockAbroad;
      this.blockIllegalPrefix := blockIllegalPrefix;
      this.logging := logging;
      this.prefixTable := prefixTable;
      this.areaCode := areaCode;
      this.countryCode := countryCode;
      whitelist, blacklist, listAge, log := map[], map[], 0.0, [];
    }

    // ---------------------------------------------------------------- reload

    /** `reload_phonebooks`: the whitelist is assigned first, so a failing
        blacklist read leaves the new whitelist and the old blacklist and age. */
    function Reloaded(s: State, books: map<int, seq<Contact>>, now: real): (r: (State, Option<PyError>))
      ensures r.0.log == s.log
      ensures r.1.None? <==> PB.MergedNumbers(whitelistPbIds, books).Ok? && PB.MergedNumbers(blacklistPbIds, books).Ok?
      ensures r.1.None? ==> r.0 == s.(whitelist := PB.MergedNumbers(whitelistPbIds, books).value,
                                       blacklist := PB.MergedNumbers(blacklistPbIds, books).value, listAge := now)
      ensures r.1.Some? ==> r.0.blacklist == s.blacklist && r.0.listAge == s.listAge
    {
      var w := PB.MergedNumbers(whitelistPbIds, books);
      if w.Err? then (s, Some(w.error))
      else
        var b := PB.MergedNumbers(blacklistPbIds, books);
        if b.Err? then (s.(whitelist := w.value), Some(b.error))
        else (s.(whitelist := w.value, blacklist := b.value, listAge := now), None)
    }

    method ReloadPhonebooks(books: map<int, seq<Contact>>, now: real) returns (error: Option<PyError>)
      modifies this
      ensures (Snapshot(), error) == Reloaded(old(Snapshot()), books, now)
    {
      var w := PB.GetAllNumbersForPbIds(whitelistPbIds, books);
      if w.Err? {
        return Some(w.error);
      }
      whitelist := w.value;
      var b := PB.GetAllNumbersForPbIds(blacklistPbIds, books);
      if b.Err? {
        return Some(b.error);
      }
      blacklist := b.value;
      listAge := now;
      return None;
    }

    /** The reload at the start of an event when the lists are an hour old. */
    function Refreshed(s: State, books: map<int, seq<Contact>>, now: real): (r: (State, Option<PyError>))
      ensures r.0.log == s.log
      ensures now - s.listAge < RELOAD_AGE ==> r == (s, None)
      ensures now - s.listAge >= RELOAD_AGE ==> r == Reloaded(s, books, now)
    {
      if now - s.listAge >= RELOAD_AGE then Reloaded(s, books, now) else (s, None)
    }

    // ---------------------------------------------------------------- rating

    /** `prefix_name`: the name `get_prefix_name` gives the full number,
        replaced by FAKE_PREFIX when it is empty and the number is not
        international. */
    function PrefixLabel(number: string, fullNumber: string): (r: string)
      ensures var p := CP.GetPrefixName(prefixTable, countryCode, fullNumber);
              r == (if p == "" && !("00" <= number) then FAKE_PREFIX else p)
    {
      var p := CP.GetPrefixName(prefixTable, countryCode, fullNumber);
      if p == "" && !("00" <= number) then FAKE_PREFIX else p
    }

    /** The block predicate. */
    predicate Condemned(prefixName: string, number: string, score: int, comments: int)
    {
      || (blockIllegalPrefix && prefixName == FAKE_PREFIX)
      || (blockAbroad && IsAbroad(number, countryCode))
      || (score >= minScore && comments >= minComments)
    }

    /** Whether `add_contact(blocklist_pbid, name, full_number)` sends its
        SetPhonebookEntry request. */
    predicate WriteSent(name: string, fullNumber: string, router: Router)
    {
      && blocklistPbId in router.books
      && PB.AddContactResult(router.books[blocklistPbId], blocklistPbId, name, fullNumber, true)
         == Ok(Some(SetPhonebookEntry(blocklistPbId, name, fullNumber)))
    }

    /** `add_contact(blocklist_pbid, name, full_number)` and what follows:
        an empty result (the number was already in the book, or the router
        accepted the write) reloads the lists; an error reply does not; a
        failure inside `add_contact` propagates. */
    function BlockWrite(s: State, name: string, fullNumber: string, router: Router, now: real): (r: (State, Option<PyError>))
      ensures r.0.log == s.log
      ensures r.0 != s ==> blocklistPbId in router.books &&
                           var added := PB.AddContactResult(router.books[blocklistPbId], blocklistPbId, name, fullNumber, true);
                           added.Ok? && (added.value.None? || router.writeAccepted)
      ensures blocklistPbId !in router.books ==> r == (s, Some(VendorError))
      ensures blocklistPbId in router.books ==>
                var added := PB.AddContactResult(router.books[blocklistPbId], blocklistPbId, name, fullNumber, true);
                && (added.Err? ==> r == (s, Some(added.error)))
                && (added.Ok? && added.value.Some? && !router.writeAccepted ==> r == (s, None))
                && (added.Ok? && (added.value.None? || router.writeAccepted) ==> r == Reloaded(s, router.booksAfterWrite, now))
    {
      if blocklistPbId !in router.books then (s, Some(VendorError))
      else
        var added := PB.AddContactResult(router.books[blocklistPbId], blocklistPbId, name, fullNumber, true);
        if added.Err? then (s, Some(added.error))
        else if added.value.Some? && !router.writeAccepted then (s, None)
        else Reloaded(s, router.booksAfterWrite, now)
    }

    /** Rating a number found in neither list, once the cascade has filled
        `ci`: block a RING whose number the predicate condemns, pass the
        rest, and write the rated line. */
    function Rated(s: State, ring: bool, dt: string, number: string, fullNumber: string, ci: CI.Info, router: Router, now: real): (r: (State, Outcome))
      ensures r.0.log == s.log
      ensures !Scored(ci) ==> r == (s, Outcome(None, None, Some(AttributeError)))
      ensures Scored(ci) ==>
              var prefixName := PrefixLabel(number, fullNumber);
              var named := Named(ci, prefixName);
              var block := ring && Condemned(prefixName, number, ci.score.value, ci.comments.value);
              && (r.1.added.Some? <==> block)
              && (block ==> r.1.added == Some(AddCall(SetPhonebookEntry(blocklistPbId, blocknamePrefix + named.name, fullNumber),
                                                      WriteSent(blocknamePrefix + named.name, fullNumber, router))))
              && (block && r.1.error.None? ==> r.1.line == Some(ScoredLine(dt, BLOCK, fullNumber, named)))
              && (block && r.1.error.Some? ==> r.1.line.None?)
              && (!block ==> r == (s, Outcome(Some(ScoredLine(dt, PASS, fullNumber, named)), None, None)))
    {
      if !Scored(ci) then (s, Outcome(None, None, Some(AttributeError)))
      else
        var prefixName := PrefixLabel(number, fullNumber);
        var named := Named(ci, prefixName);
        if ring && Condemned(prefixName, number, ci.score.value, ci.comments.value) then
          var name := blocknamePrefix + named.name;
          var (s2, e) := BlockWrite(s, name, fullNumber, router, now);
          var added := Some(AddCall(SetPhonebookEntry(blocklistPbId, name, fullNumber), WriteSent(name, fullNumber, router)));
          if e.Some? then (s2, Outcome(None, added, e))
          else (s2, Outcome(Some(ScoredLine(dt, BLOCK, fullNumber, named)), added, None))
        else (s, Outcome(Some(ScoredLine(dt, PASS, fullNumber, named)), None, None))
    }

    /** A RING or CALL event with a number: both lists naming it raises, one
        list naming it writes a listed line, otherwise the number is rated. */
    function Classified(s: State, ring: bool, dt: string, number: string, router: Router, rep: Reputation, now: real): (r: (State, Outcome))
      ensures r.0.log == s.log
      ensures r.0 != s ==> r.1.added.Some?
    {
      var fullNumber := FullNumber(number, areaCode);
      var white := ListName(s.whitelist, number, areaCode);
      var black := ListName(s.blacklist, number, areaCode);
      if Truthy(white) && Truthy(black) then
        (s, Outcome(None, None, Some(Raised(BothListsMessage(white.value, black.value)))))
      else if Truthy(black) then (s, Outcome(Some(ListedLine(dt, BLACKLIST, fullNumber, black.value)), None, None))
      else if Truthy(white) then (s, Outcome(Some(ListedLine(dt, WHITELIST, fullNumber, white.value)), None, None))
      else Unlisted(s, ring, dt, number, fullNumber, router, rep, now)
    }

    /** A number in neither list: the reputation cascade, then the rating. */
    function Unlisted(s: State, ring: bool, dt: string, number: string, fullNumber: string, router: Router, rep: Reputation, now: real): (r: (State, Outcome))
      ensures r.0.log == s.log
      ensures r.0 != s ==> r.1.added.Some?
    {
      var (ci, e) := CI.Cascade(CI.Initial(fullNumber, None, None), rep.page, rep.decode, rep.response);
      if e.Some? then (s, Outcome(None, None, e))
      else Rated(s, ring, dt, number, fullNumber, ci, router, now)
    }

    /** The decision for one line, before it is re-parsed and logged. */
    function Decided(s: State, raw: string, now: real, router: Router, rep: Reputation): (r: (State, Outcome))
      ensures r.0.log == s.log
    {
      var (s1, e1) := Refreshed(s, router.books, now);
      if e1.Some? then (s1, Outcome(None, None, e1))
      else Handled(s1, raw, now, router, rep)
    }

    /** The call-monitor line parsed; RING and CALL events are examined, an
        event without a number is passed as anonymous. */
    function Handled(s: State, raw: string, now: real, router: Router, rep: Reputation): (r: (State, Outcome))
      ensures r.0.log == s.log
      ensures r.0 != s ==> r.1.added.Some?
    {
      var cm := CM.Parse(raw);
      if cm.Err? then (s, Outcome(None, None, Some(cm.error)))
      else
        var l := cm.value;
        if l.kind != "RING" && l.kind != "CALL" then (s, Outcome(None, None, None))
        else
          var number := NumberOf(l);
          if number == "" then (s, Outcome(Some(AnonLine(l.datetime)), None, None))
          else Classified(s, l.kind == "RING", l.datetime, number, router, rep, now)
    }

    /** `CallBlockerLine(raw_line)` on the decision line, then the logger. */
    function Emitted(s: State, out: Outcome): (r: (State, Outcome))
      ensures r.1.line.Some? ==> ParseLine(r.1.line.value).Ok?
      ensures r.0.log == (if logging && r.1.line.Some? then s.log + [r.1.line.value] else s.log)
      ensures r.0 == s.(log := r.0.log) && r.1.added == out.added
      ensures out.line.Some? && ParseLine(out.line.value).Ok? ==> r.1 == out
    {
      if out.line.None? then (s, out)
      else
        var parsed := ParseLine(out.line.value);
        if parsed.Err? then (s, Outcome(None, out.added, Some(parsed.error)))
        else if logging then (s.(log := s.log + [out.line.value]), out)
        else (s, out)
    }

    /** `parse_and_examine_line` */
    function Examined(s: State, raw: string, now: real, router: Router, rep: Reputation): (r: (State, Outcome))
    {
      var (s1, out) := Decided(s, raw, now, router, rep);
      Emitted(s1, out)
    }

    // ---------------------------------------------------------------- the methods

    /** `parse_and_examine_line` */
    method ParseAndExamineLine(rawLine: string, now: real, router: Router, rep: Reputation) returns (out: Outcome)
      modifies this
      ensures (Snapshot(), out) == Examined(old(Snapshot()), rawLine, now, router, rep)
    {
      var decided := Decide(rawLine, now, router, rep);
      out := LogLine(decided);
    }

    method Decide(rawLine: string, now: real, router: Router, rep: Reputation) returns (out: Outcome)
      modifies this
      ensures (Snapshot(), out) == Decided(old(Snapshot()), rawLine, now, router, rep)
    {
      if now - listAge >= RELOAD_AGE {
        var e := ReloadPhonebooks(router.books, now);
        if e.Some? {
          return Outcome(None, None, e);
        }
      }
      out := Handle(rawLine, now, router, rep);
    }

    method Handle(rawLine: string, now: real, router: Router, rep: Reputation) returns (out: Outcome)
      modifies this
      ensures (Snapshot(), out) == Handled(old(Snapshot()), rawLine, now, router, rep)
    {
      var cmLine := CM.Parse(rawLine);
      if cmLine.Err? {
        return Outcome(None, None, Some(cmLine.error));
      }
      var l := cmLine.value;
      if l.kind != "RING" && l.kind != "CALL" {
        return Outcome(None, None, None);
      }
      var number := if l.kind == "RING" then l.caller else l.callee;
      if number.None? || number.value == "" {
        return Outcome(Some(AnonLine(l.datetime)), None, None);
      }
      out := ExamineNumber(l.kind == "RING", l.datetime, number.value, router, rep, now);
    }

    method ExamineNumber(ring: bool, dt: string, number: string, router: Router, rep: Reputation, now: real) returns (out: Outcome)
      modifies this
      ensures (Snapshot(), out) == Classified(old(Snapshot()), ring, dt, number, router, rep, now)
    {
      ghost var s := Snapshot();
      var fullNumber := if "0" <= number then number else areaCode + number;
      var nameWhite := PB.GetNameForNumberInDict(number, whitelist, areaCode, "");
      var nameBlack := PB.GetNameForNumberInDict(number, blacklist, areaCode, "");
      assert nameWhite == ListName(s.whitelist, number, areaCode) && nameBlack == ListName(s.blacklist, number, areaCode);
      if Truthy(nameWhite) && Truthy(nameBlack) {
        return Outcome(None, None, Some(Raised(BothListsMessage(nameWhite.value, nameBlack.value))));
      }
      if Truthy(nameBlack) {
        return Outcome(Some(ListedLine(dt, BLACKLIST, fullNumber, nameBlack.value)), None, None);
      }
      if Truthy(nameWhite) {
        return Outcome(Some(ListedLine(dt, WHITELIST, fullNumber, nameWhite.value)), None, None);
      }
      assert Classified(s, ring, dt, number, router, rep, now) == Unlisted(s, ring, dt, number, fullNumber, router, rep, now);
      out := ExamineUnlisted(ring, dt, number, fullNumber, router, rep, now);
    }

    method ExamineUnlisted(ring: bool, dt: string, number: string, fullNumber: string, router: Router, rep: Reputation, now: real)
      returns (out: Outcome)
      modifies this
      ensures (Snapshot(), out) == Unlisted(old(Snapshot()), ring, dt, number, fullNumber, router, rep, now)
    {
      var ci := new CI.CallInfo(fullNumber, None, None);
      var e := ci.GetCascadeScore(rep.page, rep.decode, rep.response);
      if e.Some? {
        return Outcome(None, None, e);
      }
      out := RateNumber(ring, dt, number, fullNumber, ci, router, now);
    }

    method RateNumber(ring: bool, dt: string, number: string, fullNumber: string, ci: CI.CallInfo, router: Router, now: real)
      returns (out: Outcome)
      modifies this, ci
      ensures (Snapshot(), out) == Rated(old(Snapshot()), ring, dt, number, fullNumber, old(ci.Snapshot()), router, now)
    {
      var prefixName := CP.GetPrefixName(prefixTable, countryCode, fullNumber);
      if prefixName == "" && !("00" <= number) {
        prefixName := FAKE_PREFIX;
      }
      if ci.name == CI.UNKNOWN_NAME {
        ci.name := prefixName;
      }
      if ci.score.None? || ci.comments.None? || ci.searches.None? {
        return Outcome(None, None, Some(AttributeError));
      }
      var info := ci.Snapshot();
      var rate := PASS;
      var added := None;
      if Condemned(prefixName, number, ci.score.value, ci.comments.value) {
        var name := blocknamePrefix + ci.name;
        if ring {
          var sent, e := BlockNumber(name, fullNumber, router, now);
          added := Some(AddCall(SetPhonebookEntry(blocklistPbId, name, fullNumber), sent));
          if e.Some? {
            return Outcome(None, added, e);
          }
          rate := BLOCK;
        }
      }
      out := Outcome(Some(ScoredLine(dt, rate, fullNumber, info)), added, None);
    }

    /** `add_contact` into the block list, then the reload it calls for. */
    method BlockNumber(name: string, fullNumber: string, router: Router, now: real) returns (sent: bool, error: Option<PyError>)
      modifies this
      ensures (Snapshot(), error) == BlockWrite(old(Snapshot()), name, fullNumber, router, now)
      ensures sent == WriteSent(name, fullNumber, router)
    {
      if blocklistPbId !in router.books {
        return false, Some(VendorError);
      }
      var result := PB.AddContact(router.books[blocklistPbId], blocklistPbId, name, fullNumber, true);
      sent := result.Ok? && result.value.Some?;
      if result.Err? {
        return sent, Some(result.error);
      }
      if result.value.Some? && !router.writeAccepted {
        return sent, None;
      }
      error := ReloadPhonebooks(router.booksAfterWrite, now);
    }

    /** `CallBlockerLine(raw_line)` and the logger. */
    method LogLine(decided: Outcome) returns (out: Outcome)
      modifies this
      ensures (Snapshot(), out) == Emitted(old(Snapshot()), decided)
    {
      if decided.line.None? {
        return decided;
      }
      var parsed := ParseLine(decided.line.value);
      if parsed.Err? {
        return Outcome(None, decided.added, Some(parsed.error));
      }
      if logging {
        log := log + [decided.line.value];
      }
      return decided;
    }
  }

  /** The list lookup decides first: a number both lists name raises with
      both names, a number one list names gets that list's rate and name
      with no reputation lookup and no write, and only a number neither
      list names is rated. */
  lemma ListedNumbers(cb: CallBlocker, s: State, ring: bool, dt: string, number: string, router: Router, rep: Reputation, now: real)
    ensures var r := cb.Classified(s, ring, dt, number, router, rep, now);
            var white, black := ListName(s.whitelist, number, cb.areaCode), ListName(s.blacklist, number, cb.areaCode);
            && (Truthy(white) && Truthy(black) ==>
                  r == (s, Outcome(None, None, Some(Raised(BothListsMessage(white.value, black.value))))))
            && (Truthy(white) != Truthy(black) ==>
                  var name := if Truthy(black) then black.value else white.value;
                  r == (s, Outcome(Some(ListedLine(dt, if Truthy(black) then BLACKLIST else WHITELIST,
                                                   FullNumber(number, cb.areaCode), name)), None, None)))
            && (!Truthy(white) && !Truthy(black) ==>
                  r == cb.Unlisted(s, ring, dt, number, FullNumber(number, cb.areaCode), router, rep, now))
  {
  }

  // ---------------------------------------------------------------- construction

  /** `CallBlocker.__init__`: every configured phone book id must exist on
      the router (the whitelist ids, the blacklist ids, then the block-list
      id), then both lists are read at `now`. */
  method NewCallBlocker(whitelistPbIds: seq<int>, blacklistPbIds: seq<int>, blocklistPbId: int, blocknamePrefix: string,
                        minScore: int, minComments: int, blockAbroad: bool, blockIllegalPrefix: bool, logging: bool,
                        prefixTable: map<string, CP.PrefixEntry>, areaCode: string, countryCode: string,
                        phonebookIds: seq<int>, books: map<int, seq<Contact>>, now: real)
    returns (r: Result<CallBlocker, PyError>)
    ensures var ids := whitelistPbIds + blacklistPbIds + [blocklistPbId];
            var white, black := PB.MergedNumbers(whitelistPbIds, books), PB.MergedNumbers(blacklistPbIds, books);
            && (r.Ok? <==> (forall i :: 0 <= i < |ids| ==> ids[i] in phonebookIds) && white.Ok? && black.Ok?)
            && (r.Ok? ==> && fresh(r.value) && r.value.Snapshot() == State(white.value, black.value, now, [])
                          && r.value.whitelistPbIds == whitelistPbIds && r.value.blacklistPbIds == blacklistPbIds
                          && r.value.blocklistPbId == blocklistPbId && r.value.blocknamePrefix == blocknamePrefix
                          && r.value.minScore == minScore && r.value.minComments == minComments
                          && r.value.blockAbroad == blockAbroad && r.value.blockIllegalPrefix == blockIllegalPrefix
                          && r.value.logging == logging && r.value.prefixTable == prefixTable
                          && r.value.areaCode == areaCode && r.value.countryCode == countryCode)
  {
    var cb := new CallBlocker(whitelistPbIds, blacklistPbIds, blocklistPbId, blocknamePrefix, minScore, minComments,
                              blockAbroad, blockIllegalPrefix, logging, prefixTable, areaCode, countryCode);
    var invalid := PB.EnsurePbIdsValid(whitelistPbIds + blacklistPbIds + [blocklistPbId], phonebookIds);
    if invalid.Some? {
      return Err(invalid.value);
    }
    var error := cb.ReloadPhonebooks(books, now);
    if error.Some? {
      return Err(error.value);
    }
    return Ok(cb);
  }

  // ---------------------------------------------------------------- properties

  /** A local number (no leading '0') is looked up as dialled and with the
      own area code, and the second form is the full number. */
  lemma FullNumberFindsLocalEntry(number: string, areaCode: string)
    requires number != [] && number[0] != '0' && areaCode != [] && areaCode[0] == '0'
    ensures FullNumber(number, areaCode) == areaCode + number
    ensures PB.Candidates(number, areaCode, "") == [number, FullNumber(number, areaCode)]
  {
    assert !(areaCode <= number);
    assert !("0" <= number);
  }

  /** A qualified number (leading '0') is its own full number, and with an
      area code starting with '0' every full number starts with '0'. */
  lemma FullNumberQualified(number: string, areaCode: string)
    requires number != [] && (number[0] == '0' || (areaCode != [] && areaCode[0] == '0'))
    ensures var full := FullNumber(number, areaCode); full != [] && full[0] == '0'
    ensures number[0] == '0' ==> FullNumber(number, areaCode) == number
  {
    if number[0] == '0' {
      assert "0" <= number;
    } else {
      assert !("0" <= number);
    }
  }

  /** The label is FAKE_PREFIX only where the prefix table matched an entry
      with an empty name and the number is not international: the lookup's
      fallbacks "ABROAD" and "UNKNOWN" are never replaced. */
  lemma FakePrefixOnlyForEmptyName(cb: CallBlocker, number: string, fullNumber: string)
    ensures var found := CP.GetPrefixDict(cb.prefixTable, cb.countryCode, fullNumber);
            var p := CP.GetPrefixName(cb.prefixTable, cb.countryCode, fullNumber);
            && (cb.PrefixLabel(number, fullNumber) != p ==>
                  && cb.PrefixLabel(number, fullNumber) == FAKE_PREFIX
                  && found.Some? && found.value.name == "" && !("00" <= number))
            && (found.None? ==> cb.PrefixLabel(number, fullNumber) == p && p in {"ABROAD", "UNKNOWN"})
  {
  }

  /** A name list whose names all survive the quoting of a decision line. */
  predicate GoodList(list: map<string, string>)
  {
    forall k :: k in list ==> GoodName(list[k])
  }

  /** A prefix table whose names all survive the quoting of a decision line. */
  predicate GoodTable(table: map<string, CP.PrefixEntry>)
  {
    forall k :: k in table ==> GoodName(table[k].name)
  }

  /** The reputation cascade for a number leaves, when it succeeds with a
      score, a name and a search count a decision line can carry. */
  predicate CascadeNamesGood(fullNumber: string, rep: Reputation)
  {
    var (ci, e) := CI.Cascade(CI.Initial(fullNumber, None, None), rep.page, rep.decode, rep.response);
    e.None? && Scored(ci) ==> (ci.name == CI.UNKNOWN_NAME || GoodName(ci.name)) && ';' !in ci.searches.value
  }

  lemma FixedNamesGood()
    ensures GoodName("") && GoodName("ABROAD") && GoodName("UNKNOWN") && GoodName(FAKE_PREFIX)
    ensures ';' !in BLOCK && ';' !in PASS && ';' !in WHITELIST && ';' !in BLACKLIST
  {
  }

  /** A name found in a good list is a good name. */
  lemma ListNameGood(list: map<string, string>, number: string, areaCode: string)
    requires GoodList(list)
    ensures var n := ListName(list, number, areaCode); n.Some? ==> GoodName(n.value)
  {
    var cands := PB.Candidates(number, areaCode, "");
    var n := FirstHit(list, cands);
    if n.Some? {
      var i :| HitAt(list, cands, i) && n.value == list[cands[i]];
    }
  }

  /** The label of a number is a good name when the table's names are. */
  lemma PrefixLabelGood(cb: CallBlocker, number: string, fullNumber: string)
    requires GoodTable(cb.prefixTable)
    ensures GoodName(cb.PrefixLabel(number, fullNumber))
  {
    FixedNamesGood();
    var found := CP.GetPrefixDict(cb.prefixTable, cb.countryCode, fullNumber);
    if found.Some? {
      CP.LongestPrefix(cb.prefixTable, cb.countryCode, fullNumber);
      var n := CP.Normalize(cb.countryCode, fullNumber);
      var len :| 3 <= len <= 8 && Take(n, len) in cb.prefixTable && found.value == cb.prefixTable[Take(n, len)];
    }
  }

  /** A rated line re-parses to its date, rate, full number and name. */
  lemma RatedLineParses(cb: CallBlocker, s: State, ring: bool, dt: string, number: string, fullNumber: string, ci: CI.Info,
                        router: Router, now: real)
    requires GoodDateTime(dt) && ';' !in fullNumber
    requires Scored(ci) ==> ';' !in ci.searches.value && GoodName(Named(ci, cb.PrefixLabel(number, fullNumber)).name)
    ensures var r := cb.Rated(s, ring, dt, number, fullNumber, ci, router, now);
            r.1.line.Some? ==>
              var p := ParseLine(r.1.line.value);
              && p.Ok? && p.value.datetime == dt && p.value.tag == 1 && p.value.caller == fullNumber
              && p.value.name == Named(ci, cb.PrefixLabel(number, fullNumber)).name
              && p.value.rate == (if r.1.added.Some? then BLOCK else PASS)
  {
    if Scored(ci) {
      var named := Named(ci, cb.PrefixLabel(number, fullNumber));
      FixedNamesGood();
      ParseScoredLine(dt, BLOCK, fullNumber, named);
      ParseScoredLine(dt, PASS, fullNumber, named);
    }
  }

  /** A decision line for a number re-parses to its date, full number and a
      rate that says which way the number went, when the names it carries
      cannot break the line. */
  lemma ClassifiedLineParses(cb: CallBlocker, s: State, ring: bool, dt: string, number: string, router: Router,
                             rep: Reputation, now: real)
    requires GoodDateTime(dt) && ';' !in number && ';' !in cb.areaCode
    requires GoodList(s.whitelist) && GoodList(s.blacklist) && GoodTable(cb.prefixTable)
    requires CascadeNamesGood(FullNumber(number, cb.areaCode), rep)
    ensures var r := cb.Classified(s, ring, dt, number, router, rep, now);
            r.1.line.Some? ==>
              var p := ParseLine(r.1.line.value);
              && p.Ok? && p.value.datetime == dt && p.value.caller == FullNumber(number, cb.areaCode)
              && (p.value.tag == 0 <==> p.value.rate == WHITELIST || p.value.rate == BLACKLIST)
              && (p.value.rate == BLOCK <==> r.1.added.Some?)
  {
    var full := FullNumber(number, cb.areaCode);
    var white, black := ListName(s.whitelist, number, cb.areaCode), ListName(s.blacklist, number, cb.areaCode);
    ListedNumbers(cb, s, ring, dt, number, router, rep, now);
    FixedNamesGood();
    assert ';' !in full;
    if Truthy(white) != Truthy(black) {
      ListNameGood(s.whitelist, number, cb.areaCode);
      ListNameGood(s.blacklist, number, cb.areaCode);
      var name := if Truthy(black) then black.value else white.value;
      ParseListedLine(dt, if Truthy(black) then BLACKLIST else WHITELIST, full, name);
    } else if !Truthy(white) {
      var (ci, e) := CI.Cascade(CI.Initial(full, None, None), rep.page, rep.decode, rep.response);
      if e.None? {
        PrefixLabelGood(cb, number, full);
        RatedLineParses(cb, s, ring, dt, number, full, ci, router, now);
      }
    }
  }

  /** The date and time of a parsed call-monitor line and the number of a
      RING or CALL event can be written into a decision line. */
  lemma ParsedDateTime(raw: string)
    requires CM.Parse(raw).Ok?
    ensures var l := CM.Parse(raw).value;
            && GoodDateTime(l.datetime)
            && ((l.kind == "RING" || l.kind == "CALL") ==> ';' !in NumberOf(l))
  {
    ParsedDateTimeGood(raw);
    ParsedNumberClean(raw);
  }

  lemma ParsedDateTimeGood(raw: string)
    requires CM.Parse(raw).Ok?
    ensures GoodDateTime(CM.Parse(raw).value.datetime)
  {
    var params := CM.Params(raw);
    CM.ParamsShape(raw);
    JoinFirst(params, ';');
    assert CM.Parse(raw).value.datetime == params[0];
  }

  lemma ParsedNumberClean(raw: string)
    requires CM.Parse(raw).Ok?
    ensures var l := CM.Parse(raw).value;
            (l.kind == "RING" || l.kind == "CALL") ==> ';' !in NumberOf(l)
  {
    var params := CM.Params(raw);
    var l := CM.Parse(raw).value;
    CM.ParamsShape(raw);
    if l.kind == "RING" {
      assert CM.TypeOf(l.kind) == Some(CM.RING);
      CM.ParseParamsFields(params);
      assert CM.Fields(l)[3] == NumberOf(l) == params[3];
    } else if l.kind == "CALL" {
      assert CM.TypeOf(l.kind) == Some(CM.CALL);
      CM.ParseParamsFields(params);
      assert CM.Fields(l)[5] == NumberOf(l) == params[5];
    }
  }

  /** Every decision line the blocker emits re-parses, so re-parsing never
      turns a decision into an error and the logger receives exactly the
      decision line, when the lists, the prefix table and the reputation
      answers hold names a line can carry. */
  lemma DecisionLineKept(cb: CallBlocker, s: State, raw: string, now: real, router: Router, rep: Reputation)
    requires ';' !in cb.areaCode && GoodTable(cb.prefixTable)
    requires var s1 := cb.Refreshed(s, router.books, now).0; GoodList(s1.whitelist) && GoodList(s1.blacklist)
    requires forall fullNumber :: CascadeNamesGood(fullNumber, rep)
    ensures var d, r := cb.Decided(s, raw, now, router, rep), cb.Examined(s, raw, now, router, rep);
            && r.1 == d.1
            && r.0 == d.0.(log := if cb.logging && d.1.line.Some? then s.log + [d.1.line.value] else s.log)
  {
    var (s1, e1) := cb.Refreshed(s, router.books, now);
    var cm := CM.Parse(raw);
    if e1.None? && cm.Ok? {
      ParsedDateTime(raw);
      var l := cm.value;
      if l.kind == "RING" || l.kind == "CALL" {
        if NumberOf(l) == "" {
          ParseAnonLine(l.datetime);
        } else {
          ClassifiedLineParses(cb, s1, l.kind == "RING", l.datetime, NumberOf(l), router, rep, now);
        }
      }
    }
  }

  /** Events other than RING and CALL produce no line, no write and no
      logger call; at most the hourly reload happens. */
  lemma OtherEventsIgnored(cb: CallBlocker, s: State, raw: string, now: real, router: Router, rep: Reputation)
    requires CM.Parse(raw).Ok? && CM.Parse(raw).value.kind != "RING" && CM.Parse(raw).value.kind != "CALL"
    ensures var (s1, e1) := cb.Refreshed(s, router.books, now);
            cb.Examined(s, raw, now, router, rep) == (s1, Outcome(None, None, e1))
  {
  }

  /** A RING or CALL event without a number passes with the anonymous line
      and no list lookup, reputation lookup or write. */
  lemma AnonymousCallPasses(cb: CallBlocker, s: State, raw: string, now: real, router: Router, rep: Reputation)
    requires CM.Parse(raw).Ok? && NumberOf(CM.Parse(raw).value) == ""
    requires CM.Parse(raw).value.kind == "RING" || CM.Parse(raw).value.kind == "CALL"
    requires cb.Refreshed(s, router.books, now).1.None?
    ensures var s1, dt := cb.Refreshed(s, router.books, now).0, CM.Parse(raw).value.datetime;
            var line := AnonLine(dt);
            && cb.Examined(s, raw, now, router, rep) == (s1.(log := if cb.logging then s1.log + [line] else s1.log), Outcome(Some(line), None, None))
            && ParseLine(line) == Ok(CallBlockerLine(dt, Split(dt, ' ')[0], Split(dt, ' ')[1], PASS, 0, "", ANON, None, None, None))
  {
    ParsedDateTime(raw);
    ParseAnonLine(CM.Parse(raw).value.datetime);
  }

  /** The lists and their age change only through the hourly reload or
      after a block-list write. */
  lemma ListsReloadOnlyWhenStaleOrAdded(cb: CallBlocker, s: State, raw: string, now: real, router: Router, rep: Reputation)
    ensures var r := cb.Examined(s, raw, now, router, rep);
            (r.0.whitelist != s.whitelist || r.0.blacklist != s.blacklist || r.0.listAge != s.listAge) ==>
              now - s.listAge >= RELOAD_AGE || r.1.added.Some?
  {
    var (s1, e1) := cb.Refreshed(s, router.books, now);
    if now - s.listAge < RELOAD_AGE && e1.None? {
      assert s1 == s;
    }
  }

  /** A write the router answers with an error still rates the number BLOCK,
      and the lists are not reloaded. */
  lemma FailedWriteStillBlocks(cb: CallBlocker, s: State, dt: string, number: string, fullNumber: string, ci: CI.Info,
                               router: Router, now: real)
    requires Scored(ci) && cb.Condemned(cb.PrefixLabel(number, fullNumber), number, ci.score.value, ci.comments.value)
    requires cb.blocklistPbId in router.books && !router.writeAccepted
    requires var named := Named(ci, cb.PrefixLabel(number, fullNumber));
             PB.AddContactResult(router.books[cb.blocklistPbId], cb.blocklistPbId, cb.blocknamePrefix + named.name, fullNumber, true).Ok?
    requires var named := Named(ci, cb.PrefixLabel(number, fullNumber));
             PB.AddContactResult(router.books[cb.blocklistPbId], cb.blocklistPbId, cb.blocknamePrefix + named.name, fullNumber, true).value.Some?
    ensures var named := Named(ci, cb.PrefixLabel(number, fullNumber));
            var r := cb.Rated(s, true, dt, number, fullNumber, ci, router, now);
            r == (s, Outcome(Some(ScoredLine(dt, BLOCK, fullNumber, named)),
                             Some(AddCall(SetPhonebookEntry(cb.blocklistPbId, cb.blocknamePrefix + named.name, fullNumber), true)), None))
  {
  }

  /** `add_contact` sends its request exactly when the block book can be
      read and does not hold the number yet. */
  lemma WriteSentExactly(cb: CallBlocker, name: string, fullNumber: string, router: Router)
    ensures cb.WriteSent(name, fullNumber, router) <==>
              && cb.blocklistPbId in router.books
              && PB.AllNumbers(router.books[cb.blocklistPbId], false).Ok?
              && fullNumber !in PB.AllNumbers(router.books[cb.blocklistPbId], false).value
  {
  }

  /** A condemned caller already in the block book still rates BLOCK and
      reloads the lists, but `add_contact` sends no request. */
  lemma SkippedWriteStillBlocks(cb: CallBlocker, s: State, dt: string, number: string, fullNumber: string, ci: CI.Info,
                                router: Router, now: real)
    requires Scored(ci) && cb.Condemned(cb.PrefixLabel(number, fullNumber), number, ci.score.value, ci.comments.value)
    requires cb.blocklistPbId in router.books
    requires PB.AllNumbers(router.books[cb.blocklistPbId], false).Ok?
    requires fullNumber in PB.AllNumbers(router.books[cb.blocklistPbId], false).value
    ensures var named := Named(ci, cb.PrefixLabel(number, fullNumber));
            var r := cb.Rated(s, true, dt, number, fullNumber, ci, router, now);
            var reloaded := cb.Reloaded(s, router.booksAfterWrite, now);
            && r.1.added == Some(AddCall(SetPhonebookEntry(cb.blocklistPbId, cb.blocknamePrefix + named.name, fullNumber), false))
            && r.0 == reloaded.0
            && (reloaded.1.None? ==> r.1 == Outcome(Some(ScoredLine(dt, BLOCK, fullNumber, named)), r.1.added, None))
            && (reloaded.1.Some? ==> r.1 == Outcome(None, r.1.added, reloaded.1))
  {
    WriteSentExactly(cb, cb.blocknamePrefix + Named(ci, cb.PrefixLabel(number, fullNumber)).name, fullNumber, router);
  }

  /** An outgoing call is never written to the block list and changes no
      list. */
  lemma CallEventsNeverWrite(cb: CallBlocker, s: State, dt: string, number: string, router: Router, rep: Reputation, now: real)
    ensures var r := cb.Classified(s, false, dt, number, router, rep, now);
            r.1.added.None? && r.0 == s
  {
    ListedNumbers(cb, s, false, dt, number, router, rep, now);
  }
}
