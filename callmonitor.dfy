/**
 * The call-monitor line codec of a1fbox/callmonitor.py.
 *
 * The router reports each call event as one line of `;`-separated fields,
 * ended by a newline: `date time;TYPE;conn_id;...`, where what follows the
 * connection id depends on the event type.  `CallMonitorLine` parses such a
 * line into fields, prints it, and rewrites it with the last digits of its
 * phone numbers masked; `parse_from_file` feeds it the lines of a recorded
 * file.  The repository-root callmonitor.py has the same parser and printer
 * (modelled here too) and a different masking, modelled in RootCallMonitor.
 */
module A1CallMonitor {
  import opened Wrappers
  import opened PyStr
  import opened Utils

  // ---------------------------------------------------------------- event types

  /** `CallMonitorType`: the event kinds the parser knows. */
  datatype CallMonitorType = RING | CALL | CONNECT | DISCONNECT
  {
    /** The enum member's `.value`, as it appears in a line. */
    function Value(): string
    {
      match this
      case RING => "RING"
      case CALL => "CALL"
      case CONNECT => "CONNECT"
      case DISCONNECT => "DISCONNECT"
    }
  }

  /** The known type whose value is `s`, if any. */
  function TypeOf(s: string): (t: Option<CallMonitorType>)
    ensures t.Some? ==> t.value.Value() == s
  {
    if s == "RING" then Some(RING)
    else if s == "CALL" then Some(CALL)
    else if s == "CONNECT" then Some(CONNECT)
    else if s == "DISCONNECT" then Some(DISCONNECT)
    else None
  }

  /** Every type is recognised from its own value. */
  lemma TypeOfValue(t: CallMonitorType)
    ensures TypeOf(t.Value()) == Some(t)
  {
  }

  // ---------------------------------------------------------------- parsing

  /** A parsed line.  `duration` None stands for the integer 0 the
      constructor starts from; the other optional fields stay None unless the
      line's type fills them. */
  datatype CallMonitorLine = CallMonitorLine(
    datetime: string, date: string, time: string, kind: string, connId: string,
    duration: Option<string>,
    extId: Option<string>, caller: Option<string>, callee: Option<string>, device: Option<string>)

  /** How many fields after the connection id a type reads. */
  function Needed(kind: string): nat
  {
    match TypeOf(kind)
    case Some(DISCONNECT) => 1
    case Some(CONNECT) => 2
    case Some(RING) => 3
    case Some(CALL) => 4
    case None => 0
  }

  /** Exactly the fields the line's type fills are present. */
  predicate WellFormed(l: CallMonitorLine)
  {
    match TypeOf(l.kind)
    case Some(DISCONNECT) =>
      l.duration.Some? && l.extId.None? && l.caller.None? && l.callee.None? && l.device.None?
    case Some(CONNECT) =>
      l.duration.None? && l.extId.Some? && l.caller.Some? && l.callee.None? && l.device.None?
    case Some(RING) =>
      l.duration.None? && l.extId.None? && l.caller.Some? && l.callee.Some? && l.device.Some?
    case Some(CALL) =>
      l.duration.None? && l.extId.Some? && l.caller.Some? && l.callee.Some? && l.device.Some?
    case None =>
      l.duration.None? && l.extId.None? && l.caller.None? && l.callee.None? && l.device.None?
  }

  /** The fields of a line in the order the router sends them. */
  function Fields(l: CallMonitorLine): (r: seq<string>)
    requires WellFormed(l)
    ensures |r| == 3 + Needed(l.kind)
  {
    var head := [l.datetime, l.kind, l.connId];
    match TypeOf(l.kind)
    case Some(DISCONNECT) => head + [l.duration.value]
    case Some(CONNECT) => head + [l.extId.value, l.caller.value]
    case Some(RING) => head + [l.caller.value, l.callee.value, l.device.value]
    case Some(CALL) => head + [l.extId.value, l.caller.value, l.callee.value, l.device.value]
    case None => head
  }

  /** The line the router sends for `l`. */
  function RawLine(l: CallMonitorLine): string
    requires WellFormed(l)
  {
    Join(Fields(l), ';') + "\n"
  }

  /** `raw_line.strip().split(';', 7)`: the fields of a line. */
  function Params(raw: string): (params: seq<string>)
    ensures 1 <= |params| <= 8
  {
    SplitMax(Strip(raw), ';', 7)
  }

  /** The fields of a line have the split shape and join to a stripped string. */
  lemma ParamsShape(raw: string)
    ensures SplitShape(Params(raw), ';', 7)
    ensures IsStripped(Join(Params(raw), ';'), IsSpace)
  {
    StripCharsResult(raw, IsSpace);
    JoinOfSplitMax(Strip(raw), ';', 7);
    SplitMaxShape(Strip(raw), ';', 7);
  }

  /** Joining fields that could come from a split, with a newline appended,
      gives a line whose fields are those fields. */
  lemma ParamsOfJoin(parts: seq<string>)
    requires SplitShape(parts, ';', 7) && IsStripped(Join(parts, ';'), IsSpace)
    ensures Params(Join(parts, ';') + "\n") == parts
  {
    StripNewline(Join(parts, ';'));
    SplitOfJoin(parts, ';', 7);
  }

  /** `CallMonitorLine.__init__` over the fields of the line: unpack datetime,
      type and connection id (ValueError with fewer than three fields), split
      the datetime at its spaces into exactly a date and a time (ValueError
      otherwise), then read the fields the type needs (IndexError when the
      line is too short).  An unknown type reads nothing and raises nothing. */
  function ParseParams(params: seq<string>): (r: Result<CallMonitorLine, PyError>)
    ensures r.Ok? <==> |params| >= 3 && |Split(params[0], ' ')| == 2 && |params| >= 3 + Needed(params[1])
    ensures r.Err? ==> (r.error == ValueError <==> |params| < 3 || |Split(params[0], ' ')| != 2)
    ensures r.Err? ==> r.error == ValueError || r.error == IndexError
    ensures r.Ok? ==> && WellFormed(r.value) && r.value.kind == params[1] && r.value.connId == params[2]
                      && r.value.datetime == params[0] && [r.value.date, r.value.time] == Split(params[0], ' ')
  {
    if |params| < 3 then Err(ValueError)
    else
      var dt := Split(params[0], ' ');
      if |dt| != 2 then Err(ValueError)
      else
        var more := params[3..];
        var base := CallMonitorLine(params[0], dt[0], dt[1], params[1], params[2], None, None, None, None, None);
        assert [dt[0], dt[1]] == dt;
        match TypeOf(params[1])
        case None => Ok(base)
        case Some(DISCONNECT) =>
          if |more| < 1 then Err(IndexError)
          else Ok(base.(duration := Some(more[0])))
        case Some(CONNECT) =>
          if |more| < 2 then Err(IndexError)
          else Ok(base.(extId := Some(more[0]), caller := Some(more[1])))
        case Some(RING) =>
          if |more| < 3 then Err(IndexError)
          else Ok(base.(caller := Some(more[0]), callee := Some(more[1]), device := Some(more[2])))
        case Some(CALL) =>
          if |more| < 4 then Err(IndexError)
          else Ok(base.(extId := Some(more[0]), caller := Some(more[1]), callee := Some(more[2]), device := Some(more[3])))
  }

  /** `CallMonitorLine(raw_line)` */
  function Parse(raw: string): Result<CallMonitorLine, PyError>
  {
    ParseParams(Params(raw))
  }

  /** The fields of a parsed line are the leading fields of the raw line. */
  lemma ParseParamsFields(params: seq<string>)
    requires ParseParams(params).Ok?
    ensures Fields(ParseParams(params).value) == params[..3 + Needed(params[1])]
  {
    var l := ParseParams(params).value;
    var f := Fields(l);
    var n := 3 + Needed(params[1]);
    match TypeOf(params[1])
    case None =>
      assert f == params[..n];
    case Some(DISCONNECT) =>
      assert l.duration == Some(params[3]);
      assert f == params[..n];
    case Some(CONNECT) =>
      assert l.extId == Some(params[3]) && l.caller == Some(params[4]);
      assert f == params[..n];
    case Some(RING) =>
      assert l.caller == Some(params[3]) && l.callee == Some(params[4]) && l.device == Some(params[5]);
      assert f == params[..n];
    case Some(CALL) =>
      assert l.extId == Some(params[3]) && l.caller == Some(params[4]);
      assert l.callee == Some(params[5]) && l.device == Some(params[6]);
      assert f == params[..n];
  }

  /** A date and a time without spaces, joined by one space, split back. */
  lemma DateTimeSplit(date: string, time: string)
    requires ' ' !in date && ' ' !in time
    ensures Split(date + " " + time, ' ') == [date, time]
  {
    assert Join([date, time], ' ') == date + " " + time;
    SplitOfJoinAll([date, time], ' ');
  }

  /** Parsing the fields of a well-formed line gives the line. */
  lemma ParseParamsOfFields(l: CallMonitorLine)
    requires WellFormed(l) && Split(l.datetime, ' ') == [l.date, l.time]
    ensures ParseParams(Fields(l)) == Ok(l)
  {
  }

  /** Printing an optional field the way an f-string prints None. */
  function Repr(o: Option<string>): string
  {
    if o.Some? then o.value else "None"
  }

  /** `__str__`: date, time and type, then the fields that matter for the
      type; an unknown type prints a fixed notice. */
  function Show(l: CallMonitorLine): (r: string)
    ensures TypeOf(l.kind).None? ==> r == "NOT IMPLEMENTED CALL TYPE " + l.kind
    ensures TypeOf(l.kind).Some? ==> "date:" + l.date + " time:" + l.time + " type:" + l.kind <= r
  {
    var start := "date:" + l.date + " time:" + l.time + " type:" + l.kind;
    match TypeOf(l.kind)
    case Some(RING) => start + " caller:" + Repr(l.caller) + " callee:" + Repr(l.callee)
    case Some(CALL) => start + " caller:" + Repr(l.caller) + " callee:" + Repr(l.callee)
    case Some(CONNECT) => start + " caller:" + Repr(l.caller)
    case Some(DISCONNECT) => start + " duration:" + (if l.duration.Some? then l.duration.value else "0")
    case None => "NOT IMPLEMENTED CALL TYPE " + l.kind
  }

  /** A line the router could send parses back to the event it describes. */
  lemma ParseRawLine(l: CallMonitorLine)
    requires WellFormed(l) && l.datetime == l.date + " " + l.time
    requires ' ' !in l.date && ' ' !in l.time
    requires forall i :: 0 <= i < |Fields(l)| ==> ';' !in Fields(l)[i]
    requires IsStripped(Join(Fields(l), ';'), IsSpace)
    ensures Parse(RawLine(l)) == Ok(l)
  {
    var fields := Fields(l);
    assert SplitShape(fields, ';', 7);
    ParamsOfJoin(fields);
    DateTimeSplit(l.date, l.time);
    ParseParamsOfFields(l);
  }

  /** An unknown type parses without error, fills nothing, and prints the
      fixed notice. */
  lemma ParseUnknownType(params: seq<string>)
    requires |params| >= 3 && |Split(params[0], ' ')| == 2 && TypeOf(params[1]).None?
    ensures ParseParams(params).Ok?
    ensures var l := ParseParams(params).value;
            && l.duration.None? && l.extId.None? && l.caller.None? && l.callee.None? && l.device.None?
            && Show(l) == "NOT IMPLEMENTED CALL TYPE " + params[1]
  {
  }

  // ---------------------------------------------------------------- anonymising

  /** Indices of the phone-number fields of a line, by type. */
  function NumberFields(kind: string): set<nat>
  {
    match TypeOf(kind)
    case Some(CONNECT) => {4}
    case Some(RING) => {3, 4}
    case Some(CALL) => {4, 5}
    case _ => {}
  }

  /** `params` with the fields at `idx` passed through `mask`. */
  function Masked(params: seq<string>, idx: set<nat>, mask: string -> string): (r: seq<string>)
    ensures |r| == |params|
    ensures forall i :: 0 <= i < |r| ==> r[i] == if i in idx then mask(params[i]) else params[i]
  {
    seq(|params|, i requires 0 <= i < |params| => if i in idx then mask(params[i]) else params[i])
  }

  /** Whether `anonymize` rewrites the fields of a line, rather than failing or
      returning a DISCONNECT line as it is. */
  predicate Rewrites(params: seq<string>)
  {
    |params| >= 2 && params[1] != "DISCONNECT" && forall i :: i in NumberFields(params[1]) ==> i < |params|
  }

  /** What `CallMonitorLine.anonymize` returns when each number field is
      rewritten by `mask`: a DISCONNECT line comes back as it was given;
      otherwise the number fields of the line's type are masked and the
      fields are joined again with one newline appended.  Fewer than two
      fields, or a missing number field, is an IndexError. */
  function AnonymizedWith(raw: string, mask: string -> string): Result<string, PyError>
  {
    var params := Params(raw);
    if |params| < 2 then Err(IndexError)
    else if params[1] == "DISCONNECT" then Ok(raw)
    else if !Rewrites(params) then Err(IndexError)
    else Ok(Join(Masked(params, NumberFields(params[1]), mask), ';') + "\n")
  }

  /** The body of `CallMonitorLine.anonymize`, with the masking of one
      number passed in: the number fields are rewritten one assignment into
      the field list at a time, then the fields are joined again. */
  method AnonymizeFields(rawLine: string, mask: string -> string) returns (r: Result<string, PyError>)
    ensures r == AnonymizedWith(rawLine, mask)
  {
    var params := Params(rawLine);
    if |params| < 2 {
      return Err(IndexError);
    }
    var kind := params[1];
    if kind == "DISCONNECT" {
      return Ok(rawLine);
    } else if kind == "CONNECT" {
      assert NumberFields(kind) == {4};
      if |params| <= 4 {
        return Err(IndexError);
      }
      MaskedOne(params, 4, mask);
      params := params[4 := mask(params[4])];
    } else if kind == "RING" {
      assert NumberFields(kind) == {3, 4};
      if |params| <= 4 {
        return Err(IndexError);
      }
      MaskedTwo(params, 3, 4, mask);
      params := params[3 := mask(params[3])];
      params := params[4 := mask(params[4])];
    } else if kind == "CALL" {
      assert NumberFields(kind) == {4, 5};
      if |params| <= 5 {
        return Err(IndexError);
      }
      MaskedTwo(params, 4, 5, mask);
      params := params[4 := mask(params[4])];
      params := params[5 := mask(params[5])];
    } else {
      assert NumberFields(kind) == {};
      MaskedNone(params, mask);
    }
    return Ok(Join(params, ';') + "\n");
  }

  lemma MaskedNone(params: seq<string>, mask: string -> string)
    ensures Masked(params, {}, mask) == params
  {
  }

  lemma MaskedOne(params: seq<string>, a: nat, mask: string -> string)
    requires a < |params|
    ensures Masked(params, {a}, mask) == params[a := mask(params[a])]
  {
  }

  lemma MaskedTwo(params: seq<string>, a: nat, b: nat, mask: string -> string)
    requires a < b < |params|
    ensures Masked(params, {a, b}, mask) == params[a := mask(params[a])][b := mask(params[b])]
  {
  }

  /** `CallMonitorLine.anonymize`: the number fields go through
      `anonymize_number`. */
  method Anonymize(rawLine: string) returns (r: Result<string, PyError>)
    ensures r == AnonymizedWith(rawLine, AnonymizeNumber)
  {
    r := AnonymizeFields(rawLine, AnonymizeNumber);
  }

  /** What a masking function must do for anonymising to be repeatable and
      to keep the line's shape: masking twice is masking once, no `;` is
      introduced, and a changed field does not end in whitespace. */
  ghost predicate GoodMask(mask: string -> string)
  {
    && (forall f: string {:trigger mask(mask(f))} :: mask(mask(f)) == mask(f))
    && forall f: string ::
      && (';' in mask(f) ==> ';' in f)
      && (mask(f) == f || (mask(f) != [] && !IsSpace(mask(f)[|mask(f)| - 1])))
  }

  lemma AnonymizeNumberGood()
    ensures GoodMask(AnonymizeNumber)
  {
    forall f: string
      ensures && AnonymizeNumber(AnonymizeNumber(f)) == AnonymizeNumber(f)
              && (';' in AnonymizeNumber(f) ==> ';' in f)
    {
      AnonymizeNumberIdempotent(f);
      AnonymizeNumberShape(f, ';');
    }
  }

  /** Masking fields other than the first two keeps the split shape and
      keeps the joined line stripped. */
  lemma MaskedShape(params: seq<string>, idx: set<nat>, mask: string -> string)
    requires GoodMask(mask) && |params| >= 2 && 0 !in idx && 1 !in idx
    requires SplitShape(params, ';', 7) && IsStripped(Join(params, ';'), IsSpace)
    ensures SplitShape(Masked(params, idx, mask), ';', 7)
    ensures IsStripped(Join(Masked(params, idx, mask), ';'), IsSpace)
  {
    var masked := Masked(params, idx, mask);
    var last := |params| - 1;
    assert masked[last] == params[last] || (masked[last] != [] && !IsSpace(masked[last][|masked[last]| - 1])) by {
      if last in idx {
        assert masked[last] == mask(params[last]);
      }
    }
    JoinStripped(params, masked, ';');
    forall i | 0 <= i < |masked| && (i < |masked| - 1 || |masked| <= 7)
      ensures ';' !in masked[i]
    {
      assert ';' !in params[i];
      if i in idx {
        assert masked[i] == mask(params[i]);
      }
    }
  }

  /** The fields of an anonymised line are the masked fields of the original. */
  lemma AnonymizedParams(raw: string, mask: string -> string)
    requires GoodMask(mask) && Rewrites(Params(raw))
    ensures AnonymizedWith(raw, mask).Ok?
    ensures Params(AnonymizedWith(raw, mask).value) == Masked(Params(raw), NumberFields(Params(raw)[1]), mask)
  {
    var params := Params(raw);
    var idx := NumberFields(params[1]);
    assert 0 !in idx && 1 !in idx;
    ParamsShape(raw);
    MaskedShape(params, idx, mask);
    ParamsOfJoin(Masked(params, idx, mask));
  }

  /** Masked fields are rewritten the same way again, and masking them a
      second time changes nothing. */
  lemma RewritesMasked(params: seq<string>, mask: string -> string)
    requires forall f: string {:trigger mask(mask(f))} :: mask(mask(f)) == mask(f)
    requires Rewrites(params)
    ensures var masked := Masked(params, NumberFields(params[1]), mask);
            && masked[1] == params[1] && Rewrites(masked)
            && Masked(masked, NumberFields(masked[1]), mask) == masked
  {
    var idx := NumberFields(params[1]);
    var masked := Masked(params, idx, mask);
    assert 1 !in idx;
    var again := Masked(masked, idx, mask);
    forall i | 0 <= i < |masked| ensures again[i] == masked[i] {
      if i in idx {
        assert masked[i] == mask(params[i]);
      }
    }
    assert again == masked;
  }

  /** Anonymising an anonymised line changes nothing. */
  lemma AnonymizedWithIdempotent(raw: string, mask: string -> string)
    requires GoodMask(mask)
    requires AnonymizedWith(raw, mask).Ok?
    ensures AnonymizedWith(AnonymizedWith(raw, mask).value, mask) == AnonymizedWith(raw, mask)
  {
    var params := Params(raw);
    if params[1] != "DISCONNECT" {
      AnonymizedParams(raw, mask);
      RewritesMasked(params, mask);
    }
  }

  /** A line's caller and callee numbers passed through `mask`. */
  function MaskNumbers(l: CallMonitorLine, mask: string -> string): CallMonitorLine
  {
    l.(caller := if l.caller.Some? then Some(mask(l.caller.value)) else None,
       callee := if l.callee.Some? then Some(mask(l.callee.value)) else None)
  }

  /** Parsing masked fields gives the same event with its caller and callee
      masked. */
  lemma ParseParamsMasked(params: seq<string>, mask: string -> string)
    requires ParseParams(params).Ok?
    ensures ParseParams(Masked(params, NumberFields(params[1]), mask))
            == Ok(MaskNumbers(ParseParams(params).value, mask))
  {
    var kind := params[1];
    var masked := Masked(params, NumberFields(kind), mask);
    assert masked[0] == params[0] && masked[1] == params[1] && masked[2] == params[2];
    match TypeOf(kind)
    case None =>
    case Some(DISCONNECT) =>
      assert masked[3] == params[3];
    case Some(CONNECT) =>
      assert masked[3] == params[3] && masked[4] == mask(params[4]);
    case Some(RING) =>
      assert masked[3] == mask(params[3]) && masked[4] == mask(params[4]) && masked[5] == params[5];
    case Some(CALL) =>
      assert masked[3] == params[3] && masked[4] == mask(params[4]);
      assert masked[5] == mask(params[5]) && masked[6] == params[6];
  }

  /** Anonymising a line that parses gives a line that parses to the same
      event: date, time, type, connection id and every field other than the
      caller and callee numbers unchanged, and those two masked. */
  lemma AnonymizedWithParses(raw: string, mask: string -> string)
    requires GoodMask(mask)
    requires Parse(raw).Ok?
    ensures AnonymizedWith(raw, mask).Ok?
    ensures Parse(AnonymizedWith(raw, mask).value) == Ok(MaskNumbers(Parse(raw).value, mask))
  {
    var params := Params(raw);
    if params[1] != "DISCONNECT" {
      assert forall i :: i in NumberFields(params[1]) ==> i < 3 + Needed(params[1]);
      AnonymizedParams(raw, mask);
      ParseParamsMasked(params, mask);
    }
  }

  /** Whether anonymising fails does not depend on how numbers are masked. */
  lemma AnonymizedWithErrorIndependent(raw: string, m1: string -> string, m2: string -> string)
    ensures AnonymizedWith(raw, m1).Err? == AnonymizedWith(raw, m2).Err?
    ensures AnonymizedWith(raw, m1).Err? ==> AnonymizedWith(raw, m1) == AnonymizedWith(raw, m2)
  {
  }

  /** `anonymize` with `anonymize_number`, applied twice, is applied once. */
  lemma AnonymizeIdempotent(raw: string)
    requires AnonymizedWith(raw, AnonymizeNumber).Ok?
    ensures AnonymizedWith(AnonymizedWith(raw, AnonymizeNumber).value, AnonymizeNumber)
            == AnonymizedWith(raw, AnonymizeNumber)
  {
    AnonymizeNumberGood();
    AnonymizedWithIdempotent(raw, AnonymizeNumber);
  }

  /** Parsing the anonymised line gives the same type, date, time and
      connection id, and the caller and callee through `anonymize_number`. */
  lemma AnonymizeParses(raw: string)
    requires Parse(raw).Ok?
    ensures AnonymizedWith(raw, AnonymizeNumber).Ok?
    ensures Parse(AnonymizedWith(raw, AnonymizeNumber).value) == Ok(MaskNumbers(Parse(raw).value, AnonymizeNumber))
  {
    AnonymizeNumberGood();
    AnonymizedWithParses(raw, AnonymizeNumber);
  }

  // ---------------------------------------------------------------- reading a recorded file

  /** The text before the first '#'. */
  function BeforeHash(line: string): (r: string)
    ensures r <= line && '#' !in r
  {
    var k := Find(line, "#");
    FindChar(line, '#');
    if k == -1 then line else line[..k]
  }

  /** The comment and blank-line handling of `parse_from_file`: drop the text
      from the first '#', strip, skip the line if nothing is left, and
      re-append one newline. */
  function Preprocess(line: string): (r: Option<string>)
    ensures r.None? <==> Strip(BeforeHash(line)) == []
    ensures r.Some? ==> && |r.value| >= 2 && r.value[|r.value| - 1] == '\n'
                        && r.value[..|r.value| - 1] == Strip(BeforeHash(line))
  {
    var t := Strip(BeforeHash(line));
    if t == [] then None
    else
      assert (t + "\n")[..|t|] == t;
      Some(t + "\n")
  }

  /** A preprocessed line holds no '#'. */
  lemma PreprocessNoHash(line: string)
    requires Preprocess(line).Some?
    ensures '#' !in Preprocess(line).value
  {
    var t := Strip(BeforeHash(line));
    StripCharsAddsNothing(BeforeHash(line), IsSpace, '#');
    assert Preprocess(line).value == t + "\n";
  }

  /** Stripping a preprocessed line removes exactly the newline that was
      appended, and what is left is stripped. */
  lemma PreprocessStripped(line: string)
    requires Preprocess(line).Some?
    ensures var p := Preprocess(line).value;
            Strip(p) == p[..|p| - 1] && IsStripped(Strip(p), IsSpace)
  {
    var t := Strip(BeforeHash(line));
    StripCharsResult(BeforeHash(line), IsSpace);
    StripNewline(t);
  }

  /** What one line of the file does. */
  datatype Step = Skip | Print(text: string) | Raise(error: PyError)

  /** One iteration of `parse_from_file`: a line that survives preprocessing
      is (when asked) anonymised, with the result thrown away, and then
      printed raw or parsed and printed; an exception ends the run. */
  function LineStep(raw: string, printRaw: bool, anonymize: bool, mask: string -> string): Step
  {
    match Preprocess(raw)
    case None => Skip
    case Some(line) =>
      if anonymize && AnonymizedWith(line, mask).Err? then Raise(AnonymizedWith(line, mask).error)
      else if printRaw then Print(Strip(line))
      else match Parse(line)
        case Err(e) => Raise(e)
        case Ok(l) => Print(Show(l))
  }

  /** What a run of `parse_from_file` prints, and the exception that ends it early, if any. */
  datatype Printed = Printed(lines: seq<string>, error: Option<PyError>)

  /** What a run prints and raises when a line's step comes before the
      output of the rest of the file. */
  function Emit(step: Step, rest: Printed): Printed
  {
    match step
    case Skip => rest
    case Print(text) => Printed([text] + rest.lines, rest.error)
    case Raise(e) => Printed([], Some(e))
  }

  /** What a run prints and raises for a sequence of line steps. */
  function Run(steps: seq<Step>): Printed
  {
    if steps == [] then Printed([], None) else Emit(steps[0], Run(steps[1..]))
  }

  /** The step of every line of a file. */
  function Steps(lines: seq<string>, printRaw: bool, anonymize: bool, mask: string -> string): seq<Step>
  {
    MapSeq(line => LineStep(line, printRaw, anonymize, mask), lines)
  }

  /** `f` applied to every element, in order. */
  function MapSeq<A, B>(f: A -> B, s: seq<A>): (r: seq<B>)
    ensures |r| == |s|
    ensures forall i :: 0 <= i < |s| ==> r[i] == f(s[i])
  {
    if s == [] then [] else [f(s[0])] + MapSeq(f, s[1..])
  }

  /** What `parse_from_file` prints for the lines of a file. */
  function FileOutput(lines: seq<string>, printRaw: bool, anonymize: bool, mask: string -> string): Printed
  {
    Run(Steps(lines, printRaw, anonymize, mask))
  }

  /** The first line's step comes before the output of the other lines. */
  lemma FileOutputCons(lines: seq<string>, printRaw: bool, anonymize: bool, mask: string -> string)
    requires lines != []
    ensures FileOutput(lines, printRaw, anonymize, mask)
            == Emit(LineStep(lines[0], printRaw, anonymize, mask), FileOutput(lines[1..], printRaw, anonymize, mask))
  {
    var f := line => LineStep(line, printRaw, anonymize, mask);
    var rest := MapSeq(f, lines[1..]);
    assert ([f(lines[0])] + rest)[1..] == rest;
  }

  /** After the steps before `i`, `printed` has been printed and the
      rest of the run prints and raises what the remaining steps do. */
  predicate RunFrom(steps: seq<Step>, i: nat, printed: seq<string>)
    requires i <= |steps|
  {
    Run(steps) == Printed(printed + Run(steps[i..]).lines, Run(steps[i..]).error)
  }

  /** One more step: a raise ends the run with what was printed so far, and
      any other step keeps the run on track. */
  lemma RunNext(steps: seq<Step>, i: nat, printed: seq<string>)
    requires i < |steps| && RunFrom(steps, i, printed)
    ensures steps[i].Raise? ==> Run(steps) == Printed(printed, Some(steps[i].error))
    ensures steps[i].Print? ==> RunFrom(steps, i + 1, printed + [steps[i].text])
    ensures steps[i].Skip? ==> RunFrom(steps, i + 1, printed)
  {
    assert steps[i..][1..] == steps[i + 1..];
    if steps[i].Print? {
      var rest := Run(steps[i + 1..]);
      assert printed + [steps[i].text] + rest.lines == printed + ([steps[i].text] + rest.lines);
    }
  }

  /** The body of the loop of `parse_from_file`, for one line. */
  method ProcessLine(raw: string, printRaw: bool, anonymize: bool) returns (step: Step)
    ensures step == LineStep(raw, printRaw, anonymize, AnonymizeNumber)
  {
    var pre := Preprocess(raw);
    if pre.None? {
      return Skip;
    }
    var line := pre.value;
    if anonymize {
      var a := Anonymize(line);
      if a.Err? {
        return Raise(a.error);
      }
    }
    if printRaw {
      return Print(Strip(line));
    }
    var cm := Parse(line);
    if cm.Err? {
      return Raise(cm.error);
    }
    return Print(Show(cm.value));
  }

  /** `CallMonitorLog.parse_from_file` over the lines of the file. */
  method ParseFromFile(lines: seq<string>, printRaw: bool, anonymize: bool)
    returns (printed: seq<string>, error: Option<PyError>)
    ensures Printed(printed, error) == FileOutput(lines, printRaw, anonymize, AnonymizeNumber)
  {
    printed, error := [], None;
    ghost var steps := Steps(lines, printRaw, anonymize, AnonymizeNumber);
    var i := 0;
    while i < |lines|
      invariant 0 <= i <= |lines|
      invariant RunFrom(steps, i, printed)
    {
      var step := ProcessLine(lines[i], printRaw, anonymize);
      assert step == steps[i];
      RunNext(steps, i, printed);
      if step.Raise? {
        return printed, Some(step.error);
      }
      if step.Print? {
        printed := printed + [step.text];
      }
      i := i + 1;
    }
    assert steps[i..] == [];
  }

  /** A line that parses can be anonymised. */
  lemma ParseOkAnonymizeOk(line: string, mask: string -> string)
    requires Parse(line).Ok?
    ensures AnonymizedWith(line, mask).Ok?
  {
    var params := Params(line);
    assert forall i :: i in NumberFields(params[1]) ==> i < 3 + Needed(params[1]);
  }

  /** When lines are parsed rather than printed raw, whether a line is
      anonymised first changes neither what it prints nor whether it raises. */
  lemma LineStepAnonymizeFlag(raw: string, mask: string -> string)
    ensures var a, b := LineStep(raw, false, true, mask), LineStep(raw, false, false, mask);
            (a.Print? <==> b.Print?) && (a.Print? ==> a == b)
  {
    var pre := Preprocess(raw);
    if pre.Some? && Parse(pre.value).Ok? {
      ParseOkAnonymizeOk(pre.value, mask);
    }
  }

  /** When lines are parsed rather than printed raw, the anonymize flag
      changes neither what is printed nor whether the run ends in an
      exception (which exception may differ: a line of one field raises
      IndexError in the anonymiser but ValueError in the parser). */
  lemma {:induction false} AnonymizeFlagIgnored(lines: seq<string>, mask: string -> string)
    ensures FileOutput(lines, false, true, mask).lines == FileOutput(lines, false, false, mask).lines
    ensures FileOutput(lines, false, true, mask).error.Some? == FileOutput(lines, false, false, mask).error.Some?
  {
    if lines != [] {
      AnonymizeFlagIgnored(lines[1..], mask);
      LineStepAnonymizeFlag(lines[0], mask);
      FileOutputCons(lines, false, true, mask);
      FileOutputCons(lines, false, false, mask);
    }
  }

  /** How numbers are masked never changes what `parse_from_file` prints. */
  lemma {:induction false} FileOutputMaskIndependent(lines: seq<string>, printRaw: bool, anonymize: bool,
                                                      m1: string -> string, m2: string -> string)
    ensures FileOutput(lines, printRaw, anonymize, m1) == FileOutput(lines, printRaw, anonymize, m2)
  {
    if lines != [] {
      FileOutputMaskIndependent(lines[1..], printRaw, anonymize, m1, m2);
      FileOutputCons(lines, printRaw, anonymize, m1);
      FileOutputCons(lines, printRaw, anonymize, m2);
      var pre := Preprocess(lines[0]);
      if pre.Some? {
        AnonymizedWithErrorIndependent(pre.value, m1, m2);
      }
    }
  }
}
