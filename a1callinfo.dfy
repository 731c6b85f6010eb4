/**
 * The reputation record of the a1fbox revision (`CallInfo`): a number, the
 * name and location found for it, the score lookups' results and the tag of
 * the lookup that produced them.  The pages and the decoded score record are
 * parameters; `Info` is the record's field values, and every method of the
 * class is proved against the function on `Info` that says what it does.
 */
module A1CallInfo {
  import opened Wrappers
  import opened PyStr
  import opened PyInt
  import opened Lookups

  const UNKNOWN_NAME := "UNKNOWN"
  const UNKNOWN_LOCATION := "UNKNOWN"
  const UNRESOLVED_PREFIX_NAME := "UNRESOLVED"

  // `CallInfoType`: the value of the lookup that filled the record.
  const INIT := 0
  const TELLOWS_SCORE := 1
  const WEMGEHOERT_SCORE := 2
  const REV_SEARCH := 100
  const CASCADE := 101

  /** The fields of a `CallInfo` (`tag` is its `method` field).  The
      constructor never assigns `score`, `comments` and `searches`: they are
      `None` until a lookup does. */
  datatype Info = Info(
    number: string,
    name: string,
    location: string,
    prefixName: string,
    tag: int,
    score: Option<int>,
    comments: Option<int>,
    searches: Option<string>)

  /** The fields of the reverse-search answer's `generic` object that the
      lookup reads. */
  datatype Generic = Generic(name: string, city: string)

  /** `__init__`: a missing or empty name or location becomes "UNKNOWN". */
  function Initial(number: string, name: Option<string>, location: Option<string>): (r: Info)
    ensures r.number == number && r.prefixName == UNRESOLVED_PREFIX_NAME && r.tag == INIT
    ensures r.score.None? && r.comments.None? && r.searches.None?
    ensures name.Some? && name.value != "" ==> r.name == name.value
    ensures name.None? || name.value == "" ==> r.name == UNKNOWN_NAME
    ensures location.Some? && location.value != "" ==> r.location == location.value
    ensures location.None? || location.value == "" ==> r.location == UNKNOWN_LOCATION
  {
    Info(number,
         if name.Some? && name.value != "" then name.value else UNKNOWN_NAME,
         if location.Some? && location.value != "" then location.value else UNKNOWN_LOCATION,
         UNRESOLVED_PREFIX_NAME, INIT, None, None, None)
  }

  // ---------------------------------------------------------------- score service

  /** The caller name of a score record: `callerNames.caller[0]` overrides
      `numberDetails.name` (and fails on an empty list); when neither gives a
      name, the first caller type other than "Unbekannt". */
  function CallerName(rec: TellowsRecord): (r: Result<string, PyError>)
    ensures r.Err? <==> rec.callerNames == Some([])
    ensures r.Err? ==> r.error == IndexError
    ensures rec.callerNames.Some? && rec.callerNames.value != [] && rec.callerNames.value[0] != "" ==> r == Ok(rec.callerNames.value[0])
    ensures rec.callerNames.None? && rec.numberDetailsName.Some? && rec.numberDetailsName.value != "" ==> r == Ok(rec.numberDetailsName.value)
    ensures r.Ok? && r.value == "" ==> rec.callerTypes.None? || FirstKnownType(rec.callerTypes.value) in {None, Some("")}
  {
    var direct :=
      if rec.callerNames.Some? then
        if rec.callerNames.value == [] then Err(IndexError) else Ok(rec.callerNames.value[0])
      else
        Ok(if rec.numberDetailsName.Some? then rec.numberDetailsName.value else "");
    match direct
    case Err(e) => Err(e)
    case Ok(n) =>
      if n != "" then Ok(n)
      else if rec.callerTypes.Some? && FirstKnownType(rec.callerTypes.value).Some? then Ok(FirstKnownType(rec.callerTypes.value).value)
      else Ok("")
  }

  /** The first half of `get_tellows_score` on a record: score, comments,
      searches and location in this order; a score or comment count that
      `int` refuses raises ValueError and stops the assignments there. */
  function ScoreFields(i: Info, rec: TellowsRecord): (r: (Info, Option<PyError>))
    ensures r.0 == i.(score := r.0.score, comments := r.0.comments, searches := r.0.searches, location := r.0.location)
    ensures r.1.Some? ==> r.1.value == ValueError && r.0.comments == i.comments && r.0.searches == i.searches && r.0.location == i.location
    ensures r.1.Some? <==> rec.score.None? || rec.comments.None?
    ensures rec.score.Some? ==> r.0.score == rec.score
    ensures rec.score.None? ==> r.0.score == i.score
    ensures r.1.None? ==> && r.0.comments == rec.comments && r.0.searches == Some(rec.searches)
                          && r.0.location == rec.location
  {
    var score := rec.score;
    if score.None? then (i, Some(ValueError))
    else
      var comments := rec.comments;
      if comments.None? then (i.(score := score), Some(ValueError))
      else (i.(score := score, comments := comments, searches := Some(rec.searches), location := rec.location), None)
  }

  /** `get_tellows_score`: the tag is set before the request, so an HTTP
      error changes nothing else; a record sets score, comments, searches
      and location, and the name becomes "<caller>, <location>" only when a
      caller name was found.  An empty `callerNames.caller` raises
      IndexError after the score fields are set. */
  function Tellows(i: Info, response: Fetch<TellowsRecord>): (r: (Info, Option<PyError>))
    ensures r.0.tag == TELLOWS_SCORE
    ensures r.0.number == i.number && r.0.prefixName == i.prefixName
    ensures response.HttpError? ==> r == (i.(tag := TELLOWS_SCORE), None)
    ensures r.1.Some? ==> r.0.name == i.name && (r.1.value == ValueError || r.1.value == IndexError)
    ensures response.Fetched? && r.1 != Some(ValueError) ==>
              && r.0.score == response.body.score && r.0.score.Some?
              && r.0.comments == response.body.comments && r.0.comments.Some?
              && r.0.searches == Some(response.body.searches) && r.0.location == response.body.location
    ensures response.Fetched? && r.1.None? ==>
              && CallerName(response.body).Ok?
              && r.0.name == if CallerName(response.body).value != "" then CallerName(response.body).value + ", " + response.body.location else i.name
  {
    var tagged := i.(tag := TELLOWS_SCORE);
    match response
    case HttpError => (tagged, None)
    case Fetched(rec) =>
      var (scored, e) := ScoreFields(tagged, rec);
      if e.Some? then (scored, e)
      else
        match CallerName(rec)
        case Err(e) => (scored, Some(e))
        case Ok(caller) => (if caller != "" then scored.(name := caller + ", " + rec.location) else scored, None)
  }

  /** The caller-name part of `get_tellows_score`, step by step. */
  method SelectCallerName(rec: TellowsRecord) returns (r: Result<string, PyError>)
    ensures r == CallerName(rec)
  {
    var callerName := "";
    if rec.numberDetailsName.Some? {
      callerName := rec.numberDetailsName.value;
    }
    if rec.callerNames.Some? {
      if rec.callerNames.value == [] {
        return Err(IndexError);
      }
      callerName := rec.callerNames.value[0];
    }
    if callerName == "" && rec.callerTypes.Some? {
      var known := ScanCallerTypes(rec.callerTypes.value);
      if known.Some? {
        callerName := known.value;
      }
    }
    return Ok(callerName);
  }

  // ---------------------------------------------------------------- reverse search

  const GENERIC_BEGIN := "generic: {"

  /** The `{...}` text of the answer's `generic` object: from the brace of
      the first "generic: {" up to the first "}" after it. */
  function GenericObject(text: string): (r: Option<string>)
    ensures r.None? <==> Find(text, GENERIC_BEGIN) == -1 || '}' !in text[Find(text, GENERIC_BEGIN) + |GENERIC_BEGIN|..]
    ensures r.Some? ==> && |r.value| >= 2 && r.value[0] == '{' && r.value[|r.value| - 1] == '}'
                        && '}' !in r.value[..|r.value| - 1]
                        && OccursAt(text, r.value, Find(text, GENERIC_BEGIN) + |GENERIC_BEGIN| - 1)
  {
    var p := Find(text, GENERIC_BEGIN);
    if p == -1 then None
    else
      assert text[p..p + |GENERIC_BEGIN|] == GENERIC_BEGIN;
      assert text[p + |GENERIC_BEGIN| - 1] == '{' by {
        assert text[p..p + |GENERIC_BEGIN|][|GENERIC_BEGIN| - 1] == '{';
      }
      var content := text[p + |GENERIC_BEGIN| - 1..];
      assert content == ['{'] + text[p + |GENERIC_BEGIN|..];
      FindChar(content, '}');
      var q := Find(content, "}");
      if q == -1 then None
      else
        assert content[..q + 1] == text[p + |GENERIC_BEGIN| - 1..p + |GENERIC_BEGIN| + q];
        Some(content[..q + 1])
  }

  /** `get_revsearch_info` as it runs (the branch for the current page
      layout): the tag first; then, when the answer holds a `generic`
      object, the name becomes "<name>, <city>" of what `decode` (json5 and
      the key lookups) makes of it, and an error `decode` raises goes
      through. */
  function Revsearch(i: Info, page: Fetch<string>, decode: string -> Result<Generic, PyError>): (r: (Info, Option<PyError>))
    ensures r.0 == i.(tag := REV_SEARCH, name := r.0.name)
    ensures page.HttpError? ==> r == (i.(tag := REV_SEARCH), None)
    ensures r.1.Some? ==> r.0.name == i.name
    ensures page.Fetched? && GenericObject(page.body).None? ==> r == (i.(tag := REV_SEARCH), None)
    ensures page.Fetched? && GenericObject(page.body).Some? ==>
              match decode(GenericObject(page.body).value)
              case Ok(g) => r == (i.(tag := REV_SEARCH, name := g.name + ", " + g.city), None)
              case Err(e) => r == (i.(tag := REV_SEARCH), Some(e))
  {
    var tagged := i.(tag := REV_SEARCH);
    match page
    case HttpError => (tagged, None)
    case Fetched(text) =>
      match GenericObject(text)
      case None => (tagged, None)
      case Some(obj) =>
        match decode(obj)
        case Err(e) => (tagged, Some(e))
        case Ok(g) => (tagged.(name := g.name + ", " + g.city), None)
  }

  /** The object of a page whose first "generic: " is followed by a brace
      pair without a closing brace inside is exactly that pair. */
  lemma GenericOfPage(body: string, rest: string)
    requires '}' !in body
    ensures GenericObject("generic: {" + body + "}" + rest) == Some("{" + body + "}")
  {
    var text := "generic: {" + body + "}" + rest;
    assert OccursAt(text, GENERIC_BEGIN, 0) by {
      assert text[..|GENERIC_BEGIN|] == GENERIC_BEGIN;
    }
    var content := text[|GENERIC_BEGIN| - 1..];
    assert content == "{" + body + "}" + rest;
    assert content[..|body| + 1] == "{" + body;
    FindCharAt(content, '}', |body| + 1);
    assert content[..|body| + 2] == "{" + body + "}";
  }

  /** A page that carries a `generic` object the decoder reads as name and
      city gives the record the name "<name>, <city>". */
  lemma RevsearchName(i: Info, body: string, rest: string, decode: string -> Result<Generic, PyError>)
    requires '}' !in body && decode("{" + body + "}").Ok?
    ensures var g := decode("{" + body + "}").value;
            Revsearch(i, Fetched("generic: {" + body + "}" + rest), decode)
            == (i.(tag := REV_SEARCH, name := g.name + ", " + g.city), None)
  {
    GenericOfPage(body, rest);
  }

  // ---------------------------------------------------------------- wemgehoert

  const PERCENT_BEGIN := "<div id=\"progress-bar-inner\" class=\"progress-bar-rank"
  const PERCENT_END := "</div>"

  /** Python's `round(n / 10)`: the nearest integer, ties to the even one. */
  function RoundTenth(n: int): (r: int)
    ensures -5 <= 10 * r - n <= 5
    ensures 10 * r - n == 5 || 10 * r - n == -5 ==> r % 2 == 0
  {
    var q := n / 10;
    var m := n % 10;
    if m < 5 then q
    else if m > 5 then q + 1
    else if q % 2 == 0 then q
    else q + 1
  }

  /** The text of the progress bar: three characters after the marker (the
      rank digit and `">`) up to the next "</div>". */
  function PercentText(text: string): (r: Option<string>)
    ensures r.Some? ==> Find(text, PERCENT_BEGIN) != -1 && !Contains(r.value, PERCENT_END)
  {
    var p := Find(text, PERCENT_BEGIN);
    if p == -1 then None
    else
      var content := Drop(text, p + |PERCENT_BEGIN| + 3);
      var q := Find(content, PERCENT_END);
      if q == -1 then None
      else
        assert forall k :: 0 <= k ==> !OccursAt(content[..q], PERCENT_END, k) by {
          forall k | 0 <= k ensures !OccursAt(content[..q], PERCENT_END, k) {
            if k + |PERCENT_END| <= q {
              assert !OccursAt(content, PERCENT_END, k);
              assert content[..q][k..k + |PERCENT_END|] == content[k..k + |PERCENT_END|];
            }
          }
        }
        Some(content[..q])
  }

  /** `get_wemgehoert_score`: the tag first; a percentage on the page
      becomes the score, a tenth of it rounded; text `int` refuses raises
      ValueError. */
  function Wemgehoert(i: Info, page: Fetch<string>): (r: (Info, Option<PyError>))
    ensures r.0 == i.(tag := WEMGEHOERT_SCORE, score := r.0.score)
    ensures r.1.Some? ==> r.1.value == ValueError && r.0.score == i.score
    ensures r.0.score != i.score ==>
              && page.Fetched? && PercentText(page.body).Some? && ParseInt(PercentText(page.body).value).Some?
              && r.0.score == Some(RoundTenth(ParseInt(PercentText(page.body).value).value))
    ensures page.HttpError? ==> r == (i.(tag := WEMGEHOERT_SCORE), None)
    ensures page.Fetched? && PercentText(page.body).None? ==> r == (i.(tag := WEMGEHOERT_SCORE), None)
    ensures page.Fetched? && PercentText(page.body).Some? ==>
              match ParseInt(PercentText(page.body).value)
              case Some(n) => r == (i.(tag := WEMGEHOERT_SCORE, score := Some(RoundTenth(n))), None)
              case None => r == (i.(tag := WEMGEHOERT_SCORE), Some(ValueError))
  {
    var tagged := i.(tag := WEMGEHOERT_SCORE);
    match page
    case HttpError => (tagged, None)
    case Fetched(text) =>
      match PercentText(text)
      case None => (tagged, None)
      case Some(t) =>
        match ParseInt(t)
        case None => (tagged, Some(ValueError))
        case Some(n) => (tagged.(score := Some(RoundTenth(n))), None)
  }

  /** The progress bar's text is the run of digits after the opening tag
      and its three-character rank, up to the closing tag. */
  lemma PercentTextOf(rank: string, digits: string, rest: string)
    requires |rank| == 3 && IsDigits(digits)
    ensures PercentText(PERCENT_BEGIN + rank + digits + PERCENT_END + rest) == Some(digits)
  {
    var text := PERCENT_BEGIN + rank + digits + PERCENT_END + rest;
    assert OccursAt(text, PERCENT_BEGIN, 0) by {
      assert text[..|PERCENT_BEGIN|] == PERCENT_BEGIN;
    }
    assert Drop(text, |PERCENT_BEGIN| + 3) == digits + PERCENT_END + rest;
    EndAfterDigits(digits, rest);
    assert (digits + PERCENT_END + rest)[..|digits|] == digits;
  }

  /** The closing tag is found right after a run of digits. */
  lemma EndAfterDigits(digits: string, rest: string)
    requires IsDigits(digits)
    ensures Find(digits + PERCENT_END + rest, PERCENT_END) == |digits|
  {
    var content := digits + PERCENT_END + rest;
    assert OccursAt(content, PERCENT_END, |digits|) by {
      assert content[|digits|..|digits| + |PERCENT_END|] == PERCENT_END;
    }
    forall k | 0 <= k < |digits| ensures !OccursAt(content, PERCENT_END, k) {
      assert content[k] == digits[k] && IsDigit(digits[k]);
      assert k + |PERCENT_END| <= |content| ==> content[k..k + |PERCENT_END|][0] != PERCENT_END[0];
    }
  }

  /** A page whose progress bar shows the percentage n gives the score n / 10
      rounded: "84" becomes 8. */
  lemma WemgehoertPercentage(i: Info, rank: string, n: nat, rest: string)
    requires |rank| == 3
    ensures Wemgehoert(i, Fetched(PERCENT_BEGIN + rank + NatToString(n) + PERCENT_END + rest))
            == (i.(tag := WEMGEHOERT_SCORE, score := Some(RoundTenth(n))), None)
  {
    PercentTextOf(rank, NatToString(n), rest);
    ParseIntOfIntToString(n);
  }

  // ---------------------------------------------------------------- cascade

  /** `get_cascade_score`: reverse search, then the score service; the
      reverse-search name survives only when strictly longer than the name
      the score service left.  An exception stops the cascade with the tag
      of the lookup that raised it. */
  function Cascade(i: Info, page: Fetch<string>, decode: string -> Result<Generic, PyError>, response: Fetch<TellowsRecord>): (r: (Info, Option<PyError>))
    ensures r.1.None? <==> Revsearch(i, page, decode).1.None? && Tellows(Revsearch(i, page, decode).0, response).1.None?
    ensures r.1.Some? ==> r == Revsearch(i, page, decode) || r == Tellows(Revsearch(i, page, decode).0, response)
    ensures r.1.None? ==>
              var rev := Revsearch(i, page, decode).0.name;
              var scored := Tellows(Revsearch(i, page, decode).0, response).0;
              && r.0 == scored.(tag := CASCADE, name := r.0.name)
              && (r.0.name == rev || r.0.name == scored.name)
              && |r.0.name| >= |rev| && |r.0.name| >= |scored.name|
              && (|rev| <= |scored.name| ==> r.0.name == scored.name)
  {
    var (revised, e1) := Revsearch(i, page, decode);
    if e1.Some? then (revised, e1)
    else
      var (scored, e2) := Tellows(revised, response);
      if e2.Some? then (scored, e2)
      else
        var named := if |revised.name| > |scored.name| then scored.(name := revised.name) else scored;
        (named.(tag := CASCADE), None)
  }

  // ---------------------------------------------------------------- __str__

  /** The methods whose output ends with the score. */
  predicate Scored(tag: int)
  {
    tag == TELLOWS_SCORE || tag == WEMGEHOERT_SCORE || tag == CASCADE
  }

  const SCORE_TAG := " score:"

  /** Number, name and location, and the search link when asked for. */
  function Head(i: Info, addLink: bool): (r: string)
    ensures "number:" + i.number + " name:" + i.name + " location:" + i.location <= r
    ensures !addLink ==> r == "number:" + i.number + " name:" + i.name + " location:" + i.location
  {
    var start := "number:" + i.number + " name:" + i.name + " location:" + i.location;
    if addLink then start + " link:http://www.google.com/search?q=" + i.number else start
  }

  /** `__str__`: the head, followed by the score for the scoring methods; a
      score that was never assigned raises AttributeError there. */
  function Show(i: Info, addLink: bool): (r: Result<string, PyError>)
    ensures r.Err? <==> Scored(i.tag) && i.score.None?
    ensures r.Err? ==> r.error == AttributeError
    ensures r.Ok? ==> Head(i, addLink) <= r.value
    ensures r.Ok? && !Scored(i.tag) ==> r.value == Head(i, addLink)
    ensures r.Ok? && Scored(i.tag) ==>
              |r.value| >= |Head(i, addLink) + SCORE_TAG| && ParseInt(r.value[|Head(i, addLink) + SCORE_TAG|..]) == i.score
  {
    var start := Head(i, addLink);
    if Scored(i.tag) then
      if i.score.None? then Err(AttributeError)
      else
        var shown := start + SCORE_TAG + IntToString(i.score.value);
        assert shown[|start + SCORE_TAG|..] == IntToString(i.score.value);
        ParseIntOfIntToString(i.score.value);
        Ok(shown)
    else Ok(start)
  }

  // ---------------------------------------------------------------- the record

  class CallInfo {
    var number: string
    var name: string
    var location: string
    var prefixName: string
    var tag: int
    var score: Option<int>
    var comments: Option<int>
    var searches: Option<string>

    /** The current field values. */
    function Snapshot(): Info
      reads this
    {
      Info(number, name, location, prefixName, tag, score, comments, searches)
    }

    constructor (number: string, name: Option<string>, location: Option<string>)
      ensures Snapshot() == Initial(number, name, location)
    {
      this.number := number;
      this.name := if name.Some? && name.value != "" then name.value else UNKNOWN_NAME;
      this.location := if location.Some? && location.value != "" then location.value else UNKNOWN_LOCATION;
      prefixName := UNRESOLVED_PREFIX_NAME;
      tag := INIT;
      score, comments, searches := None, None, None;
    }

    method GetCascadeScore(page: Fetch<string>, decode: string -> Result<Generic, PyError>, response: Fetch<TellowsRecord>)
      returns (error: Option<PyError>)
      modifies this
      ensures (Snapshot(), error) == Cascade(old(Snapshot()), page, decode, response)
    {
      error := GetRevsearchInfo(page, decode);
      if error.Some? {
        return;
      }
      var revName := name;
      error := GetTellowsScore(response);
      if error.Some? {
        return;
      }
      if |revName| > |name| {
        name := revName;
      }
      tag := CASCADE;
    }

    /** `get_location`: planned, and changes nothing. */
    method GetLocation(unknownOnly: bool)
      ensures Snapshot() == old(Snapshot())
    {
      if unknownOnly && location != UNKNOWN_LOCATION {
        return;
      }
    }

    method GetTellowsScore(response: Fetch<TellowsRecord>) returns (error: Option<PyError>)
      modifies this
      ensures (Snapshot(), error) == Tellows(old(Snapshot()), response)
    {
      tag := TELLOWS_SCORE;
      if response.HttpError? {
        return None;
      }
      var rec := response.body;
      error := SetScoreFields(rec);
      if error.Some? {
        return;
      }
      var caller := SelectCallerName(rec);
      if caller.Err? {
        return Some(caller.error);
      }
      if caller.value != "" {
        name := caller.value + ", " + location;
      }
      return None;
    }

    method SetScoreFields(rec: TellowsRecord) returns (error: Option<PyError>)
      modifies this
      ensures (Snapshot(), error) == ScoreFields(old(Snapshot()), rec)
    {
      if rec.score.None? {
        return Some(ValueError);
      }
      score := rec.score;
      if rec.comments.None? {
        return Some(ValueError);
      }
      comments := rec.comments;
      searches := Some(rec.searches);
      location := rec.location;
      return None;
    }

    method GetWemgehoertScore(page: Fetch<string>) returns (error: Option<PyError>)
      modifies this
      ensures (Snapshot(), error) == Wemgehoert(old(Snapshot()), page)
    {
      tag := WEMGEHOERT_SCORE;
      if page.HttpError? {
        return None;
      }
      var content := page.body;
      var begin := Find(content, PERCENT_BEGIN);
      if begin == -1 {
        assert PercentText(page.body).None?;
      } else {
        content := Drop(content, begin + |PERCENT_BEGIN| + 3);
        var end := Find(content, PERCENT_END);
        if end == -1 {
          assert PercentText(page.body).None?;
        } else {
          content := content[..end];
          assert PercentText(page.body) == Some(content);
          var percent := ParseInt(content);
          if percent.None? {
            return Some(ValueError);
          }
          score := Some(RoundTenth(percent.value));
        }
      }
      return None;
    }

    method GetRevsearchInfo(page: Fetch<string>, decode: string -> Result<Generic, PyError>) returns (error: Option<PyError>)
      modifies this
      ensures (Snapshot(), error) == Revsearch(old(Snapshot()), page, decode)
    {
      tag := REV_SEARCH;
      if page.HttpError? {
        return None;
      }
      var content := page.body;
      var begin := Find(content, GENERIC_BEGIN);
      if begin != -1 {
        content := content[begin + |GENERIC_BEGIN| - 1..];
        var end := Find(content, "}");
        if end != -1 {
          content := content[..end + 1];
          assert GenericObject(page.body) == Some(content);
          var res := decode(content);
          if res.Err? {
            return Some(res.error);
          }
          name := res.value.name + ", " + res.value.city;
        }
      }
      return None;
    }
  }

  // ---------------------------------------------------------------- properties

  /** A fresh record whose cascade gets an HTTP error from the score service
      ends tagged CASCADE with no score, so printing it raises
      AttributeError: the score is only ever assigned by a lookup. */
  lemma CascadeWithoutScoreCannotShow(number: string, page: Fetch<string>, decode: string -> Result<Generic, PyError>, addLink: bool)
    requires Revsearch(Initial(number, None, None), page, decode).1.None?
    ensures Cascade(Initial(number, None, None), page, decode, HttpError).1.None?
    ensures Cascade(Initial(number, None, None), page, decode, HttpError).0.tag == CASCADE
    ensures Show(Cascade(Initial(number, None, None), page, decode, HttpError).0, addLink) == Err(AttributeError)
  {
  }

  /** After a score lookup that went through, the record prints and its
      output ends with the score it received. */
  lemma TellowsThenShow(i: Info, rec: TellowsRecord, addLink: bool)
    requires Tellows(i, Fetched(rec)).1.None?
    ensures var r := Tellows(i, Fetched(rec)).0;
            && Show(r, addLink).Ok?
            && ParseInt(Show(r, addLink).value[|Head(r, addLink) + SCORE_TAG|..]) == rec.score
  {
  }

  /** On a name tie the cascade keeps the name the score service left. */
  lemma CascadeTieKeepsScoreName(i: Info, page: Fetch<string>, decode: string -> Result<Generic, PyError>, response: Fetch<TellowsRecord>)
    requires Cascade(i, page, decode, response).1.None?
    requires |Revsearch(i, page, decode).0.name| == |Tellows(Revsearch(i, page, decode).0, response).0.name|
    ensures Cascade(i, page, decode, response).0.name == Tellows(Revsearch(i, page, decode).0, response).0.name
  {
  }
}
