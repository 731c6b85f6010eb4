/**
 * The reputation record of the repository root's draft (`CallInfo`): a
 * number and the name found for it, the score service's fields, and the tag
 * of the lookup that produced them.  Unlike the a1fbox revision, a lookup
 * tags the record only when it succeeded, and the reverse search reads the
 * page's `handlerData` line itself.
 */
module RootCallInfo {
  import opened Wrappers
  import opened PyStr
  import opened PyInt
  import opened Lookups

  // `CallInfoType`: the value of the lookup that filled the record.
  const INIT := 0
  const TELLOWS_SCORE := 1
  const TEL_AND_REV := 2
  const REV_SEARCH := 3

  /** The fields of a `CallInfo` (`tag` is its `method` field).  Score,
      comments, searches and location are `None` until the score service
      assigns them: the constructor never does. */
  datatype Info = Info(
    number: string,
    name: string,
    tag: int,
    score: Option<int>,
    comments: Option<int>,
    searches: Option<string>,
    location: Option<string>)

  /** `__init__`, with `unknown_name` given ("UNKNOWN" by default). */
  function Initial(number: string, unknownName: string): (r: Info)
    ensures r.number == number && r.name == unknownName && r.tag == INIT
    ensures r.score.None? && r.comments.None? && r.searches.None? && r.location.None?
  {
    Info(number, unknownName, INIT, None, None, None, None)
  }

  /** A record tagged with the score service holds a score and a comment
      count. */
  predicate Valid(i: Info)
  {
    i.tag == TELLOWS_SCORE ==> i.score.Some? && i.comments.Some?
  }

  // ---------------------------------------------------------------- score service

  /** The first caller type other than "Unbekannt", when the record lists
      caller types. */
  function KnownType(rec: TellowsRecord): Option<string>
  {
    if rec.callerTypes.Some? then FirstKnownType(rec.callerTypes.value) else None
  }

  /** `get_tellows_score` on a record: score, comments, searches and
      location in this order (a count `int` refuses raises ValueError and
      stops there), then the name "<caller type>, <location>", or the
      location alone, and the tag last. */
  function TellowsFields(i: Info, rec: TellowsRecord): (r: (Info, Option<PyError>))
    ensures r.1.Some? <==> rec.score.None? || rec.comments.None?
    ensures r.1.Some? ==> && r.1.value == ValueError
                          && r.0 == i.(score := if rec.score.Some? then rec.score else i.score)
    ensures r.1.None? ==> && r.0.number == i.number && r.0.tag == TELLOWS_SCORE
                          && r.0.score == rec.score && r.0.comments == rec.comments
                          && r.0.searches == Some(rec.searches) && r.0.location == Some(rec.location)
    ensures r.1.None? && KnownType(rec).None? ==> r.0.name == rec.location
    ensures r.1.None? && KnownType(rec).Some? ==> r.0.name == KnownType(rec).value + ", " + rec.location
  {
    var score := rec.score;
    if score.None? then (i, Some(ValueError))
    else
      var comments := rec.comments;
      if comments.None? then (i.(score := score), Some(ValueError))
      else
        var callerName := if KnownType(rec).Some? then KnownType(rec).value + ", " else "";
        (Info(i.number, callerName + rec.location, TELLOWS_SCORE, score, comments, Some(rec.searches), Some(rec.location)), None)
  }

  /** `get_tellows_score`: an HTTP error changes nothing, not even the tag. */
  function Tellows(i: Info, response: Fetch<TellowsRecord>): (r: (Info, Option<PyError>))
    ensures response.HttpError? ==> r == (i, None)
    ensures r.0.tag != i.tag ==> r.1.None? && r.0.tag == TELLOWS_SCORE
    ensures response.Fetched? ==> r == TellowsFields(i, response.body)
    ensures Valid(i) ==> Valid(r.0)
  {
    match response
    case HttpError => (i, None)
    case Fetched(rec) => TellowsFields(i, rec)
  }

  // ---------------------------------------------------------------- reverse search

  const HANDLER_BEGIN := "var handlerData = [["

  /** The text of the page's `handlerData` array: after the first
      "var handlerData = [[" up to the next "]". */
  function HandlerData(text: string): (r: Option<string>)
    ensures r.None? <==> Find(text, HANDLER_BEGIN) == -1 || ']' !in text[Find(text, HANDLER_BEGIN) + |HANDLER_BEGIN|..]
    ensures r.Some? ==> ']' !in r.value && OccursAt(text, HANDLER_BEGIN + r.value + "]", Find(text, HANDLER_BEGIN))
  {
    var p := Find(text, HANDLER_BEGIN);
    if p == -1 then None
    else
      var content := text[p + |HANDLER_BEGIN|..];
      FindChar(content, ']');
      var q := Find(content, "]");
      if q == -1 then None
      else
        assert text[p..p + |HANDLER_BEGIN|] == HANDLER_BEGIN;
        assert text[p..p + |HANDLER_BEGIN| + q + 1] == text[p..p + |HANDLER_BEGIN|] + content[..q] + [content[q]];
        Some(content[..q])
  }

  /** The characters `strip("' ")` removes. */
  predicate QuoteOrSpace(ch: char)
  {
    ch == '\'' || ch == ' '
  }

  /** The name the reverse search builds from the array text: its fields
      15 and 6, stripped of quotes and spaces; fewer than 15 fields raise
      IndexError. */
  function RevName(data: string): (r: Result<string, PyError>)
    ensures r.Err? <==> |Split(data, ',')| < 15
    ensures r.Err? ==> r.error == IndexError
  {
    var parts := Split(data, ',');
    if |parts| <= 5 then Err(IndexError)
    else
      var city := StripChars(parts[5], QuoteOrSpace);
      if |parts| <= 14 then Err(IndexError)
      else Ok(StripChars(parts[14], QuoteOrSpace) + ", " + city)
  }

  /** `get_revsearch_info` on a page: the name and the REV_SEARCH tag are
      set only when the page holds the array. */
  function RevsearchText(i: Info, text: string): (r: (Info, Option<PyError>))
    ensures r.0 == i.(name := r.0.name, tag := r.0.tag)
    ensures Valid(i) ==> Valid(r.0)
    ensures HandlerData(text).None? ==> r == (i, None)
    ensures r.1.Some? ==> r == (i, Some(IndexError))
    ensures HandlerData(text).Some? && r.1.None? ==>
              && RevName(HandlerData(text).value).Ok?
              && r.0 == i.(name := RevName(HandlerData(text).value).value, tag := REV_SEARCH)
  {
    match HandlerData(text)
    case None => (i, None)
    case Some(data) =>
      match RevName(data)
      case Err(e) => (i, Some(e))
      case Ok(name) => (i.(name := name, tag := REV_SEARCH), None)
  }

  /** `get_revsearch_info`: an HTTP error changes nothing, not even the tag. */
  function Revsearch(i: Info, page: Fetch<string>): (r: (Info, Option<PyError>))
    ensures page.HttpError? ==> r == (i, None)
    ensures page.Fetched? ==> r == RevsearchText(i, page.body)
    ensures Valid(i) ==> Valid(r.0)
  {
    match page
    case HttpError => (i, None)
    case Fetched(text) => RevsearchText(i, text)
  }

  /** The array text of a page that starts with the marker is what follows
      it up to the first "]". */
  lemma HandlerOfPage(data: string, rest: string)
    requires ']' !in data
    ensures HandlerData(HANDLER_BEGIN + data + "]" + rest) == Some(data)
  {
    var text := HANDLER_BEGIN + data + "]" + rest;
    assert OccursAt(text, HANDLER_BEGIN, 0) by {
      assert text[..|HANDLER_BEGIN|] == HANDLER_BEGIN;
    }
    var content := text[|HANDLER_BEGIN|..];
    assert content == data + "]" + rest;
    assert content[..|data|] == data;
    FindCharAt(content, ']', |data|);
  }

  /** Fields without commas come back out of the array text: the name is
      field 15 and the city field 6, each stripped of quotes and spaces. */
  lemma RevNameOfFields(fields: seq<string>)
    requires |fields| >= 15
    requires forall k :: 0 <= k < |fields| ==> ',' !in fields[k]
    ensures RevName(Join(fields, ',')) == Ok(StripChars(fields[14], QuoteOrSpace) + ", " + StripChars(fields[5], QuoteOrSpace))
    ensures IsStripped(StripChars(fields[14], QuoteOrSpace), QuoteOrSpace) && IsStripped(StripChars(fields[5], QuoteOrSpace), QuoteOrSpace)
  {
    SplitOfJoinAll(fields, ',');
    StripCharsResult(fields[14], QuoteOrSpace);
    StripCharsResult(fields[5], QuoteOrSpace);
  }

  // ---------------------------------------------------------------- combined

  /** `get_tellows_and_revsearch`: reverse search, then the score service;
      the reverse-search name survives only when strictly longer, and the
      tag becomes TEL_AND_REV.  An exception stops it midway. */
  function Combined(i: Info, page: Fetch<string>, response: Fetch<TellowsRecord>): (r: (Info, Option<PyError>))
    ensures r.1.None? <==> Revsearch(i, page).1.None? && Tellows(Revsearch(i, page).0, response).1.None?
    ensures r.1.Some? ==> r == Revsearch(i, page) || r == Tellows(Revsearch(i, page).0, response)
    ensures Valid(i) ==> Valid(r.0)
    ensures r.1.None? ==>
              var rev := Revsearch(i, page).0.name;
              var scored := Tellows(Revsearch(i, page).0, response).0;
              && r.0 == scored.(tag := TEL_AND_REV, name := r.0.name)
              && (r.0.name == rev || r.0.name == scored.name)
              && |r.0.name| >= |rev| && |r.0.name| >= |scored.name|
              && (|rev| <= |scored.name| ==> r.0.name == scored.name)
  {
    var (revised, e1) := Revsearch(i, page);
    if e1.Some? then (revised, e1)
    else
      var (scored, e2) := Tellows(revised, response);
      if e2.Some? then (scored, e2)
      else
        var named := if |revised.name| > |scored.name| then scored.(name := revised.name) else scored;
        (named.(tag := TEL_AND_REV), None)
  }

  // ---------------------------------------------------------------- __str__

  const SCORE_TAG := " score:"

  /** Number and name. */
  function Head(i: Info): string
  {
    "number:" + i.number + " name:" + i.name
  }

  /** `__str__`: number and name, and the score for the tags 1 and 2; a
      score that was never assigned raises AttributeError there. */
  function Show(i: Info): (r: Result<string, PyError>)
    ensures r.Err? <==> (i.tag == TELLOWS_SCORE || i.tag == TEL_AND_REV) && i.score.None?
    ensures r.Err? ==> r.error == AttributeError
    ensures r.Ok? ==> Head(i) <= r.value
    ensures r.Ok? && i.tag != TELLOWS_SCORE && i.tag != TEL_AND_REV ==> r.value == Head(i)
  {
    if i.tag == TELLOWS_SCORE || i.tag == TEL_AND_REV then
      if i.score.None? then Err(AttributeError)
      else Ok(Head(i) + SCORE_TAG + IntToString(i.score.value))
    else Ok(Head(i))
  }

  /** What follows the head and " score:" reads back as the score. */
  lemma ShowScoreReadsBack(i: Info)
    requires Show(i).Ok? && (i.tag == TELLOWS_SCORE || i.tag == TEL_AND_REV)
    ensures |Show(i).value| >= |Head(i) + SCORE_TAG|
    ensures ParseInt(Show(i).value[|Head(i) + SCORE_TAG|..]) == i.score
  {
    assert Show(i).value[|Head(i) + SCORE_TAG|..] == IntToString(i.score.value);
    ParseIntOfIntToString(i.score.value);
  }

  // ---------------------------------------------------------------- the record

  class CallInfo {
    var number: string
    var name: string
    var tag: int
    var score: Option<int>
    var comments: Option<int>
    var searches: Option<string>
    var location: Option<string>

    /** The current field values. */
    function Snapshot(): Info
      reads this
    {
      Info(number, name, tag, score, comments, searches, location)
    }

    constructor (number: string, unknownName: string)
      ensures Snapshot() == Initial(number, unknownName)
    {
      this.number := number;
      name := unknownName;
      tag := INIT;
      score, comments, searches, location := None, None, None, None;
    }

    method GetTellowsAndRevsearch(page: Fetch<string>, response: Fetch<TellowsRecord>) returns (error: Option<PyError>)
      modifies this
      ensures (Snapshot(), error) == Combined(old(Snapshot()), page, response)
    {
      error := GetRevsearchInfo(page);
      if error.Some? {
        return;
      }
      var revName := name;
      error := GetTellowsScore(response);
      if error.Some? {
        return;
      }
      if |revName| > |name| {
        name := revName;
      }
      tag := TEL_AND_REV;
    }

    method GetTellowsScore(response: Fetch<TellowsRecord>) returns (error: Option<PyError>)
      modifies this
      ensures (Snapshot(), error) == Tellows(old(Snapshot()), response)
    {
      if response.HttpError? {
        return None;
      }
      var rec := response.body;
      if rec.score.None? {
        return Some(ValueError);
      }
      score := rec.score;
      if rec.comments.None? {
        return Some(ValueError);
      }
      comments := rec.comments;
      searches := Some(rec.searches);
      location := Some(rec.location);
      var callerName := "";
      if rec.callerTypes.Some? {
        var known := ScanCallerTypes(rec.callerTypes.value);
        if known.Some? {
          callerName := known.value + ", ";
        }
      }
      name := callerName + rec.location;
      tag := TELLOWS_SCORE;
      return None;
    }

    method GetRevsearchInfo(page: Fetch<string>) returns (error: Option<PyError>)
      modifies this
      ensures (Snapshot(), error) == Revsearch(old(Snapshot()), page)
    {
      if page.HttpError? {
        return None;
      }
      var content := page.body;
      var begin := Find(content, HANDLER_BEGIN);
      if begin != -1 {
        content := content[begin + |HANDLER_BEGIN|..];
        var end := Find(content, "]");
        if end != -1 {
          content := content[..end];
          assert HandlerData(page.body) == Some(content);
          var parts := Split(content, ',');
          if |parts| <= 5 {
            return Some(IndexError);
          }
          var city := StripChars(parts[5], QuoteOrSpace);
          if |parts| <= 14 {
            return Some(IndexError);
          }
          var found := StripChars(parts[14], QuoteOrSpace);
          name := found + ", " + city;
          tag := REV_SEARCH;
        }
      }
      return None;
    }
  }

  // ---------------------------------------------------------------- properties

  /** A record tagged by the score service always prints, ending with its
      score; a combined lookup whose score request failed does not. */
  lemma ShowScored(i: Info, number: string, unknownName: string)
    requires Valid(i) && i.tag == TELLOWS_SCORE
    ensures Show(i).Ok?
    ensures Show(Combined(Initial(number, unknownName), HttpError, HttpError).0) == Err(AttributeError)
  {
  }
}
