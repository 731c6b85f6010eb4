/**
 * The call blocker of the root revision: RING events only, a whitelist
 * checked on the number as dialled and on one variant of it, a blacklist
 * checked on the full number, and a block decided by the score service
 * alone, written to the blacklist itself.
 */
module RootCallBlocker {
  import opened Wrappers
  import opened PyStr
  import opened PyInt
  import opened Contacts
  import opened Lookups
  import CM = A1CallMonitor
  import CP = RootCallPrefix
  import RP = RootPhonebook
  import PB = A1Phonebook
  import CB = A1CallBlocker

  /** What `requests.get(url).json()['tellows']` gives: the decoded record,
      or the exception decoding it raised (this revision does not look at
      the HTTP status). */
  type ScoreReply = Result<TellowsRecord, PyError>

  /** The fields of a `CallBlocker` that change, and the lines handed to its
      logger. */
  datatype State = State(whitelist: map<string, string>, blacklist: map<string, string>, log: seq<string>)

  /** What one call-monitor line leads to: the `add_contact` call made (as
      the entry it writes) and the exception raised, if any. */
  datatype Outcome = Outcome(added: Option<Request>, error: Option<PyError>)

  /** `number_variant`, the second number the whitelist is searched for: a
      local number with the area code in front, a number starting with the
      area code with every occurrence of it removed, otherwise the number. */
  function Variant(number: string, areaCode: string): string
  {
    if !("0" <= number) then areaCode + number
    else if areaCode <= number then ReplaceAll(number, areaCode, "")
    else number
  }

  /** The name a blocked number is written under. */
  function BlockName(location: string, searches: string): string
  {
    "CallBlock " + location + " (" + searches + ")"
  }

  /** The logger line of a block. */
  function BlockedEntry(number: string, name: string, score: int, comments: int): string
  {
    "BLOCKED:" + number + ";name:" + name + ";score:" + IntToString(score) + ";comments:" + IntToString(comments) + ";"
  }

  /** `get_all_numbers` for one book id; an id the router does not serve
      fails in the router library. */
  function BookNumbers(pbId: int, books: map<int, seq<Contact>>): Result<map<string, string>, PyError>
  {
    if pbId !in books then Err(VendorError) else RP.AllNumbers(books[pbId], false)
  }

  class CallBlocker {
    const whitelistPbId: int
    const blacklistPbId: int
    const minScore: int
    const minComments: int
    /** Whether a logger was given. */
    const logging: bool
    /** The ONB table and the router's codes; `init_onb` and
        `set_area_and_country_code` of this class are the code of the
        root `CallPrefix`. */
    const prefix: CP.CallPrefix
    const areaCode: string

    var whitelist: map<string, string>
    var blacklist: map<string, string>
    var log: seq<string>

    function Snapshot(): State
      reads this
    {
      State(whitelist, blacklist, log)
    }

    constructor (whitelistPbId: int, blacklistPbId: int, minScore: int, minComments: int, logging: bool,
                 prefix: CP.CallPrefix, areaCode: string)
      ensures this.whitelistPbId == whitelistPbId && this.blacklistPbId == blacklistPbId
      ensures this.minScore == minScore && this.minComments == minComments && this.logging == logging
      ensures this.prefix == prefix && this.areaCode == areaCode
      ensures Snapshot() == State(map[], map[], [])
    {
      this.whitelistPbId := whitelistPbId;
      this.blacklistPbId := blacklistPbId;
      this.minScore := minScore;
      this.minComments := minComments;
      this.logging := logging;
      this.prefix := prefix;
      this.areaCode := areaCode;
      whitelist, blacklist, log := map[], map[], [];
    }

    /** The logger call, when there is a logger. */
    function Logged(s: State, line: string): (r: State)
      ensures r.whitelist == s.whitelist && r.blacklist == s.blacklist
      ensures r.log == if logging then s.log + [line] else s.log
    {
      if logging then s.(log := s.log + [line]) else s
    }

    /** Steps 3 and 4: the score reply decides alone; a block writes the
        number to the blacklist under a name built from the reply. */
    function Rated(s: State, number: string, fullNumber: string, reply: ScoreReply): (r: (State, Outcome))
      ensures r.0.whitelist == s.whitelist && r.0.blacklist == s.blacklist
      ensures r.1.added.Some? <==> && reply.Ok? && reply.value.score.Some? && reply.value.comments.Some?
                                   && reply.value.score.value >= minScore && reply.value.comments.value >= minComments
      ensures r.1.added.Some? ==>
                var rec := reply.value;
                var name := BlockName(rec.location, rec.searches);
                && r.1.added.value == SetPhonebookEntry(blacklistPbId, name, fullNumber)
                && r.0 == Logged(s, BlockedEntry(number, name, rec.score.value, rec.comments.value))
      ensures r.1.added.None? ==> r.0 == s
      ensures r.1.error.Some? <==> reply.Err? || reply.value.score.None? || reply.value.comments.None?
    {
      if reply.Err? then (s, Outcome(None, Some(reply.error)))
      else
        var rec := reply.value;
        if rec.score.None? || rec.comments.None? then (s, Outcome(None, Some(ValueError)))
        else if rec.score.value >= minScore && rec.comments.value >= minComments then
          var name := BlockName(rec.location, rec.searches);
          (Logged(s, BlockedEntry(number, name, rec.score.value, rec.comments.value)),
           Outcome(Some(RP.AddContact(blacklistPbId, name, fullNumber)), None))
        else (s, Outcome(None, None))
    }

    /** `parse_and_examine_line` */
    function Examined(s: State, raw: string, reply: ScoreReply): (r: (State, Outcome))
      ensures r.0.whitelist == s.whitelist && r.0.blacklist == s.blacklist
      ensures r.0.log == s.log || (logging && |r.0.log| == |s.log| + 1 && r.0.log[..|s.log|] == s.log)
    {
      var cm := CM.Parse(raw);
      if cm.Err? then (s, Outcome(None, Some(cm.error)))
      else if cm.value.kind != "RING" then (s, Outcome(None, None))
      else
        var number := if cm.value.caller.Some? then cm.value.caller.value else "";
        Screened(s, number, reply)
    }

    /** The ringing number against the lists, then the score reply. */
    function Screened(s: State, number: string, reply: ScoreReply): (r: (State, Outcome))
      ensures r.0.whitelist == s.whitelist && r.0.blacklist == s.blacklist
      ensures r.0.log == s.log || (logging && |r.0.log| == |s.log| + 1 && r.0.log[..|s.log|] == s.log)
    {
      var fullNumber := CB.FullNumber(number, areaCode);
      if number in s.whitelist || Variant(number, areaCode) in s.whitelist then
        (Logged(s, "WHITELISTED:" + number), Outcome(None, None))
      else if fullNumber in s.blacklist then
        (Logged(s, "BLACKLISTED:" + number), Outcome(None, None))
      else Rated(s, number, fullNumber, reply)
    }

    /** The lists read in `__init__`, whitelist first. */
    method ReadLists(books: map<int, seq<Contact>>) returns (error: Option<PyError>)
      modifies this
      ensures var white, black := BookNumbers(whitelistPbId, books), BookNumbers(blacklistPbId, books);
              && (error.None? <==> white.Ok? && black.Ok?)
              && (error.None? ==> Snapshot() == old(Snapshot()).(whitelist := white.value, blacklist := black.value))
    {
      if whitelistPbId !in books {
        return Some(VendorError);
      }
      var white := RP.GetAllNumbers(books[whitelistPbId], false);
      if white.Err? {
        return Some(white.error);
      }
      whitelist := white.value;
      if blacklistPbId !in books {
        return Some(VendorError);
      }
      var black := RP.GetAllNumbers(books[blacklistPbId], false);
      if black.Err? {
        return Some(black.error);
      }
      blacklist := black.value;
      return None;
    }

    method LogLine(line: string)
      modifies this
      ensures Snapshot() == Logged(old(Snapshot()), line)
    {
      if logging {
        log := log + [line];
      }
    }

    method ParseAndExamineLine(rawLine: string, reply: ScoreReply) returns (out: Outcome)
      modifies this
      ensures (Snapshot(), out) == Examined(old(Snapshot()), rawLine, reply)
    {
      var cmLine := CM.Parse(rawLine);
      if cmLine.Err? {
        return Outcome(None, Some(cmLine.error));
      }
      if cmLine.value.kind != "RING" {
        return Outcome(None, None);
      }
      var number := if cmLine.value.caller.Some? then cmLine.value.caller.value else "";
      out := ScreenNumber(number, reply);
    }

    /** The list checks of `parse_and_examine_line`. */
    method ScreenNumber(number: string, reply: ScoreReply) returns (out: Outcome)
      modifies this
      ensures (Snapshot(), out) == Screened(old(Snapshot()), number, reply)
    {
      var numberVariant := number;
      if areaCode <= number {
        numberVariant := ReplaceAll(number, areaCode, "");
      }
      var fullNumber;
      if "0" <= number {
        fullNumber := number;
      } else {
        numberVariant := areaCode + number;
        fullNumber := numberVariant;
      }
      if number in whitelist || numberVariant in whitelist {
        LogLine("WHITELISTED:" + number);
        return Outcome(None, None);
      }
      if fullNumber in blacklist {
        LogLine("BLACKLISTED:" + number);
        return Outcome(None, None);
      }
      out := RateNumber(number, fullNumber, reply);
    }

    /** The score part of `parse_and_examine_line`. */
    method RateNumber(number: string, fullNumber: string, reply: ScoreReply) returns (out: Outcome)
      modifies this
      ensures (Snapshot(), out) == Rated(old(Snapshot()), number, fullNumber, reply)
    {
      if reply.Err? {
        return Outcome(None, Some(reply.error));
      }
      var obj := reply.value;
      if obj.score.None? || obj.comments.None? {
        return Outcome(None, Some(ValueError));
      }
      var score := obj.score.value;
      var commentCount := obj.comments.value;
      if score >= minScore && commentCount >= minComments {
        var name := "CallBlock " + obj.location + " (" + obj.searches + ")";
        var result := RP.AddContact(blacklistPbId, name, fullNumber);
        LogLine(BlockedEntry(number, name, score, commentCount));
        return Outcome(Some(result), None);
      }
      return Outcome(None, None);
    }
  }

  /** `CallBlocker.__init__`: the ONB table and the router's codes first,
      then both phone book ids must exist, then both lists are read. */
  method NewCallBlocker(whitelistPbId: int, blacklistPbId: int, minScore: int, minComments: int, logging: bool,
                        onb: seq<seq<string>>, okzPrefix: string, okz: string, lkzPrefix: string, lkz: string,
                        phonebookIds: seq<int>, books: map<int, seq<Contact>>)
    returns (r: Result<CallBlocker, PyError>)
    ensures var white, black := BookNumbers(whitelistPbId, books), BookNumbers(blacklistPbId, books);
            && (r.Ok? <==> && CP.OnbTable(onb).1.None? && whitelistPbId in phonebookIds && blacklistPbId in phonebookIds
                           && white.Ok? && black.Ok?)
            && (CP.OnbTable(onb).1.None? && whitelistPbId !in phonebookIds ==>
                  r == Err(Raised("The phonebook_id " + IntToString(whitelistPbId) + " does not exist!")))
            && (r.Ok? ==> && fresh(r.value) && r.value.Snapshot() == State(white.value, black.value, [])
                          && r.value.whitelistPbId == whitelistPbId && r.value.blacklistPbId == blacklistPbId
                          && r.value.minScore == minScore && r.value.minComments == minComments
                          && r.value.logging == logging && r.value.areaCode == okzPrefix + okz
                          && r.value.prefix.onbDict == CP.OnbTable(onb).0)
  {
    var cp := new CP.CallPrefix();
    var onbError := cp.Init(onb, okzPrefix, okz, lkzPrefix, lkz);
    if onbError.Some? {
      return Err(onbError.value);
    }
    var cb := new CallBlocker(whitelistPbId, blacklistPbId, minScore, minComments, logging, cp, cp.areaCode);
    var ids := [whitelistPbId, blacklistPbId];
    var invalid := PB.EnsurePbIdsValid(ids, phonebookIds);
    if invalid.Some? {
      assert whitelistPbId in phonebookIds ==> ids[0] in phonebookIds;
      return Err(invalid.value);
    }
    assert ids[0] in phonebookIds && ids[1] in phonebookIds;
    var error := cb.ReadLists(books);
    if error.Some? {
      return Err(error.value);
    }
    return Ok(cb);
  }

  // ---------------------------------------------------------------- properties

  /** Only RING lines are examined: any other line changes nothing and
      writes nothing. */
  lemma OnlyRingExamined(cb: CallBlocker, s: State, raw: string, reply: ScoreReply)
    requires CM.Parse(raw).Ok? && CM.Parse(raw).value.kind != "RING"
    ensures cb.Examined(s, raw, reply) == (s, Outcome(None, None))
  {
  }

  /** The whitelist is consulted first: a hit on the number or its variant
      logs WHITELISTED whatever the blacklist and the score say. */
  lemma WhitelistFirst(cb: CallBlocker, s: State, raw: string, reply: ScoreReply)
    requires CM.Parse(raw).Ok? && CM.Parse(raw).value.kind == "RING"
    requires var number := CM.Parse(raw).value.caller.value;
             number in s.whitelist || Variant(number, cb.areaCode) in s.whitelist
    ensures var number := CM.Parse(raw).value.caller.value;
            cb.Examined(s, raw, reply) == (cb.Logged(s, "WHITELISTED:" + number), Outcome(None, None))
  {
    CallerOfRing(raw);
  }

  /** The blacklist is searched for the full number only: a number listed
      there only in its local form is rated like any other. */
  lemma BlacklistOnFullNumber(cb: CallBlocker, s: State, raw: string, reply: ScoreReply)
    requires CM.Parse(raw).Ok? && CM.Parse(raw).value.kind == "RING"
    requires var number := CM.Parse(raw).value.caller.value;
             number !in s.whitelist && Variant(number, cb.areaCode) !in s.whitelist
    ensures var number := CM.Parse(raw).value.caller.value;
            var full := CB.FullNumber(number, cb.areaCode);
            cb.Examined(s, raw, reply) ==
              if full in s.blacklist then (cb.Logged(s, "BLACKLISTED:" + number), Outcome(None, None))
              else cb.Rated(s, number, full, reply)
  {
    CallerOfRing(raw);
  }

  /** The caller field of a parsed RING line is present. */
  lemma CallerOfRing(raw: string)
    requires CM.Parse(raw).Ok? && CM.Parse(raw).value.kind == "RING"
    ensures CM.Parse(raw).value.caller.Some?
  {
    assert CM.TypeOf("RING") == Some(CM.RING);
  }

  /** How the variant is formed: a local number gets the area code in front
      (and is then also the full number); a qualified number starting with
      the area code loses every occurrence of it. */
  lemma VariantRules(number: string, areaCode: string)
    ensures !("0" <= number) ==> Variant(number, areaCode) == areaCode + number == CB.FullNumber(number, areaCode)
    ensures "0" <= number && areaCode <= number ==> Variant(number, areaCode) == ReplaceAll(number, areaCode, "")
    ensures "0" <= number ==> CB.FullNumber(number, areaCode) == number
  {
  }

  /** For a local number the whitelist variant is the second number the
      a1fbox revision looks up, and the number the blacklist is searched
      for. */
  lemma LocalVariantMatchesA1(number: string, areaCode: string)
    requires number != [] && number[0] != '0' && areaCode != [] && areaCode[0] == '0'
    ensures [number, Variant(number, areaCode)] == PB.Candidates(number, areaCode, "")
    ensures Variant(number, areaCode) == CB.FullNumber(number, areaCode)
  {
    CB.FullNumberFindsLocalEntry(number, areaCode);
    assert !("0" <= number);
  }
}
