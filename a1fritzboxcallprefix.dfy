/**
 * The prefix resolver of the a1fritzbox revision (`CallPrefix`): the ONB and
 * RNB rows only, entries with an active and a mobile flag, and a lookup of
 * the raw number by its longest known prefix of 6 down to 3 digits.
 */
module A1FritzboxCallPrefix {
  import opened Wrappers
  import opened PyStr
  import opened Prefixes

  /** `CallPrefixType`, declared but not used by the table. */
  datatype CallPrefixType = LANDLINE | MOBILE | OTHER | COUNTRY
  {
    function Value(): int
    {
      match this
      case LANDLINE => 0
      case MOBILE => 1
      case OTHER => 2
      case COUNTRY => 99
    }
  }

  /** One entry of `prefix_dict`: `{'code', 'name', 'active', 'mobile'}`. */
  datatype Entry = Entry(code: string, name: string, active: bool, mobile: bool)

  function Code(e: Entry): string
  {
    e.code
  }

  /** A mobile entry is always active. */
  predicate ActiveIfMobile(e: Entry)
  {
    e.mobile ==> e.active
  }

  /** The entry of an ONB data row: landline, active when the flag is "1". */
  function OnbEntry(row: seq<string>): Entry
  {
    if |row| >= 3 then Entry(OnbKey(row), row[1], row[2] == "1", false)
    else Entry(OnbKey(row), "", false, false)
  }

  /** The entry of an RNB row: mobile and active. */
  function RnbEntry(row: seq<string>): Entry
  {
    Entry(RnbKey(row), if |row| >= 2 then row[1] else "", true, true)
  }

  /** The table after the ONB rows. */
  function Landline(onb: seq<seq<string>>): map<string, Entry>
  {
    WithRows(map[], OnbData(onb), 3, OnbKey, OnbEntry)
  }

  /** What `init_prefix_dict` leaves in `prefix_dict`, and the exception that
      stops it: a bad ONB header leaves the table empty. */
  function PrefixTable(onb: seq<seq<string>>, rnb: seq<seq<string>>): (r: (map<string, Entry>, Option<PyError>))
    ensures r.1.None? <==> onb == [] || (|onb[0]| >= 3 && onb[0][..3] == ["Ortsnetzkennzahl", "Ortsnetzname", "KennzeichenAktiv"])
    ensures r.1.Some? ==> r.0 == map[] && (r.1.value == IndexError || r.1.value == AssertionError)
  {
    if onb != [] && OnbHeaderError(onb[0]).Some? then (map[], OnbHeaderError(onb[0]))
    else (WithRows(Landline(onb), rnb, 2, RnbKey, RnbEntry), None)
  }

  class CallPrefix {
    var prefixDict: map<string, Entry>
    var areaCode: string
    var countryCode: string
    var areaCodeDict: Option<Entry>
    var areaCodeName: string

    /** `__init__`: the table first, then the router's codes.  The router's
        answers and the files' contents are parameters. */
    method Init(onb: seq<seq<string>>, rnb: seq<seq<string>>, okzPrefix: string, okz: string, lkzPrefix: string, lkz: string)
      returns (error: Option<PyError>)
      modifies this
      ensures (prefixDict, error) == PrefixTable(onb, rnb)
      ensures error.None? ==> areaCode == okzPrefix + okz && countryCode == lkzPrefix + lkz
      ensures error.None? ==> areaCodeName == GetPrefixName(prefixDict, areaCode)
    {
      error := InitPrefixDict(onb, rnb);
      if error.None? {
        InitAreaAndCountryCode(okzPrefix, okz, lkzPrefix, lkz);
      }
    }

    /** `init_area_and_country_code`: the codes the router reports and what
        the table says about the area code. */
    method InitAreaAndCountryCode(okzPrefix: string, okz: string, lkzPrefix: string, lkz: string)
      modifies this
      ensures areaCode == okzPrefix + okz && countryCode == lkzPrefix + lkz
      ensures prefixDict == old(prefixDict)
      ensures areaCodeDict == GetPrefixDict(prefixDict, areaCode)
      ensures areaCodeName == GetPrefixName(prefixDict, areaCode)
    {
      areaCode := okzPrefix + okz;
      countryCode := lkzPrefix + lkz;
      areaCodeDict := GetPrefixDict(prefixDict, areaCode);
      areaCodeName := GetPrefixName(prefixDict, areaCode);
    }

    /** `init_prefix_dict`: the ONB rows (header checked, three-field rows
        only), then the RNB rows (two-field rows only). */
    method InitPrefixDict(onb: seq<seq<string>>, rnb: seq<seq<string>>) returns (error: Option<PyError>)
      modifies this
      ensures (prefixDict, error) == PrefixTable(onb, rnb)
      ensures areaCode == old(areaCode) && countryCode == old(countryCode)
    {
      prefixDict := map[];
      for i := 0 to |onb|
        invariant areaCode == old(areaCode) && countryCode == old(countryCode)
        invariant i > 0 ==> OnbHeaderError(onb[0]).None?
        invariant prefixDict == WithRows(map[], if i == 0 then [] else onb[1..i], 3, OnbKey, OnbEntry)
      {
        var row := onb[i];
        if i == 0 {
          var header := OnbHeaderError(row);
          if header.Some? {
            return header;
          }
          assert onb[1..1] == [];
          continue;
        }
        if |row| == 3 {
          var areaCode := "0" + row[0];
          var name := row[1];
          var active := row[2] == "1";
          prefixDict := prefixDict[areaCode := Entry(areaCode, name, active, false)];
        }
        assert onb[1..i + 1][..i - 1] == onb[1..i];
      }
      if onb != [] {
        assert onb[1..|onb|] == OnbData(onb);
      }
      assert prefixDict == Landline(onb);
      ghost var landline := prefixDict;
      for j := 0 to |rnb|
        invariant areaCode == old(areaCode) && countryCode == old(countryCode)
        invariant prefixDict == WithRows(landline, rnb[..j], 2, RnbKey, RnbEntry)
      {
        var row := rnb[j];
        if |row| == 2 {
          var areaCode := ReplaceAll(ReplaceAll(row[0], "-", ""), "(0)", "0");
          prefixDict := prefixDict[areaCode := Entry(areaCode, row[1], true, true)];
        }
        assert rnb[..j + 1][..j] == rnb[..j];
      }
      assert rnb[..|rnb|] == rnb;
      return None;
    }
  }

  /** `get_prefix_dict`: the entry of the first of `number[:6]` down to
      `number[:3]` that is in the table; the own country code plays no part. */
  function GetPrefixDict(table: map<string, Entry>, number: string): Option<Entry>
  {
    FirstHit(table, Slices(number, 6, 3))
  }

  /** `get_prefix_name`: the name of the matched entry, else "ABROAD" for a
      number starting with "00", else "UNKNOWN". */
  function GetPrefixName(table: map<string, Entry>, number: string): (r: string)
    ensures GetPrefixDict(table, number).Some? ==> r == GetPrefixDict(table, number).value.name
    ensures GetPrefixDict(table, number).None? ==> r == (if "00" <= number then "ABROAD" else "UNKNOWN")
  {
    var found := GetPrefixDict(table, number);
    NameOrFallback(if found.Some? then Some(found.value.name) else None, number)
  }

  // ---------------------------------------------------------------- properties

  /** Every entry is stored under its own code, and every mobile entry is
      active, whatever the files hold. */
  lemma PrefixTableEntries(onb: seq<seq<string>>, rnb: seq<seq<string>>)
    ensures CodesAreKeys(PrefixTable(onb, rnb).0, Code)
    ensures forall k :: k in PrefixTable(onb, rnb).0 ==> ActiveIfMobile(PrefixTable(onb, rnb).0[k])
  {
    WithRowsCodes(map[], OnbData(onb), 3, OnbKey, OnbEntry, Code);
    WithRowsCodes(Landline(onb), rnb, 2, RnbKey, RnbEntry, Code);
    WithRowsEntries(map[], OnbData(onb), 3, OnbKey, OnbEntry, ActiveIfMobile);
    WithRowsEntries(Landline(onb), rnb, 2, RnbKey, RnbEntry, ActiveIfMobile);
  }

  /** An RNB row of two fields whose key no later such row has ends up in the
      table as an active mobile entry, even over an ONB row with that key. */
  lemma RnbRowWins(onb: seq<seq<string>>, rnb: seq<seq<string>>, j: nat)
    requires onb == [] || OnbHeaderError(onb[0]).None?
    requires j < |rnb| && |rnb[j]| == 2
    requires forall l :: j < l < |rnb| && |rnb[l]| == 2 ==> RnbKey(rnb[l]) != RnbKey(rnb[j])
    ensures RnbKey(rnb[j]) in PrefixTable(onb, rnb).0
    ensures PrefixTable(onb, rnb).0[RnbKey(rnb[j])] == Entry(RnbKey(rnb[j]), rnb[j][1], true, true)
  {
    WithRowsLast(Landline(onb), rnb, 2, RnbKey, RnbEntry, j);
  }

  /** An ONB data row of three fields keeps its entry when no later ONB row
      and no RNB row has its key: a landline entry, active exactly when the
      flag is "1". */
  lemma OnbRowStays(onb: seq<seq<string>>, rnb: seq<seq<string>>, i: nat)
    requires 1 <= i < |onb| && |onb[i]| == 3
    requires OnbHeaderError(onb[0]).None?
    requires forall l :: i < l < |onb| && |onb[l]| == 3 ==> OnbKey(onb[l]) != OnbKey(onb[i])
    requires !KeyOfRow(rnb, 2, RnbKey, "0" + onb[i][0])
    ensures "0" + onb[i][0] in PrefixTable(onb, rnb).0
    ensures PrefixTable(onb, rnb).0["0" + onb[i][0]] == Entry("0" + onb[i][0], onb[i][1], onb[i][2] == "1", false)
  {
    var data := OnbData(onb);
    assert data[i - 1] == onb[i];
    forall l | i - 1 < l < |data| && |data[l]| == 3 ensures OnbKey(data[l]) != OnbKey(data[i - 1]) {
      assert data[l] == onb[l + 1];
    }
    WithRowsLast(map[], data, 3, OnbKey, OnbEntry, i - 1);
    WithRowsUntouched(Landline(onb), rnb, 2, RnbKey, RnbEntry, "0" + onb[i][0]);
  }

  /** The lookup finds the longest prefix of 3 to 6 characters of the number
      that is in the table, and nothing exactly when no such prefix is. */
  lemma LongestPrefix(table: map<string, Entry>, number: string)
    ensures var r := GetPrefixDict(table, number);
            && (r.None? <==> forall len :: 3 <= len <= 6 ==> Take(number, len) !in table)
            && (r.Some? ==> exists len :: && 3 <= len <= 6 && Take(number, len) in table && r.value == table[Take(number, len)]
                                          && forall longer :: len < longer <= 6 ==> Take(number, longer) !in table)
  {
    LongestSlice(table, number, 6, 3);
  }
}
