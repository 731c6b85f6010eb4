/**
 * The prefix table of the root revision (`CallPrefix`): the ONB rows only,
 * read with a hand-kept line counter, and the router's own area entry.
 */
module RootCallPrefix {
  import opened Wrappers
  import opened PyStr
  import opened Prefixes

  /** One entry of `onb_dict`: `{'code', 'name', 'active'}`. */
  datatype Area = Area(code: string, name: string, active: bool)

  function Code(a: Area): string
  {
    a.code
  }

  /** The entry of an ONB data row: active when the flag is "1". */
  function AreaOfRow(row: seq<string>): Area
  {
    if |row| >= 3 then Area(OnbKey(row), row[1], row[2] == "1") else Area(OnbKey(row), "", false)
  }

  /** What `init_onb` leaves in `onb_dict`, and the exception that stops it. */
  function OnbTable(onb: seq<seq<string>>): (r: (map<string, Area>, Option<PyError>))
    ensures r.1.None? <==> onb == [] || (|onb[0]| >= 3 && onb[0][..3] == ["Ortsnetzkennzahl", "Ortsnetzname", "KennzeichenAktiv"])
    ensures r.1.Some? ==> r.0 == map[] && (r.1.value == IndexError || r.1.value == AssertionError)
  {
    if onb != [] && OnbHeaderError(onb[0]).Some? then (map[], OnbHeaderError(onb[0]))
    else (WithRows(map[], OnbData(onb), 3, OnbKey, AreaOfRow), None)
  }

  class CallPrefix {
    var onbDict: map<string, Area>
    var areaCode: string
    var countryCode: string
    var area: Option<Area>

    /** The object before `__init__` has run. */
    constructor ()
      ensures onbDict == map[] && areaCode == [] && countryCode == [] && area == None
    {
      onbDict, areaCode, countryCode, area := map[], [], [], None;
    }

    /** `__init__`: the ONB table first, then the router's codes.  The
        router's answers and the file's rows are parameters. */
    method Init(onb: seq<seq<string>>, okzPrefix: string, okz: string, lkzPrefix: string, lkz: string)
      returns (error: Option<PyError>)
      modifies this
      ensures (onbDict, error) == OnbTable(onb)
      ensures error.None? ==> areaCode == okzPrefix + okz && countryCode == lkzPrefix + lkz
      ensures error.None? ==> (area.Some? <==> areaCode in onbDict)
      ensures error.None? && area.Some? ==> area.value == onbDict[areaCode]
    {
      error := InitOnb(onb);
      if error.None? {
        SetAreaAndCountryCode(okzPrefix, okz, lkzPrefix, lkz);
      }
    }

    /** `set_area_and_country_code`: the codes the router reports, and the
        ONB entry of the area code when there is one. */
    method SetAreaAndCountryCode(okzPrefix: string, okz: string, lkzPrefix: string, lkz: string)
      modifies this
      ensures areaCode == okzPrefix + okz && countryCode == lkzPrefix + lkz
      ensures onbDict == old(onbDict)
      ensures area.Some? <==> areaCode in onbDict
      ensures area.Some? ==> area.value == onbDict[areaCode]
    {
      areaCode := okzPrefix + okz;
      countryCode := lkzPrefix + lkz;
      area := if areaCode in onbDict then Some(onbDict[areaCode]) else None;
    }

    /** `init_onb`: the header row is checked, then every row of three fields
        is stored under '0' and its area code; the line counter tells the
        header from the rest. */
    method InitOnb(onb: seq<seq<string>>) returns (error: Option<PyError>)
      modifies this
      ensures (onbDict, error) == OnbTable(onb)
      ensures areaCode == old(areaCode) && countryCode == old(countryCode) && area == old(area)
    {
      onbDict := map[];
      var lineNr := 0;
      for i := 0 to |onb|
        invariant lineNr == i
        invariant areaCode == old(areaCode) && countryCode == old(countryCode) && area == old(area)
        invariant i > 0 ==> OnbHeaderError(onb[0]).None?
        invariant onbDict == WithRows(map[], if i == 0 then [] else onb[1..i], 3, OnbKey, AreaOfRow)
      {
        var row := onb[i];
        if lineNr == 0 {
          var header := OnbHeaderError(row);
          if header.Some? {
            return header;
          }
          assert onb[1..1] == [];
          lineNr := lineNr + 1;
          continue;
        }
        if |row| == 3 {
          var areaCode := "0" + row[0];
          var name := row[1];
          var active := row[2] == "1";
          onbDict := onbDict[areaCode := Area(areaCode, name, active)];
        }
        lineNr := lineNr + 1;
        assert onb[1..i + 1][..i - 1] == onb[1..i];
      }
      if onb != [] {
        assert onb[1..|onb|] == OnbData(onb);
      }
      return None;
    }
  }

  // ---------------------------------------------------------------- properties

  /** Every entry is stored under its own code. */
  lemma OnbTableCodes(onb: seq<seq<string>>)
    ensures CodesAreKeys(OnbTable(onb).0, Code)
  {
    WithRowsCodes(map[], OnbData(onb), 3, OnbKey, AreaOfRow, Code);
  }

  /** The keys of the table are exactly '0' and the area code of the data
      rows of three fields. */
  lemma OnbTableKeys(onb: seq<seq<string>>, k: string)
    requires OnbTable(onb).1.None?
    ensures k in OnbTable(onb).0 <==> KeyOfRow(OnbData(onb), 3, OnbKey, k)
  {
    WithRowsKeys(map[], OnbData(onb), 3, OnbKey, AreaOfRow, k);
  }

  /** A data row of three fields whose key no later such row has is the
      entry under its key: its name, active exactly when the flag is "1". */
  lemma OnbRowStays(onb: seq<seq<string>>, i: nat)
    requires 1 <= i < |onb| && |onb[i]| == 3
    requires OnbHeaderError(onb[0]).None?
    requires forall l :: i < l < |onb| && |onb[l]| == 3 ==> OnbKey(onb[l]) != OnbKey(onb[i])
    ensures "0" + onb[i][0] in OnbTable(onb).0
    ensures OnbTable(onb).0["0" + onb[i][0]] == Area("0" + onb[i][0], onb[i][1], onb[i][2] == "1")
  {
    var data := OnbData(onb);
    assert data[i - 1] == onb[i];
    forall l | i - 1 < l < |data| && |data[l]| == 3 ensures OnbKey(data[l]) != OnbKey(data[i - 1]) {
      assert data[l] == onb[l + 1];
    }
    WithRowsLast(map[], data, 3, OnbKey, AreaOfRow, i - 1);
  }
}
