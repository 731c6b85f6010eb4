/**
 * The prefix resolver of the a1fbox revision (`CallPrefix`): a table from
 * dialling prefixes to their names and kinds, filled from the ONB rows
 * (German landline area codes), the RNB rows (German mobile prefixes) and
 * the country codes, and the lookup of a number by its longest known prefix
 * of 8 down to 3 digits, after a leading own country code is turned into a
 * leading '0'.
 */
module A1CallPrefix {
  import opened Wrappers
  import opened PyStr
  import opened Prefixes

  /** `CallPrefixType` */
  datatype CallPrefixType = UNKNOWN | DE_LANDLINE | DE_LANDLINE_INACTIVE | DE_MOBILE | COUNTRY
  {
    function Value(): int
    {
      match this
      case UNKNOWN => 0
      case DE_LANDLINE => 1
      case DE_LANDLINE_INACTIVE => 2
      case DE_MOBILE => 10
      case COUNTRY => 99
    }
  }

  /** One entry of `prefix_dict`: `{'code': …, 'name': …, 'kind': …}`. */
  datatype PrefixEntry = PrefixEntry(code: string, name: string, kind: CallPrefixType)

  function Code(e: PrefixEntry): string
  {
    e.code
  }

  // ---------------------------------------------------------------- the rows of the two CSV files

  /** The entry of an ONB data row: active area codes are DE_LANDLINE. */
  function OnbEntry(row: seq<string>): PrefixEntry
  {
    if |row| >= 3 then PrefixEntry(OnbKey(row), row[1], if row[2] == "1" then DE_LANDLINE else DE_LANDLINE_INACTIVE)
    else PrefixEntry(OnbKey(row), "", UNKNOWN)
  }

  function RnbEntry(row: seq<string>): PrefixEntry
  {
    PrefixEntry(RnbKey(row), if |row| >= 2 then row[1] else "", DE_MOBILE)
  }

  // ---------------------------------------------------------------- country codes

  /** `cc_name_dict`: country code to the names sharing it, with the codes in
      the order they were first inserted. */
  datatype CountryNames = CountryNames(order: seq<string>, names: map<string, string>)
  {
    /** The order lists every code of the dictionary, and nothing else. */
    ghost predicate Valid()
    {
      (forall i :: 0 <= i < |order| ==> order[i] in names) && (forall c :: c in names ==> c in order)
    }
  }

  /** The codes of one value of the country-code file: '+' and '-' removed,
      then split at " and " when it names two codes. */
  function CodesOf(code: string): (r: seq<string>)
    ensures |r| >= 1
  {
    var c := ReplaceAll(ReplaceAll(code, "+", ""), "-", "");
    if Contains(c, " and ") then SplitOn(c, " and ") else [c]
  }

  /** The inner loop over the codes of one value.  A code already present
      gets its names and ", " put in front of the name, and that merged name
      is what the next code of the same value receives, since the loop
      rebinds `name`. */
  function AddCodes(cc: CountryNames, codes: seq<string>, name: string): (r: CountryNames)
    ensures cc.Valid() ==> r.Valid()
    ensures cc.names.Keys <= r.names.Keys
    decreases |codes|
  {
    if codes == [] then cc
    else
      var c := codes[0];
      var merged := if c in cc.names then cc.names[c] + ", " + name else name;
      var order := if c in cc.names then cc.order else cc.order + [c];
      AddCodes(CountryNames(order, cc.names[c := merged]), codes[1..], merged)
  }

  /** An item with a non-blank phone code whose ISO code has no name. */
  predicate Unnamed(item: (string, string), isoNames: map<string, string>)
  {
    Strip(item.1) != [] && item.0 !in isoNames
  }

  /** The outer loop over the (ISO code, phone code) items: blank codes are
      skipped, a missing ISO name is a KeyError. */
  function AddCountries(cc: CountryNames, items: seq<(string, string)>, isoNames: map<string, string>): (r: Result<CountryNames, PyError>)
    ensures cc.Valid() && r.Ok? ==> r.value.Valid()
    ensures r.Err? ==> r.error == KeyError
  {
    if items == [] then Ok(cc)
    else
      var prev := AddCountries(cc, items[..|items| - 1], isoNames);
      var (iso2, code) := items[|items| - 1];
      if prev.Err? then prev
      else if Strip(code) == [] then prev
      else if iso2 !in isoNames then Err(KeyError)
      else Ok(AddCodes(prev.value, CodesOf(code), isoNames[iso2]))
  }

  /** One more item raises KeyError when the items before it did, or when it
      is itself unnamed. */
  lemma AddCountriesStepFails(cc: CountryNames, items: seq<(string, string)>, isoNames: map<string, string>)
    requires items != []
    ensures AddCountries(cc, items, isoNames).Err? <==>
              AddCountries(cc, items[..|items| - 1], isoNames).Err? || Unnamed(items[|items| - 1], isoNames)
  {
  }

  /** The loop raises KeyError exactly when some item with a non-blank code
      has an ISO code without a name. */
  lemma AddCountriesFails(cc: CountryNames, items: seq<(string, string)>, isoNames: map<string, string>)
    ensures AddCountries(cc, items, isoNames).Err? <==> exists k :: 0 <= k < |items| && Unnamed(items[k], isoNames)
  {
    if exists k :: 0 <= k < |items| && Unnamed(items[k], isoNames) {
      var k :| 0 <= k < |items| && Unnamed(items[k], isoNames);
      UnnamedFails(cc, items, isoNames, k);
    } else {
      NamedSucceeds(cc, items, isoNames);
    }
  }

  lemma {:induction false} UnnamedFails(cc: CountryNames, items: seq<(string, string)>, isoNames: map<string, string>, k: nat)
    requires k < |items| && Unnamed(items[k], isoNames)
    ensures AddCountries(cc, items, isoNames).Err?
  {
    var init := items[..|items| - 1];
    AddCountriesStepFails(cc, items, isoNames);
    if k < |init| {
      assert init[k] == items[k];
      UnnamedFails(cc, init, isoNames, k);
    }
  }

  lemma {:induction false} NamedSucceeds(cc: CountryNames, items: seq<(string, string)>, isoNames: map<string, string>)
    requires forall k :: 0 <= k < |items| ==> !Unnamed(items[k], isoNames)
    ensures AddCountries(cc, items, isoNames).Ok?
  {
    if items != [] {
      var init := items[..|items| - 1];
      assert forall k :: 0 <= k < |init| ==> init[k] == items[k];
      NamedSucceeds(cc, init, isoNames);
      AddCountriesStepFails(cc, items, isoNames);
    }
  }

  /** The table after the loop over `cc_name_dict` has stored each code of
      `order`, prefixed with "00", as a COUNTRY entry. */
  function WithCountries(d: map<string, PrefixEntry>, order: seq<string>, names: map<string, string>): map<string, PrefixEntry>
    requires forall i :: 0 <= i < |order| ==> order[i] in names
  {
    if order == [] then d
    else
      var c := order[|order| - 1];
      WithCountries(d, order[..|order| - 1], names)["00" + c := PrefixEntry("00" + c, names[c], COUNTRY)]
  }

  /** The table after the ONB rows. */
  function Landline(onb: seq<seq<string>>): map<string, PrefixEntry>
  {
    WithRows(map[], OnbData(onb), 3, OnbKey, OnbEntry)
  }

  /** The table after the ONB and the RNB rows. */
  function Mobile(onb: seq<seq<string>>, rnb: seq<seq<string>>): map<string, PrefixEntry>
  {
    WithRows(Landline(onb), rnb, 2, RnbKey, RnbEntry)
  }

  /** `cc_name_dict` after the loop over the country-code file. */
  function Countries(items: seq<(string, string)>, isoNames: map<string, string>): (r: Result<CountryNames, PyError>)
    ensures r.Ok? ==> r.value.Valid()
  {
    AddCountries(CountryNames([], map[]), items, isoNames)
  }

  /** What `init_prefix_dict` leaves in `prefix_dict`, and the exception that
      stops it, if any: a bad ONB header leaves the table empty; a country
      without a name leaves it with the ONB and RNB rows only. */
  function PrefixTable(onb: seq<seq<string>>, rnb: seq<seq<string>>, items: seq<(string, string)>,
                       isoNames: map<string, string>): (map<string, PrefixEntry>, Option<PyError>)
  {
    if onb != [] && OnbHeaderError(onb[0]).Some? then (map[], OnbHeaderError(onb[0]))
    else
      var cc := Countries(items, isoNames);
      if cc.Err? then (Mobile(onb, rnb), Some(cc.error))
      else (WithCountries(Mobile(onb, rnb), cc.value.order, cc.value.names), None)
  }

  // ---------------------------------------------------------------- the object

  class CallPrefix {
    var prefixDict: map<string, PrefixEntry>
    var areaCode: string
    var countryCode: string
    var areaCodeDict: Option<PrefixEntry>
    var areaCodeName: string
    var countryCodeDict: Option<PrefixEntry>
    var countryCodeName: string

    /** `__init__`: the table first, then the router's codes.  The router's
        answers and the files' contents are parameters; an exception while
        reading the files ends the construction. */
    method Init(onb: seq<seq<string>>, rnb: seq<seq<string>>, items: seq<(string, string)>,
                isoNames: map<string, string>, okzPrefix: string, okz: string, lkzPrefix: string, lkz: string)
      returns (error: Option<PyError>)
      modifies this
      ensures (prefixDict, error) == PrefixTable(onb, rnb, items, isoNames)
      ensures error.None? ==> areaCode == okzPrefix + okz && countryCode == lkzPrefix + lkz
      ensures error.None? ==> areaCodeName == GetPrefixName(prefixDict, countryCode, areaCode)
      ensures error.None? ==> countryCodeName == GetPrefixName(prefixDict, countryCode, countryCode)
    {
      error := InitPrefixDict(onb, rnb, items, isoNames);
      if error.None? {
        InitAreaAndCountryCode(okzPrefix, okz, lkzPrefix, lkz);
      }
    }

    /** `init_area_and_country_code`: the area code and the country code the
        router reports (prefix and number each), and what the table says
        about them, looked up with the new country code. */
    method InitAreaAndCountryCode(okzPrefix: string, okz: string, lkzPrefix: string, lkz: string)
      modifies this
      ensures areaCode == okzPrefix + okz && countryCode == lkzPrefix + lkz
      ensures prefixDict == old(prefixDict)
      ensures areaCodeDict == GetPrefixDict(prefixDict, countryCode, areaCode)
      ensures areaCodeName == GetPrefixName(prefixDict, countryCode, areaCode)
      ensures countryCodeDict == GetPrefixDict(prefixDict, countryCode, countryCode)
      ensures countryCodeName == GetPrefixName(prefixDict, countryCode, countryCode)
    {
      areaCode := okzPrefix + okz;
      countryCode := lkzPrefix + lkz;
      areaCodeDict := GetPrefixDict(prefixDict, countryCode, areaCode);
      areaCodeName := GetPrefixName(prefixDict, countryCode, areaCode);
      countryCodeDict := GetPrefixDict(prefixDict, countryCode, countryCode);
      countryCodeName := GetPrefixName(prefixDict, countryCode, countryCode);
    }

    /** `init_prefix_dict`: the ONB rows (header checked, three-field rows
        only), then the RNB rows (two-field rows only), then the country
        codes, each stored under its key; a later row overwrites an earlier
        one on the same key. */
    method InitPrefixDict(onb: seq<seq<string>>, rnb: seq<seq<string>>, items: seq<(string, string)>,
                          isoNames: map<string, string>) returns (error: Option<PyError>)
      modifies this
      ensures (prefixDict, error) == PrefixTable(onb, rnb, items, isoNames)
      ensures countryCode == old(countryCode)
    {
      prefixDict := map[];
      error := ReadOnb(onb);
      if error.Some? {
        return;
      }
      ReadRnb(rnb);
      var cc := ReadCountryNames(items, isoNames);
      if cc.Err? {
        return Some(cc.error);
      }
      StoreCountries(cc.value);
    }

    /** The ONB part of `init_prefix_dict`: the first row is the header. */
    method ReadOnb(onb: seq<seq<string>>) returns (error: Option<PyError>)
      requires prefixDict == map[]
      modifies this
      ensures error == (if onb != [] then OnbHeaderError(onb[0]) else None)
      ensures prefixDict == if error.Some? then map[] else Landline(onb)
      ensures countryCode == old(countryCode)
    {
      for i := 0 to |onb|
        invariant countryCode == old(countryCode)
        invariant i > 0 ==> OnbHeaderError(onb[0]).None?
        invariant prefixDict == WithRows(map[], if i == 0 then [] else onb[1..i], 3, OnbKey, OnbEntry)
      {
        var row := onb[i];
        if i == 0 {
          var header := OnbHeaderError(row);
          if header.Some? {
            return header;
          }
          assert onb[1..1] == [];
          continue;
        }
        if |row| == 3 {
          var areaCode := "0" + row[0];
          var name := row[1];
          var kind := if row[2] == "1" then DE_LANDLINE else DE_LANDLINE_INACTIVE;
          prefixDict := prefixDict[areaCode := PrefixEntry(areaCode, name, kind)];
        }
        assert onb[1..i + 1][..i - 1] == onb[1..i];
      }
      if onb != [] {
        assert onb[1..|onb|] == OnbData(onb);
      }
      assert prefixDict == Landline(onb);
      return None;
    }

    /** The RNB part of `init_prefix_dict`: no header. */
    method ReadRnb(rnb: seq<seq<string>>)
      modifies this
      ensures prefixDict == WithRows(old(prefixDict), rnb, 2, RnbKey, RnbEntry)
      ensures countryCode == old(countryCode)
    {
      for j := 0 to |rnb|
        invariant countryCode == old(countryCode)
        invariant prefixDict == WithRows(old(prefixDict), rnb[..j], 2, RnbKey, RnbEntry)
      {
        var row := rnb[j];
        if |row| == 2 {
          var areaCode := ReplaceAll(ReplaceAll(row[0], "-", ""), "(0)", "0");
          prefixDict := prefixDict[areaCode := PrefixEntry(areaCode, row[1], DE_MOBILE)];
        }
        assert rnb[..j + 1][..j] == rnb[..j];
      }
      assert rnb[..|rnb|] == rnb;
    }

    /** The last loop of `init_prefix_dict`: every code of `cc_name_dict`, in
        insertion order, stored with "00" in front as a COUNTRY entry. */
    method StoreCountries(cc: CountryNames)
      requires cc.Valid()
      modifies this
      ensures prefixDict == WithCountries(old(prefixDict), cc.order, cc.names)
      ensures countryCode == old(countryCode)
    {
      for n := 0 to |cc.order|
        invariant countryCode == old(countryCode)
        invariant prefixDict == WithCountries(old(prefixDict), cc.order[..n], cc.names)
      {
        var c := cc.order[n];
        var code := "00" + c;
        prefixDict := prefixDict[code := PrefixEntry(code, cc.names[c], COUNTRY)];
        assert cc.order[..n + 1][..n] == cc.order[..n];
      }
      assert cc.order[..|cc.order|] == cc.order;
    }
  }

  /** The loops of `init_prefix_dict` that build `cc_name_dict` from the
      country-code items and the country names. */
  method ReadCountryNames(items: seq<(string, string)>, isoNames: map<string, string>) returns (r: Result<CountryNames, PyError>)
    ensures r == Countries(items, isoNames)
  {
    var cc := CountryNames([], map[]);
    for k := 0 to |items|
      invariant AddCountries(CountryNames([], map[]), items[..k], isoNames) == Ok(cc)
    {
      var (iso2, code) := items[k];
      assert items[..k + 1][..k] == items[..k];
      if Strip(code) != [] {
        if iso2 !in isoNames {
          AddCountriesErrorStays(items, isoNames, k + 1);
          return Err(KeyError);
        }
        cc := ReadCodes(cc, CodesOf(code), isoNames[iso2]);
      }
    }
    assert items[..|items|] == items;
    return Ok(cc);
  }

  /** The inner loop over the codes of one item: a code already named gets
      the running name joined after its own, and the running name becomes
      that joined name. */
  method ReadCodes(cc0: CountryNames, codes: seq<string>, name0: string) returns (cc: CountryNames)
    ensures cc == AddCodes(cc0, codes, name0)
  {
    cc := cc0;
    var name := name0;
    for m := 0 to |codes|
      invariant AddCodes(cc0, codes, name0) == AddCodes(cc, codes[m..], name)
    {
      assert codes[m..][1..] == codes[m + 1..];
      var c := codes[m];
      if c in cc.names {
        name := cc.names[c] + ", " + name;
      } else {
        cc := cc.(order := cc.order + [c]);
      }
      cc := cc.(names := cc.names[c := name]);
    }
  }

  /** An item that fails stops the loop: the result for all items is that error. */
  lemma {:induction false} AddCountriesErrorStays(items: seq<(string, string)>, isoNames: map<string, string>, k: nat)
    requires k <= |items|
    requires AddCountries(CountryNames([], map[]), items[..k], isoNames).Err?
    ensures AddCountries(CountryNames([], map[]), items, isoNames) == AddCountries(CountryNames([], map[]), items[..k], isoNames)
    decreases |items| - k
  {
    if k < |items| {
      assert items[..k + 1][..k] == items[..k];
      AddCountriesErrorStays(items, isoNames, k + 1);
    } else {
      assert items[..k] == items;
    }
  }

  // ---------------------------------------------------------------- what the table holds

  /** Every code of `order` ends up under "00" and the code, with its name. */
  lemma {:induction false} WithCountriesHas(d: map<string, PrefixEntry>, order: seq<string>, names: map<string, string>, i: nat)
    requires forall j :: 0 <= j < |order| ==> order[j] in names
    requires i < |order|
    ensures "00" + order[i] in WithCountries(d, order, names)
    ensures WithCountries(d, order, names)["00" + order[i]] == PrefixEntry("00" + order[i], names[order[i]], COUNTRY)
  {
    var last := order[|order| - 1];
    if i < |order| - 1 && "00" + order[i] != "00" + last {
      WithCountriesHas(d, order[..|order| - 1], names, i);
    } else if i < |order| - 1 {
      assert order[i] == last by {
        assert ("00" + order[i])[2..] == order[i];
        assert ("00" + last)[2..] == last;
      }
    }
  }

  /** A key that is no country code with "00" in front keeps its entry. */
  lemma {:induction false} WithCountriesUntouched(d: map<string, PrefixEntry>, order: seq<string>, names: map<string, string>, k: string)
    requires forall j :: 0 <= j < |order| ==> order[j] in names
    requires k in d && forall j :: 0 <= j < |order| ==> "00" + order[j] != k
    ensures k in WithCountries(d, order, names) && WithCountries(d, order, names)[k] == d[k]
  {
    if order != [] {
      var init := order[..|order| - 1];
      assert forall j :: 0 <= j < |init| ==> init[j] == order[j];
      WithCountriesUntouched(d, init, names, k);
    }
  }

  /** Country entries carry their key as their code, like all others. */
  lemma {:induction false} WithCountriesCodes(d: map<string, PrefixEntry>, order: seq<string>, names: map<string, string>)
    requires forall j :: 0 <= j < |order| ==> order[j] in names
    requires CodesAreKeys(d, Code)
    ensures CodesAreKeys(WithCountries(d, order, names), Code)
  {
    if order != [] {
      var init := order[..|order| - 1];
      assert forall j :: 0 <= j < |init| ==> init[j] == order[j];
      WithCountriesCodes(d, init, names);
    }
  }

  /** The ONB and RNB part of the table stores every entry under its own code. */
  lemma MobileCodes(onb: seq<seq<string>>, rnb: seq<seq<string>>)
    ensures CodesAreKeys(Mobile(onb, rnb), Code)
  {
    WithRowsCodes(map[], OnbData(onb), 3, OnbKey, OnbEntry, Code);
    WithRowsCodes(Landline(onb), rnb, 2, RnbKey, RnbEntry, Code);
  }

  /** Every entry of `prefix_dict` has its key as its 'code', whatever the
      files hold and wherever loading stopped. */
  lemma PrefixTableCodes(onb: seq<seq<string>>, rnb: seq<seq<string>>, items: seq<(string, string)>, isoNames: map<string, string>)
    ensures CodesAreKeys(PrefixTable(onb, rnb, items, isoNames).0, Code)
  {
    MobileCodes(onb, rnb);
    var cc := Countries(items, isoNames);
    if cc.Ok? {
      WithCountriesCodes(Mobile(onb, rnb), cc.value.order, cc.value.names);
    }
  }

  /** After a complete load, every country code of the country-code file is
      in the table under "00" and the code, as a COUNTRY entry with the names
      collected for it. */
  lemma CountryEntries(onb: seq<seq<string>>, rnb: seq<seq<string>>, items: seq<(string, string)>,
                       isoNames: map<string, string>, c: string)
    requires PrefixTable(onb, rnb, items, isoNames).1.None?
    ensures Countries(items, isoNames).Ok?
    ensures var cc := Countries(items, isoNames).value;
            c in cc.names ==> && "00" + c in PrefixTable(onb, rnb, items, isoNames).0
                              && PrefixTable(onb, rnb, items, isoNames).0["00" + c] == PrefixEntry("00" + c, cc.names[c], COUNTRY)
  {
    var cc := Countries(items, isoNames).value;
    if c in cc.names {
      var i :| 0 <= i < |cc.order| && cc.order[i] == c;
      WithCountriesHas(Mobile(onb, rnb), cc.order, cc.names, i);
    }
  }

  /** An RNB row of two fields whose key no later such row has is what the
      table holds under that key before the countries are added: a mobile
      prefix overrides an ONB row with the same key. */
  lemma RnbRowWins(onb: seq<seq<string>>, rnb: seq<seq<string>>, j: nat)
    requires j < |rnb| && |rnb[j]| == 2
    requires forall l :: j < l < |rnb| && |rnb[l]| == 2 ==> RnbKey(rnb[l]) != RnbKey(rnb[j])
    ensures RnbKey(rnb[j]) in Mobile(onb, rnb)
    ensures Mobile(onb, rnb)[RnbKey(rnb[j])] == PrefixEntry(RnbKey(rnb[j]), rnb[j][1], DE_MOBILE)
  {
    WithRowsLast(Landline(onb), rnb, 2, RnbKey, RnbEntry, j);
  }

  /** An ONB data row of three fields keeps its entry when no later ONB row
      and no RNB row has its key: the area code with '0' in front, its name,
      and DE_LANDLINE exactly when the active flag is "1". */
  lemma OnbRowStays(onb: seq<seq<string>>, rnb: seq<seq<string>>, i: nat)
    requires 1 <= i < |onb| && |onb[i]| == 3
    requires forall l :: i < l < |onb| && |onb[l]| == 3 ==> OnbKey(onb[l]) != OnbKey(onb[i])
    requires !KeyOfRow(rnb, 2, RnbKey, "0" + onb[i][0])
    ensures "0" + onb[i][0] in Mobile(onb, rnb)
    ensures var e := Mobile(onb, rnb)["0" + onb[i][0]];
            e.name == onb[i][1] && (e.kind == DE_LANDLINE <==> onb[i][2] == "1") && e.kind != DE_MOBILE
  {
    var data := OnbData(onb);
    assert data[i - 1] == onb[i];
    forall l | i - 1 < l < |data| && |data[l]| == 3 ensures OnbKey(data[l]) != OnbKey(data[i - 1]) {
      assert data[l] == onb[l + 1];
    }
    WithRowsLast(map[], data, 3, OnbKey, OnbEntry, i - 1);
    WithRowsUntouched(Landline(onb), rnb, 2, RnbKey, RnbEntry, "0" + onb[i][0]);
  }

  /** A code that is already known merges its names in front of the new
      name, and because the loop rebinds `name`, the next code of the same
      value receives the merged name too: with "1" known as "Aland", the
      value "1 and 2" of "Bland" gives code "2" the name "Aland, Bland". */
  lemma CountryNameCarriesOver()
    ensures var cc := AddCodes(CountryNames(["1"], map["1" := "Aland"]), ["1", "2"], "Bland");
            cc.names["1"] == "Aland, Bland" && cc.names["2"] == "Aland, Bland" && cc.order == ["1", "2"]
  {
    assert ["1", "2"][1..] == ["2"];
    assert ("1" in map["1" := "Aland", "1" := "Aland, Bland"]) && "2" != "1";
  }

  /** A new code of one value gets that value's own name. */
  lemma {:induction false} NewCodeGetsName(cc: CountryNames, codes: seq<string>, name: string)
    requires codes != [] && codes[0] !in cc.names
    ensures codes[0] in AddCodes(cc, codes, name).names
    ensures AddCodes(cc, codes, name).names[codes[0]] == name || codes[0] in codes[1..]
  {
    var c := codes[0];
    var next := CountryNames(cc.order + [c], cc.names[c := name]);
    AddCodesKeeps(next, codes[1..], name, c);
  }

  /** A code already in the dictionary, and named once by the value, gets
      its old names, ", " and the value's name. */
  lemma AddCodesJoins(cc: CountryNames, codes: seq<string>, name: string)
    requires codes != [] && codes[0] in cc.names && codes[0] !in codes[1..]
    ensures codes[0] in AddCodes(cc, codes, name).names
    ensures AddCodes(cc, codes, name).names[codes[0]] == cc.names[codes[0]] + ", " + name
  {
    var c := codes[0];
    var merged := cc.names[c] + ", " + name;
    AddCodesKeeps(CountryNames(cc.order, cc.names[c := merged]), codes[1..], merged, c);
  }

  /** One item of the country file: the first code of its value gets the
      item's country name, joined with ", " behind the names already stored
      under that code. */
  lemma CountryJoined(items: seq<(string, string)>, isoNames: map<string, string>)
    requires items != []
    requires Countries(items[..|items| - 1], isoNames).Ok?
    requires var item := items[|items| - 1];
             && Strip(item.1) != [] && item.0 in isoNames && CodesOf(item.1)[0] !in CodesOf(item.1)[1..]
    ensures Countries(items, isoNames).Ok?
    ensures var prev, item := Countries(items[..|items| - 1], isoNames).value, items[|items| - 1];
            var c, after := CodesOf(item.1)[0], Countries(items, isoNames).value;
            && c in after.names
            && after.names[c] == if c in prev.names then prev.names[c] + ", " + isoNames[item.0] else isoNames[item.0]
  {
    var prev, item := Countries(items[..|items| - 1], isoNames).value, items[|items| - 1];
    var iso2, code := item.0, item.1;
    var codes := CodesOf(code);
    assert Countries(items, isoNames) == Ok(AddCodes(prev, codes, isoNames[iso2]));
    if codes[0] in prev.names {
      AddCodesJoins(prev, codes, isoNames[iso2]);
    } else {
      NewCodeGetsName(prev, codes, isoNames[iso2]);
    }
  }

  /** A code that the rest of the value does not name keeps its name. */
  lemma {:induction false} AddCodesKeeps(cc: CountryNames, codes: seq<string>, name: string, c: string)
    requires c in cc.names
    ensures c in AddCodes(cc, codes, name).names
    ensures c !in codes ==> AddCodes(cc, codes, name).names[c] == cc.names[c]
    decreases |codes|
  {
    if codes != [] {
      var d := codes[0];
      var merged := if d in cc.names then cc.names[d] + ", " + name else name;
      var order := if d in cc.names then cc.order else cc.order + [d];
      AddCodesKeeps(CountryNames(order, cc.names[d := merged]), codes[1..], merged, c);
      if c !in codes {
        assert c != d && c !in codes[1..];
      }
    }
  }

  // ---------------------------------------------------------------- lookup

  /** The number with a leading own country code replaced by '0' (every
      occurrence of the country code is removed, as `str.replace` does),
      when the number is longer than the country code. */
  function Normalize(countryCode: string, number: string): string
  {
    if countryCode <= number && |number| > |countryCode| then "0" + ReplaceAll(number, countryCode, "")
    else number
  }

  /** `get_prefix_dict`: the entry of the first of `number[:8]` down to
      `number[:3]` of the normalised number that is in the table. */
  function GetPrefixDict(table: map<string, PrefixEntry>, countryCode: string, number: string): Option<PrefixEntry>
  {
    FirstHit(table, Slices(Normalize(countryCode, number), 8, 3))
  }

  /** `get_prefix_name`: the name of the matched entry, else "ABROAD" for a
      number starting with "00", else "UNKNOWN". */
  function GetPrefixName(table: map<string, PrefixEntry>, countryCode: string, number: string): (r: string)
    ensures GetPrefixDict(table, countryCode, number).Some? ==> r == GetPrefixDict(table, countryCode, number).value.name
    ensures GetPrefixDict(table, countryCode, number).None? ==> r == (if "00" <= number then "ABROAD" else "UNKNOWN")
  {
    var found := GetPrefixDict(table, countryCode, number);
    NameOrFallback(if found.Some? then Some(found.value.name) else None, number)
  }

  /** The lookup finds the longest prefix of 3 to 8 characters of the
      normalised number that is in the table, and finds nothing exactly when
      no such prefix is. */
  lemma LongestPrefix(table: map<string, PrefixEntry>, countryCode: string, number: string)
    ensures var n, r := Normalize(countryCode, number), GetPrefixDict(table, countryCode, number);
            && (r.None? <==> forall len :: 3 <= len <= 8 ==> Take(n, len) !in table)
            && (r.Some? ==> exists len :: && 3 <= len <= 8 && Take(n, len) in table && r.value == table[Take(n, len)]
                                          && forall longer :: len < longer <= 8 ==> Take(n, longer) !in table)
  {
    LongestSlice(table, Normalize(countryCode, number), 8, 3);
  }

  /** A number whose normalised form is a key of at most 8 characters
      resolves to that key's entry. */
  lemma LookupNormalized(table: map<string, PrefixEntry>, countryCode: string, number: string, n: string)
    requires Normalize(countryCode, number) == n && |n| <= 8 && n in table
    ensures GetPrefixDict(table, countryCode, number) == Some(table[n])
  {
    LookupWhole(table, n, 8, 3);
  }

  /** The lookups the test block of the module performs, for any table that
      holds the keys they expect: 07191, 0049, 00441534 and 0035818 are found
      under themselves, and 00497191 resolves like 07191. */
  lemma TestLookups(table: map<string, PrefixEntry>)
    requires "07191" in table && "0049" in table && "00441534" in table && "0035818" in table
    ensures GetPrefixDict(table, "0049", "07191") == Some(table["07191"])
    ensures GetPrefixDict(table, "0049", "0049") == Some(table["0049"])
    ensures GetPrefixDict(table, "0049", "00441534") == Some(table["00441534"])
    ensures GetPrefixDict(table, "0049", "0035818") == Some(table["0035818"])
    ensures GetPrefixDict(table, "0049", "00497191") == Some(table["07191"])
  {
    assert "07191"[1] != "0049"[1];
    LookupNormalized(table, "0049", "07191", "07191");
    LookupNormalized(table, "0049", "0049", "0049");
    assert "00441534"[3] != "0049"[3];
    LookupNormalized(table, "0049", "00441534", "00441534");
    assert "0035818"[2] != "0049"[2];
    LookupNormalized(table, "0049", "0035818", "0035818");
    NormalizeExample();
    LookupNormalized(table, "0049", "00497191", "07191");
  }

  /** "00497191" with the German country code is "07191". */
  lemma NormalizeExample()
    ensures Normalize("0049", "00497191") == "07191"
  {
    assert ReplaceAll("00497191", "0049", "") == ReplaceAll("7191", "0049", "") by {
      assert "0049" <= "00497191";
      assert "00497191"[4..] == "7191";
    }
    assert ReplaceAll("7191", "0049", "") == "7" + ReplaceAll("191", "0049", "") by {
      assert "7191"[0] != "0049"[0];
      assert "7191"[1..] == "191";
    }
    ReplaceAbsent("191", "0049", "");
  }

}
