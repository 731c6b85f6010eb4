/**
 * `Phonebook` of the a1fbox revision: numbers are keyed without spaces, a
 * contact is only written when its number is new, several phone books can
 * be merged, and a number is looked up with and without the own area and
 * country code.  The phone books' contents, the list of valid ids and the
 * router's write are parameters.
 */
module A1Phonebook {
  import opened Wrappers
  import opened PyStr
  import opened PyInt
  import opened Contacts
  import opened Prefixes

  /** A number with its spaces removed ("07191 123" is stored as "07191123"). */
  function NoSpaces(number: string): (r: string)
    ensures ' ' !in r
  {
    RemoveCharGone(number, ' ');
    ReplaceAll(number, " ", "")
  }

  /** `get_all_numbers`: number without spaces to the name of the last
      contact listing it. */
  function AllNumbers(book: seq<Contact>, keepInternals: bool): Result<map<string, string>, PyError>
  {
    var names := AllNames(book, keepInternals);
    if names.Err? then Err(names.error) else Ok(NumberMap(names.value, NoSpaces))
  }

  method GetAllNumbers(book: seq<Contact>, keepInternals: bool) returns (r: Result<map<string, string>, PyError>)
    ensures r == AllNumbers(book, keepInternals)
  {
    var names := GetAllNames(book, keepInternals);
    if names.Err? {
      return Err(names.error);
    }
    var reverse := FillNumbers(names.value, NoSpaces);
    return Ok(reverse);
  }

  /** The keys of `get_all_numbers` are the numbers of the listed contacts
      with their spaces removed, and hold no space. */
  lemma AllNumbersKeys(book: seq<Contact>, keepInternals: bool, k: string)
    requires AllNumbers(book, keepInternals).Ok?
    ensures var entries := AllNames(book, keepInternals).value;
            k in AllNumbers(book, keepInternals).value <==> exists i :: Lists(entries, NoSpaces, i, k)
    ensures k in AllNumbers(book, keepInternals).value ==> ' ' !in k
    ensures EveryValueNamed(AllNumbers(book, keepInternals).value, AllNames(book, keepInternals).value)
  {
    var entries := AllNames(book, keepInternals).value;
    NumberMapLast(entries, NoSpaces, k);
    NumberMapNames(entries, NoSpaces);
    if k in AllNumbers(book, keepInternals).value {
      var i :| Lists(entries, NoSpaces, i, k);
      var j :| 0 <= j < |entries[i].1| && NoSpaces(entries[i].1[j]) == k;
    }
  }

  // ---------------------------------------------------------------- writing

  /** `add_contact`: with `skipExisting`, a number that is already a key of
      the target book's number map is not written and the result is `{}`
      (None here); otherwise exactly one write is requested.  `book` is the
      target book's contents. */
  function AddContactResult(book: seq<Contact>, pbId: int, name: string, number: string, skipExisting: bool): (r: Result<Option<Request>, PyError>)
    ensures !skipExisting ==> r == Ok(Some(SetPhonebookEntry(pbId, name, number)))
    ensures r == Ok(None) <==> skipExisting && AllNumbers(book, false).Ok? && number in AllNumbers(book, false).value
    ensures r.Err? <==> skipExisting && AllNumbers(book, false).Err?
    ensures r.Ok? && r.value.Some? ==> r.value.value == SetPhonebookEntry(pbId, name, number)
  {
    if skipExisting then
      var numbers := AllNumbers(book, false);
      if numbers.Err? then Err(numbers.error)
      else if number in numbers.value then Ok(None)
      else Ok(Some(SetPhonebookEntry(pbId, name, number)))
    else Ok(Some(SetPhonebookEntry(pbId, name, number)))
  }

  method AddContact(book: seq<Contact>, pbId: int, name: string, number: string, skipExisting: bool) returns (r: Result<Option<Request>, PyError>)
    ensures r == AddContactResult(book, pbId, name, number, skipExisting)
  {
    if skipExisting {
      var pbNumberToName := GetAllNumbers(book, false);
      if pbNumberToName.Err? {
        return Err(pbNumberToName.error);
      }
      if number in pbNumberToName.value {
        return Ok(None);
      }
    }
    return Ok(Some(SetPhonebookEntry(pbId, name, number)));
  }

  /** A number written with spaces is never found among the existing ones,
      so it is written again even when the book lists it. */
  lemma SpacedNumberNeverSkipped(book: seq<Contact>, pbId: int, name: string, number: string)
    requires ' ' in number
    ensures AddContactResult(book, pbId, name, number, true) != Ok(None)
  {
    if AllNumbers(book, false).Ok? && number in AllNumbers(book, false).value {
      AllNumbersKeys(book, false, number);
    }
  }

  // ---------------------------------------------------------------- several books

  /** `ensure_pb_ids_valid`: the first id that is not a phone book of the
      router raises, with the id in the message. */
  method EnsurePbIdsValid(pbIds: seq<int>, phonebookIds: seq<int>) returns (error: Option<PyError>)
    ensures error.None? <==> forall i :: 0 <= i < |pbIds| ==> pbIds[i] in phonebookIds
    ensures error.Some? ==> exists i :: && 0 <= i < |pbIds| && pbIds[i] !in phonebookIds
                                         && (forall j :: 0 <= j < i ==> pbIds[j] in phonebookIds)
                                         && error.value == Raised("The phonebook_id " + IntToString(pbIds[i]) + " does not exist!")
  {
    for i := 0 to |pbIds|
      invariant forall j :: 0 <= j < i ==> pbIds[j] in phonebookIds
    {
      var pbId := pbIds[i];
      if pbId !in phonebookIds {
        return Some(Raised("The phonebook_id " + IntToString(pbId) + " does not exist!"));
      }
    }
    return None;
  }

  /** The number maps of the books, in the order of the ids, or the first
      failure: an id the router does not know fails in the router's library
      (VendorError). */
  function BookMaps(pbIds: seq<int>, books: map<int, seq<Contact>>): (r: Result<seq<map<string, string>>, PyError>)
    ensures r.Ok? ==> |r.value| == |pbIds|
  {
    if pbIds == [] then Ok([])
    else
      var prev := BookMaps(pbIds[..|pbIds| - 1], books);
      var pbId := pbIds[|pbIds| - 1];
      if prev.Err? then prev
      else if pbId !in books then Err(VendorError)
      else
        var numbers := AllNumbers(books[pbId], false);
        if numbers.Err? then Err(numbers.error) else Ok(prev.value + [numbers.value])
  }

  /** Each map updating the union of those before it, as `dict.update` does. */
  function Merge(maps: seq<map<string, string>>): map<string, string>
  {
    if maps == [] then map[] else Merge(maps[..|maps| - 1]) + maps[|maps| - 1]
  }

  /** `get_all_numbers_for_pb_ids`: the books' number maps merged in order. */
  function MergedNumbers(pbIds: seq<int>, books: map<int, seq<Contact>>): Result<map<string, string>, PyError>
  {
    var maps := BookMaps(pbIds, books);
    if maps.Err? then Err(maps.error) else Ok(Merge(maps.value))
  }

  method GetAllNumbersForPbIds(pbIds: seq<int>, books: map<int, seq<Contact>>) returns (r: Result<map<string, string>, PyError>)
    ensures r == MergedNumbers(pbIds, books)
  {
    var numberNameDict := map[];
    ghost var maps := [];
    for i := 0 to |pbIds|
      invariant BookMaps(pbIds[..i], books) == Ok(maps) && numberNameDict == Merge(maps)
    {
      BookMapsStep(pbIds, books, i);
      var pbId := pbIds[i];
      if pbId !in books {
        BookMapsErrorStays(pbIds, books, i + 1);
        return Err(VendorError);
      }
      var numbers := GetAllNumbers(books[pbId], false);
      if numbers.Err? {
        BookMapsErrorStays(pbIds, books, i + 1);
        return Err(numbers.error);
      }
      MergeStep(maps, numbers.value);
      numberNameDict := numberNameDict + numbers.value;
      maps := maps + [numbers.value];
    }
    assert pbIds[..|pbIds|] == pbIds;
    return Ok(numberNameDict);
  }

  /** One more id: its book's numbers join the maps, or its failure ends them. */
  lemma BookMapsStep(pbIds: seq<int>, books: map<int, seq<Contact>>, i: nat)
    requires i < |pbIds| && BookMaps(pbIds[..i], books).Ok?
    ensures var prev, pbId := BookMaps(pbIds[..i], books).value, pbIds[i];
            BookMaps(pbIds[..i + 1], books) ==
              if pbId !in books then Err(VendorError)
              else if AllNumbers(books[pbId], false).Err? then Err(AllNumbers(books[pbId], false).error)
              else Ok(prev + [AllNumbers(books[pbId], false).value])
  {
    assert pbIds[..i + 1][..i] == pbIds[..i];
  }

  lemma MergeStep(maps: seq<map<string, string>>, m: map<string, string>)
    ensures Merge(maps + [m]) == Merge(maps) + m
  {
    assert (maps + [m])[..|maps|] == maps;
  }

  /** A book that fails stops the merge: the result is that failure. */
  lemma {:induction false} BookMapsErrorStays(pbIds: seq<int>, books: map<int, seq<Contact>>, k: nat)
    requires k <= |pbIds| && BookMaps(pbIds[..k], books).Err?
    ensures BookMaps(pbIds, books) == BookMaps(pbIds[..k], books)
    decreases |pbIds| - k
  {
    if k < |pbIds| {
      assert pbIds[..k + 1][..k] == pbIds[..k];
      BookMapsErrorStays(pbIds, books, k + 1);
    } else {
      assert pbIds[..k] == pbIds;
    }
  }

  /** When every book reads, map `i` is book `i`'s number map. */
  lemma {:induction false} BookMapsAre(pbIds: seq<int>, books: map<int, seq<Contact>>, i: nat)
    requires BookMaps(pbIds, books).Ok? && i < |pbIds|
    ensures pbIds[i] in books && AllNumbers(books[pbIds[i]], false).Ok?
    ensures BookMaps(pbIds, books).value[i] == AllNumbers(books[pbIds[i]], false).value
  {
    var n := |pbIds| - 1;
    if i < n {
      BookMapsAre(pbIds[..n], books, i);
      assert pbIds[..n][i] == pbIds[i];
    }
  }

  /** Merging holds the keys of every map, and a key takes its value from
      the last map that has it. */
  lemma {:induction false} MergeLaterWins(maps: seq<map<string, string>>, k: string)
    ensures k in Merge(maps) <==> exists i :: 0 <= i < |maps| && k in maps[i]
    ensures forall i :: 0 <= i < |maps| && k in maps[i] && (forall l :: i < l < |maps| ==> k !in maps[l]) ==>
              Merge(maps)[k] == maps[i][k]
  {
    if maps != [] {
      var n := |maps| - 1;
      var init := maps[..n];
      MergeLaterWins(init, k);
      assert forall i :: 0 <= i < n ==> init[i] == maps[i];
    }
  }

  // ---------------------------------------------------------------- lookup

  /** The number with a leading own country code turned into '0' (every
      occurrence of the country code is replaced, as `str.replace` does). */
  function Domestic(number: string, countryCode: string): string
  {
    if countryCode != [] && countryCode <= number then ReplaceAll(number, countryCode, "0") else number
  }

  /** The numbers `get_name_for_number_in_dict` tries, in order: the number;
      with a country code, the number without it (when it starts with it) or
      with it; with an area code, the domestic number without the area code
      (every occurrence removed, when it starts with it) or with it.  An
      empty code stands for a missing one. */
  function Candidates(number: string, areaCode: string, countryCode: string): (r: seq<string>)
    ensures |r| == 1 + (if countryCode != [] then 1 else 0) + (if areaCode != [] then 1 else 0)
    ensures r[0] == number
  {
    var withCountry :=
      if countryCode == [] then [number]
      else [number, if countryCode <= number then ReplaceAll(number, countryCode, "0") else countryCode + number];
    if areaCode == [] then withCountry
    else
      var nr := Domestic(number, countryCode);
      withCountry + [if areaCode <= nr then ReplaceAll(nr, areaCode, "") else areaCode + nr]
  }

  /** `get_name_for_number_in_dict`: the name of the first candidate that is
      a key of the dictionary. */
  method GetNameForNumberInDict(number: string, numberNameDict: map<string, string>, areaCode: string, countryCode: string)
    returns (r: Option<string>)
    ensures r == FirstHit(numberNameDict, Candidates(number, areaCode, countryCode))
    ensures number in numberNameDict ==> r == Some(numberNameDict[number])
    ensures areaCode == [] && countryCode == [] ==> r == (if number in numberNameDict then Some(numberNameDict[number]) else None)
  {
    var numbers := [number];
    if countryCode != [] {
      if countryCode <= number {
        numbers := numbers + [ReplaceAll(number, countryCode, "0")];
      } else {
        numbers := numbers + [countryCode + number];
      }
    }
    if areaCode != [] {
      var nr := number;
      if countryCode != [] && countryCode <= number {
        nr := ReplaceAll(number, countryCode, "0");
      }
      if areaCode <= nr {
        numbers := numbers + [ReplaceAll(nr, areaCode, "")];
      } else {
        numbers := numbers + [areaCode + nr];
      }
    }
    assert numbers == Candidates(number, areaCode, countryCode);
    for i := 0 to |numbers|
      invariant forall j :: 0 <= j < i ==> numbers[j] !in numberNameDict
    {
      if numbers[i] in numberNameDict {
        FirstHitAt(numberNameDict, numbers, i);
        return Some(numberNameDict[numbers[i]]);
      }
    }
    return None;
  }

  /** A string without '0' holds no occurrence of a code starting with '0'. */
  lemma NoZeroNoCode(s: string, code: string)
    requires '0' !in s && code != [] && code[0] == '0'
    ensures forall i :: 0 <= i ==> !OccursAt(s, code, i)
  {
    forall i | 0 <= i ensures !OccursAt(s, code, i) {
      if i + |code| <= |s| {
        assert s[i..i + |code|][0] == s[i] != '0';
      }
    }
  }

  /** "0049" followed by a number without '0' loses the country code:
      "00497191" and the number becomes "07191" and the number. */
  lemma CountryCodeDropped(nr: string)
    requires '0' !in nr
    ensures ReplaceAll("00497191" + nr, "0049", "0") == "07191" + nr
  {
    var intl := "00497191" + nr;
    assert ReplaceAll(intl, "0049", "0") == "0" + ReplaceAll("7191" + nr, "0049", "0") by {
      assert "0049" <= intl;
      assert intl[4..] == "7191" + nr;
    }
    assert ReplaceAll("7191" + nr, "0049", "0") == "7191" + nr by {
      assert '0' !in "7191" + nr;
      NoZeroNoCode("7191" + nr, "0049");
      ReplaceAbsent("7191" + nr, "0049", "0");
    }
  }

  /** The module's example, in the full international form: the number is
      found through its country-code variant. */
  lemma LookupInternational(nr: string, numberNameDict: map<string, string>)
    requires '0' !in nr && "07191" + nr in numberNameDict && "00497191" + nr !in numberNameDict
    ensures FirstHit(numberNameDict, Candidates("00497191" + nr, "07191", "0049")) == Some(numberNameDict["07191" + nr])
  {
    CountryCodeDropped(nr);
    var cands := Candidates("00497191" + nr, "07191", "0049");
    assert cands[1] == "07191" + nr;
    FirstHitAt(numberNameDict, cands, 1);
  }

  /** The module's example, in the national form: the number is a key. */
  lemma LookupNational(nr: string, numberNameDict: map<string, string>)
    requires "07191" + nr in numberNameDict
    ensures FirstHit(numberNameDict, Candidates("07191" + nr, "07191", "0049")) == Some(numberNameDict["07191" + nr])
  {
    FirstHitAt(numberNameDict, Candidates("07191" + nr, "07191", "0049"), 0);
  }

  /** The module's example, as the local number alone: it is found through
      its area-code variant. */
  lemma LookupLocal(nr: string, numberNameDict: map<string, string>)
    requires '0' !in nr && "07191" + nr in numberNameDict && nr !in numberNameDict && "0049" + nr !in numberNameDict
    ensures FirstHit(numberNameDict, Candidates(nr, "07191", "0049")) == Some(numberNameDict["07191" + nr])
  {
    assert !("0049" <= nr) && !("07191" <= nr) by {
      if |nr| >= 1 {
        assert nr[0] in nr;
      }
    }
    var cands := Candidates(nr, "07191", "0049");
    assert cands == [nr, "0049" + nr, "07191" + nr];
    FirstHitAt(numberNameDict, cands, 2);
  }
}
