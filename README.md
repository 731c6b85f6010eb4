# Fritz!Box call screening, modelled in Dafny

This project models the core of a call-screening add-on for AVM Fritz!Box
routers. The router reports every call on its call monitor as one
`;`-separated text line. The add-on parses these lines and checks the
calling number against a white list and a black list taken from the
router's phone books. A number on neither list gets a reputation score from
web services, and a number that scores badly is written into a block list
phone book. Every decision is written as a `;`-separated decision line.

The repository holds four revisions of this code. Each source file becomes
its own module:

| module | source file |
|---|---|
| `A1CallMonitor` | `a1fbox/callmonitor.py` (its line codec is the same code as `callmonitor.py`) |
| `RootCallMonitor` | `callmonitor.py`: the anonymiser that masks unconditionally |
| `FritzboxCallMonitor` | `fritzbox/callmonitor.py` |
| `Utils` | `a1fbox/utils.py` and `utils.py` (the same function) |
| `A1CallPrefix` | `a1fbox/callprefix.py` |
| `A1FritzboxCallPrefix` | `a1fritzbox/callprefix.py` |
| `RootCallPrefix` | `callprefix.py`; `init_onb` and `set_area_and_country_code` of `callblocker.py` are the same code |
| `A1Phonebook` | `a1fbox/phonebook.py` |
| `RootPhonebook` | `phonebook.py` |
| `Contacts` | `get_all_contacts` and `get_all_names`, identical in both phone book files |
| `A1CallInfo` | `a1fbox/callinfo.py` |
| `RootCallInfo` | `callinfo.py` |
| `A1CallBlocker` | `a1fbox/callblocker.py` |
| `RootCallBlocker` | `callblocker.py` |

Supporting modules:

- `Wrappers` holds `Option`, `Result` and the Python exceptions, as `PyError`.
- `PyStr` holds Python's string operations: `strip`, `split` with and without a limit, `join`, `find`, `replace` of every occurrence.
- `PyInt` holds `isdigit` (for the ASCII digits), and `int()` and `str()` of integers.
- `Prefixes` holds the row-to-table fold and the longest-slice lookup shared by the prefix modules.
- `Lookups` holds the decoded score-service record and the scan of its caller types.

How the model is built:

- A Python exception is an `Err` result or an error outcome, never a precondition.
- Objects whose fields the source assigns step by step are classes: `CallPrefix`, `CallInfo`, `CallBlocker`. Each method is proved equal to a specification function of the old state, in the form `(Snapshot(), out) == F(old(Snapshot()), ...)`. The properties are lemmas about those functions.
- The router, the web services, the files and the clock are parameters:
  - the contact lists of the phone books (`books`) and the valid ids;
  - the answers about area and country code;
  - the CSV and JSON rows;
  - the decoded score record or an HTTP error;
  - the fetched reverse-search page;
  - `now`.
- An `add_contact` call is returned as the `Request` it asks for, with a flag that says whether the request was sent. No request is sent when the number is already in the block book. The books after the write are a parameter.

## Model

| member | source | states |
|---|---|---|
| Utils.AnonymizeNumber | a1fbox/utils.py:23-29 | the length is kept; an all-digit string of at least three characters gets its last three replaced by "xxx"; every other string comes back unchanged |
| Utils.AnonymizeNumberIdempotent | utils.py:4-10 | applying `anonymize_number` twice equals applying it once |
| Utils.AnonymizeNumberShape | a1fbox/utils.py:25-29 | the result is the input or ends in 'x', and it contains no separator character the input lacked |
| A1CallMonitor.TypeOf | a1fbox/callmonitor.py:22-28 | a recognised type string maps to the `CallMonitorType` whose value it is |
| A1CallMonitor.TypeOfValue | a1fbox/callmonitor.py:22-28 | every `CallMonitorType` value is recognised as that type |
| A1CallMonitor.Params | a1fbox/callmonitor.py:55 | the stripped line split on ';' at most 7 times gives 1 to 8 parameters |
| A1CallMonitor.ParamsShape | a1fbox/callmonitor.py:55 | the parameters are a split of the line on ';' in which only the last may still hold ';', and they join back to a line without surrounding whitespace |
| A1CallMonitor.ParseParams | a1fbox/callmonitor.py:51-64 | parsing succeeds iff there are 3 fields, the datetime splits on one space into exactly two parts, and the type's fields are present; too few fields or a bad datetime gives ValueError, a missing type field gives IndexError; type and conn_id are fields 1 and 2 |
| A1CallMonitor.ParseParamsFields | a1fbox/callmonitor.py:57-64 | the fields of a parsed line are exactly the first 3 + n parameters, where n is 1 for DISCONNECT, 2 for CONNECT, 3 for RING, 4 for CALL and 0 for an unknown type |
| A1CallMonitor.ParseParamsOfFields | a1fbox/callmonitor.py:51-64 | parsing the fields of a well-formed line gives back that line |
| A1CallMonitor.ParseRawLine | a1fbox/callmonitor.py:51-64 | a well-formed line whose fields hold no ';', written as text, parses back to itself |
| A1CallMonitor.ParseUnknownType | a1fbox/callmonitor.py:53-54 | an unknown type does not raise: duration is "0" and ext_id, caller, callee and device stay None |
| A1CallMonitor.Show | a1fbox/callmonitor.py:66-75 | an unknown type prints "NOT IMPLEMENTED CALL TYPE <type>"; a known type prints date, time and type first |
| A1CallMonitor.Masked | a1fbox/callmonitor.py:41-48 | the listed fields are masked and every other field is unchanged |
| A1CallMonitor.AnonymizeFields | a1fbox/callmonitor.py:35-49 | the in-place masking of `anonymize`, step by step, equals its specification function |
| A1CallMonitor.Anonymize | a1fbox/callmonitor.py:35-49 | `anonymize` with `anonymize_number` as the mask |
| A1CallMonitor.AnonymizedParams | a1fbox/callmonitor.py:37-49 | for a line other than DISCONNECT whose number fields exist, anonymizing succeeds, and re-splitting gives the old parameters with only the number fields masked: CONNECT 4, RING 3 and 4, CALL 4 and 5 |
| A1CallMonitor.AnonymizeIdempotent | a1fbox/callmonitor.py:35-49 | anonymizing an anonymized line changes nothing more |
| A1CallMonitor.AnonymizedWithIdempotent | a1fbox/callmonitor.py:35-49 | anonymizing twice equals anonymizing once, for any mask that is idempotent, adds no ';' and leaves no trailing whitespace on a field it changes |
| A1CallMonitor.AnonymizeParses | a1fbox/callmonitor.py:35-64 | a line that parses still parses after anonymizing, to the same line with only its number fields masked |
| A1CallMonitor.AnonymizedWithParses | a1fbox/callmonitor.py:35-64 | with any such mask, a line that parses still parses after anonymizing, with only its number fields masked |
| A1CallMonitor.AnonymizedWithErrorIndependent | a1fbox/callmonitor.py:37-38 | whether anonymizing raises does not depend on the mask |
| A1CallMonitor.ParseOkAnonymizeOk | a1fbox/callmonitor.py:35-64 | a line that parses can be anonymized |
| A1CallMonitor.BeforeHash | a1fbox/callmonitor.py:97-99 | the text before the first '#' is a prefix of the line and holds no '#' |
| A1CallMonitor.Preprocess | a1fbox/callmonitor.py:96-105 | a line that is blank once the comment is cut is skipped; otherwise the result is the stripped text before '#' followed by one newline |
| A1CallMonitor.PreprocessNoHash | a1fbox/callmonitor.py:97-99 | a preprocessed line contains no '#' |
| A1CallMonitor.PreprocessStripped | a1fbox/callmonitor.py:101-105 | stripping a preprocessed line removes only its final newline |
| A1CallMonitor.ProcessLine | a1fbox/callmonitor.py:96-112 | one loop iteration equals the step function for the line |
| A1CallMonitor.ParseFromFile | a1fbox/callmonitor.py:92-112 | the loop prints, and stops with an exception, exactly as the fold of the line steps says |
| A1CallMonitor.FileOutputCons | a1fbox/callmonitor.py:95-112 | the output of a file is the first line's step followed by the output of the rest |
| A1CallMonitor.LineStepAnonymizeFlag | a1fbox/callmonitor.py:106-107 | the discarded `anonymize` result never changes what a line prints |
| A1CallMonitor.AnonymizeFlagIgnored | a1fbox/callmonitor.py:106-112 | a whole file prints the same lines with and without the `anonymize` flag, and raises in both cases or in neither |
| A1CallMonitor.FileOutputMaskIndependent | a1fbox/callmonitor.py:106-107 | what a file prints does not depend on which masking function is used |
| RootCallMonitor.MaskTail | callmonitor.py:39-45 | `field[:-3] + "xxx"`: the result ends in "xxx", keeps all but the last three characters, and a field shorter than three becomes "xxx" |
| RootCallMonitor.MaskTailGood | callmonitor.py:38-45 | the root masking is idempotent and adds no separator, so the shared anonymizer lemmas hold for it |
| RootCallMonitor.MaskTailVersusAnonymizeNumber | callmonitor.py:39-45 | the masking agrees with `anonymize_number` exactly on fields of at least three characters that are all digits or already end in "xxx" |
| RootCallMonitor.Anonymize | callmonitor.py:31-46 | `anonymize` of the root revision: same fields as the a1fbox revision, masked unconditionally |
| RootCallMonitor.AnonymizeIdempotent | callmonitor.py:31-46 | the root `anonymize` is idempotent |
| RootCallMonitor.AnonymizeParses | callmonitor.py:31-61 | a line that parses still parses after the root `anonymize`, with only its number fields masked |
| RootCallMonitor.ParseFromFileAgrees | callmonitor.py:105-122 | the root `parse_from_file` prints the same as the a1fbox one, because the anonymized line is thrown away |
| FritzboxCallMonitor.ParseParams | fritzbox/callmonitor.py:29-41 | parsing succeeds iff there are at least 4 fields and the type's fields are present; fewer than 4 gives ValueError; the timestamp is kept whole |
| FritzboxCallMonitor.Show | fritzbox/callmonitor.py:43-52 | an unknown type prints "NOT IMPLEMENTED CALL TYPE <type>"; a known type starts with timestamp, type and conn_id |
| FritzboxCallMonitor.ParseParamsAgree | fritzbox/callmonitor.py:33-41 | with at least 4 fields and a two-part datetime, the earliest parser succeeds, fails and fills the fields exactly as the a1fbox parser does |
| FritzboxCallMonitor.ThreeFieldsRefused | fritzbox/callmonitor.py:33 | three fields are refused with ValueError, although the a1fbox parser accepts them for an unknown type |
| Prefixes.OnbHeaderError | a1fbox/callprefix.py:70-75 | the header row passes iff its first three fields are Ortsnetzkennzahl, Ortsnetzname, KennzeichenAktiv; a short row raises IndexError, a wrong one AssertionError |
| Prefixes.WithRowsKeys | a1fbox/callprefix.py:76-80 | after the row loop a key is present iff it was before or some row of the right width has it |
| Prefixes.WithRowsLast | a1fbox/callprefix.py:76-80 | a row of the right width that no later such row shares a key with is the stored entry |
| Prefixes.WithRowsUntouched | a1fbox/callprefix.py:85-90 | an earlier entry whose key no row has survives the loop |
| Prefixes.FirstHit | a1fbox/callprefix.py:130-133 | the first candidate in the table gives the result; None iff no candidate is in the table |
| Prefixes.LongestSlice | a1fbox/callprefix.py:130-133 | the slice scan returns the entry of the longest slice that is a key; None iff no slice is a key |
| Prefixes.NameOrFallback | a1fbox/callprefix.py:135-143 | the name of the entry, else "ABROAD" iff the number starts with "00", else "UNKNOWN" |
| A1CallPrefix.AddCodes | a1fbox/callprefix.py:109-113 | adding codes keeps every earlier code and the table's order invariant; a code that already has a name gets the earlier name, ", " and the new one |
| A1CallPrefix.AddCountries | a1fbox/callprefix.py:99-113 | the country loop keeps the table's order invariant; the only error it raises is KeyError |
| A1CallPrefix.AddCountriesFails | a1fbox/callprefix.py:100-102 | the loop raises KeyError exactly when some item with a non-blank code has an ISO code without a name |
| A1CallPrefix.UnnamedFails | a1fbox/callprefix.py:100-102 | an item with a non-blank code and no ISO name makes the loop raise KeyError, whatever its position |
| A1CallPrefix.NamedSucceeds | a1fbox/callprefix.py:100-102 | when every item with a non-blank code has an ISO name, the loop raises nothing |
| A1CallPrefix.AddCountriesStepFails | a1fbox/callprefix.py:100-102 | one more item raises KeyError when the earlier items did or when it has a non-blank code and no ISO name |
| A1CallPrefix.Countries | a1fbox/callprefix.py:99-113 | a successful country table satisfies the invariant |
| A1CallPrefix.CallPrefix.Init | a1fbox/callprefix.py:45-60 | `__init__`: the table of the rows, then the router's area and country codes and their names |
| A1CallPrefix.CallPrefix.InitAreaAndCountryCode | a1fbox/callprefix.py:51-60 | area code = OKZPrefix + OKZ, country code = LKZPrefix + LKZ, and both resolved through the table |
| A1CallPrefix.CallPrefix.InitPrefixDict | a1fbox/callprefix.py:62-118 | the table is the ONB rows, then the RNB rows, then the countries, as the specification function says |
| A1CallPrefix.CallPrefix.ReadOnb | a1fbox/callprefix.py:67-80 | the header check, then each 3-field row stored under '0' + code |
| A1CallPrefix.CallPrefix.ReadRnb | a1fbox/callprefix.py:83-90 | each 2-field row stored under its code with '-' removed and '(0)' replaced by '0' |
| A1CallPrefix.CallPrefix.StoreCountries | a1fbox/callprefix.py:115-118 | each country code stored under '00' + code |
| A1CallPrefix.ReadCountryNames | a1fbox/callprefix.py:99-113 | the country loop equals its specification function |
| A1CallPrefix.ReadCodes | a1fbox/callprefix.py:109-113 | the inner loop over one item's codes equals its specification function |
| A1CallPrefix.AddCountriesErrorStays | a1fbox/callprefix.py:102 | once a missing ISO name has raised, later items change nothing |
| A1CallPrefix.WithCountriesHas | a1fbox/callprefix.py:115-118 | every country code is stored under '00' + code with its name and kind COUNTRY |
| A1CallPrefix.WithCountriesUntouched | a1fbox/callprefix.py:115-118 | an entry that no country key hits survives the country loop |
| A1CallPrefix.WithCountriesCodes | a1fbox/callprefix.py:117-118 | the country loop keeps every entry stored under its own code |
| A1CallPrefix.PrefixTableCodes | a1fbox/callprefix.py:80-118 | every entry's code equals its key |
| A1CallPrefix.MobileCodes | a1fbox/callprefix.py:80-90 | after the ONB and RNB rows every entry is stored under its own code |
| A1CallPrefix.CountryEntries | a1fbox/callprefix.py:99-118 | after a successful build, every country code of the country table is an entry '00' + code of kind COUNTRY |
| A1CallPrefix.RnbRowWins | a1fbox/callprefix.py:83-90 | an RNB row overrides an ONB row with the same key and is stored with kind DE_MOBILE |
| A1CallPrefix.OnbRowStays | a1fbox/callprefix.py:76-80 | an ONB row that no RNB row overrides is stored with its name, with kind DE_LANDLINE iff the flag is "1", and never as DE_MOBILE |
| A1CallPrefix.CountryNameCarriesOver | a1fbox/callprefix.py:109-113 | the running name carries over: when the first code of "X and Y" already has a name, both codes get the joined name |
| A1CallPrefix.NewCodeGetsName | a1fbox/callprefix.py:111-113 | a code new to the table is added, with the value's name unless the same value repeats that code |
| A1CallPrefix.AddCodesKeeps | a1fbox/callprefix.py:109-113 | a code not in the value keeps its name |
| A1CallPrefix.AddCodesJoins | a1fbox/callprefix.py:109-113 | a first code that already has a name, not repeated later in the list, ends with the earlier name, ", " and the new name |
| A1CallPrefix.CountryJoined | a1fbox/callprefix.py:99-113 | after a named item, its first code holds the country name, joined after any name the code already had |
| A1CallPrefix.GetPrefixName | a1fbox/callprefix.py:135-143 | the name of the matched entry, else "ABROAD" for "00…", else "UNKNOWN" |
| A1CallPrefix.LongestPrefix | a1fbox/callprefix.py:120-133 | the lookup returns the entry of the longest 3- to 8-character slice of the normalised number that is a key, and None iff there is none |
| A1CallPrefix.LookupNormalized | a1fbox/callprefix.py:125-133 | a normalised number of at most 8 characters that is a key is found as itself |
| A1CallPrefix.TestLookups | a1fbox/callprefix.py:155-192 | the lookups of the module's own examples: 07191, 0049, 00441534, 0035818, and 00497191 resolving as 07191 |
| A1CallPrefix.NormalizeExample | a1fbox/callprefix.py:125-126 | "00497191" normalises to "07191" |
| A1FritzboxCallPrefix.PrefixTable | a1fritzbox/callprefix.py:47-74 | the build fails iff the ONB header is wrong, leaving an empty table |
| A1FritzboxCallPrefix.CallPrefix.Init | a1fritzbox/callprefix.py:32-45 | `__init__`: the table, then area and country code and the area's name |
| A1FritzboxCallPrefix.CallPrefix.InitAreaAndCountryCode | a1fritzbox/callprefix.py:38-45 | area code = OKZPrefix + OKZ, country code = LKZPrefix + LKZ, the area's entry and name |
| A1FritzboxCallPrefix.CallPrefix.InitPrefixDict | a1fritzbox/callprefix.py:47-74 | the two row loops equal the specification table |
| A1FritzboxCallPrefix.GetPrefixName | a1fritzbox/callprefix.py:89-97 | the name of the matched entry, else "ABROAD" for "00…", else "UNKNOWN" |
| A1FritzboxCallPrefix.PrefixTableEntries | a1fritzbox/callprefix.py:65-74 | every entry's code equals its key, and every mobile entry is active |
| A1FritzboxCallPrefix.RnbRowWins | a1fritzbox/callprefix.py:70-74 | an RNB row is stored active and mobile, overriding a landline row |
| A1FritzboxCallPrefix.OnbRowStays | a1fritzbox/callprefix.py:61-65 | an ONB row is stored active iff its flag is "1", not mobile |
| A1FritzboxCallPrefix.LongestPrefix | a1fritzbox/callprefix.py:78-87 | the longest 3- to 6-character slice that is a key, with no country normalisation; None iff there is none |
| RootCallPrefix.OnbTable | callprefix.py:21-40 | the build fails iff the ONB header is wrong |
| RootCallPrefix.CallPrefix.constructor | callprefix.py:7-9 | the object before `__init__` has read anything |
| RootCallPrefix.CallPrefix.Init | callprefix.py:7-11 | the table, then the codes; `area` is the table's entry for the area code, or None |
| RootCallPrefix.CallPrefix.SetAreaAndCountryCode | callprefix.py:13-19 | area code = OKZPrefix + OKZ, country code = LKZPrefix + LKZ; `area` is set iff the area code is a key |
| RootCallPrefix.CallPrefix.InitOnb | callprefix.py:21-40 | the loop with the line counter equals the table function |
| RootCallPrefix.OnbTableCodes | callprefix.py:35-39 | every entry's code equals its key |
| RootCallPrefix.OnbTableKeys | callprefix.py:35-39 | the keys are exactly '0' + code of the 3-field data rows |
| RootCallPrefix.OnbRowStays | callprefix.py:35-39 | a 3-field row is stored with its name, active iff the flag is "1" |
| Contacts.AllContacts | a1fbox/phonebook.py:18-26 | with internals kept, every contact is returned; otherwise exactly the contacts whose first number does not start with "**" are kept, and a contact without numbers raises IndexError |
| Contacts.Suffixed | a1fbox/phonebook.py:39-41 | the name with the fewest '_' appended that is not yet taken |
| Contacts.NameEntriesShape | a1fbox/phonebook.py:36-43 | one entry per contact, each named with minimal suffixes, all names distinct |
| Contacts.GetAllNames | a1fbox/phonebook.py:28-43 | the `while` loop equals the specification sequence |
| Contacts.WithNumbersKeys | a1fbox/phonebook.py:51-57 | after one contact's numbers a key is present iff it was before or the contact lists it; the contact's numbers get its name; other keys keep their value |
| Contacts.FillNumbers | a1fbox/phonebook.py:51-57 | the nested loop equals the number-map fold |
| Contacts.NumberMapLast | a1fbox/phonebook.py:51-57 | a number is a key iff some entry lists it, and the last entry listing it gives the name |
| Contacts.NumberMapNames | a1fbox/phonebook.py:51-57 | every value of the map is a name of the entries |
| A1Phonebook.NoSpaces | a1fbox/phonebook.py:55 | the key a number is stored under holds no space |
| A1Phonebook.GetAllNumbers | a1fbox/phonebook.py:45-57 | `get_all_numbers` equals its specification function |
| A1Phonebook.AllNumbersKeys | a1fbox/phonebook.py:45-57 | the keys are exactly the listed numbers without spaces, and every value is an entry name |
| A1Phonebook.AddContactResult | a1fbox/phonebook.py:59-85 | with skip_existing, a number already in the book gives `{}` and no write; otherwise exactly one SetPhonebookEntry |
| A1Phonebook.AddContact | a1fbox/phonebook.py:59-85 | `add_contact` equals its specification function |
| A1Phonebook.SpacedNumberNeverSkipped | a1fbox/phonebook.py:55-83 | a number with a space is never found as existing, because the book's keys have their spaces removed |
| A1Phonebook.EnsurePbIdsValid | a1fbox/phonebook.py:103-107 | passes iff every id is valid; otherwise raises naming the first invalid id |
| A1Phonebook.GetAllNumbersForPbIds | a1fbox/phonebook.py:109-115 | the loop equals the merge of the per-book maps |
| A1Phonebook.BookMapsErrorStays | a1fbox/phonebook.py:113-114 | an error in one book ends the merge |
| A1Phonebook.BookMapsAre | a1fbox/phonebook.py:113-114 | the i-th map is the numbers of the i-th book |
| A1Phonebook.MergeLaterWins | a1fbox/phonebook.py:112-115 | a number is in the merge iff some book has it, and the last such book gives the name |
| A1Phonebook.Candidates | a1fbox/phonebook.py:120-137 | the number itself comes first, then one more candidate if a country code is given and one more if an area code is given |
| A1Phonebook.GetNameForNumberInDict | a1fbox/phonebook.py:117-143 | the name of the first candidate in the map; the exact number wins; with no codes it is an exact key test |
| A1Phonebook.CountryCodeDropped | a1fbox/phonebook.py:124-125 | "00497191…" with the country code replaced becomes "07191…" |
| A1Phonebook.LookupInternational | a1fbox/phonebook.py:117-143 | an international number finds the national entry |
| A1Phonebook.LookupNational | a1fbox/phonebook.py:117-143 | a national number finds itself |
| A1Phonebook.LookupLocal | a1fbox/phonebook.py:130-143 | a local number finds the entry with the area code |
| RootPhonebook.GetAllNumbers | phonebook.py:39-49 | `get_all_numbers` of the root revision equals its specification function |
| RootPhonebook.AllNumbersKeys | phonebook.py:45-49 | the keys are the listed numbers verbatim, and the last listing entry gives the name |
| RootPhonebook.AddContactNeverSkips | phonebook.py:51-66 | the root `add_contact` always issues exactly one SetPhonebookEntry, like the a1fbox one without skip_existing |
| RootPhonebook.SameNumbersWithoutSpaces | phonebook.py:45-49 | for books without spaces in numbers the root map equals the a1fbox map |
| Lookups.FirstKnownType | a1fbox/callinfo.py:87-93 | the first caller type other than "Unbekannt"; None iff all are "Unbekannt" |
| Lookups.ScanCallerTypes | a1fbox/callinfo.py:87-93 | the loop with `continue` and `break` equals the first-known-type function |
| A1CallInfo.Initial | a1fbox/callinfo.py:32-38 | name and location default to "UNKNOWN" when falsy; prefix name "UNRESOLVED"; method INIT; no score, comments or searches |
| A1CallInfo.CallInfo.constructor | a1fbox/callinfo.py:32-38 | the new object's fields are the initial record |
| A1CallInfo.CallerName | a1fbox/callinfo.py:78-93 | an empty caller list raises IndexError; a non-empty first caller name wins, else a non-empty numberDetails name; the name is empty only when no caller type other than "Unbekannt" is given |
| A1CallInfo.SelectCallerName | a1fbox/callinfo.py:78-93 | the selection, step by step, equals the function |
| A1CallInfo.ScoreFields | a1fbox/callinfo.py:72-76 | score, comments, searches and location from the record; a missing score or comment count raises ValueError after what was already assigned |
| A1CallInfo.Tellows | a1fbox/callinfo.py:61-98 | the method tag is TELLOWS_SCORE even on an HTTP error, which changes nothing else; on success the name is "<caller>, <location>" iff a caller name was found |
| A1CallInfo.CallInfo.GetTellowsScore | a1fbox/callinfo.py:61-98 | `get_tellows_score` equals its specification function |
| A1CallInfo.CallInfo.SetScoreFields | a1fbox/callinfo.py:72-76 | the field assignments equal their specification function |
| A1CallInfo.GenericObject | a1fbox/callinfo.py:166-173 | the `{…}` text from the brace of "generic: {" to the first '}' after it |
| A1CallInfo.GenericOfPage | a1fbox/callinfo.py:166-173 | a page "generic: {body}rest" gives "{body}" |
| A1CallInfo.Revsearch | a1fbox/callinfo.py:136-184 | the tag REV_SEARCH is set first; an object found and decoded sets the name to "<name>, <city>"; a decode error is raised with only the tag set; otherwise nothing but the tag changes |
| A1CallInfo.RevsearchName | a1fbox/callinfo.py:164-178 | a page "generic: {body}rest" whose object decodes sets the name to "<name>, <city>" and raises nothing |
| A1CallInfo.CallInfo.GetRevsearchInfo | a1fbox/callinfo.py:136-184 | `get_revsearch_info` equals its specification function |
| A1CallInfo.RoundTenth | a1fbox/callinfo.py:125 | `round(n / 10)`: the nearest integer, ties to even |
| A1CallInfo.PercentText | a1fbox/callinfo.py:117-124 | a text is found only after the marker, and it stops before the closing "</div>" |
| A1CallInfo.Wemgehoert | a1fbox/callinfo.py:100-127 | the tag WEMGEHOERT_SCORE first; a percentage found on the page sets the score to its rounded tenth, text there that is not an integer raises ValueError with only the tag set, and no percentage or an HTTP error changes nothing else |
| A1CallInfo.WemgehoertPercentage | a1fbox/callinfo.py:116-125 | a progress bar showing the percentage n sets the score to n / 10 rounded, with no error |
| A1CallInfo.PercentTextOf | a1fbox/callinfo.py:116-124 | the text cut out of a page is exactly the run of digits between the opening tag with its three-character rank and the closing tag |
| A1CallInfo.EndAfterDigits | a1fbox/callinfo.py:122 | the closing tag is first found right after a run of digits |
| A1CallInfo.CallInfo.GetWemgehoertScore | a1fbox/callinfo.py:100-127 | `get_wemgehoert_score` equals its specification function |
| A1CallInfo.Cascade | a1fbox/callinfo.py:40-52 | reverse search, then the score service; the longer name wins and a tie keeps the score service's name; the tag ends as CASCADE |
| A1CallInfo.CallInfo.GetCascadeScore | a1fbox/callinfo.py:40-52 | `get_cascade_score` equals its specification function |
| A1CallInfo.CallInfo.GetLocation | a1fbox/callinfo.py:54-59 | `get_location` changes no field |
| A1CallInfo.Head | a1fbox/callinfo.py:188-190 | number, name and location, then the search link when asked for |
| A1CallInfo.Show | a1fbox/callinfo.py:186-195 | the score is appended only for methods 1, 2 and 101, and reads back as the score; without a score those methods raise AttributeError |
| A1CallInfo.CascadeWithoutScoreCannotShow | a1fbox/callinfo.py:186-195 | a cascade whose score request fails leaves a record that cannot print |
| A1CallInfo.TellowsThenShow | a1fbox/callinfo.py:186-195 | after a successful score lookup the record prints with that score |
| A1CallInfo.CascadeTieKeepsScoreName | a1fbox/callinfo.py:46-47 | a name tie keeps the score service's name |
| RootCallInfo.Initial | callinfo.py:22-26 | the name is the given unknown name, method INIT, nothing else set |
| RootCallInfo.CallInfo.constructor | callinfo.py:22-26 | the new object's fields are the initial record |
| RootCallInfo.TellowsFields | callinfo.py:45-61 | on success the name is "<first known type>, <location>" or just the location, and method TELLOWS_SCORE; a missing score or comment count raises ValueError |
| RootCallInfo.Tellows | callinfo.py:37-63 | an HTTP error changes nothing; the tag changes only on success |
| RootCallInfo.CallInfo.GetTellowsScore | callinfo.py:37-63 | `get_tellows_score` equals its specification function |
| RootCallInfo.HandlerData | callinfo.py:73-80 | the text after "var handlerData = [[" up to the next ']' |
| RootCallInfo.HandlerOfPage | callinfo.py:73-80 | a page with the marker, the data and ']' gives the data |
| RootCallInfo.RevName | callinfo.py:81-84 | fewer than 15 comma-separated parts raise IndexError |
| RootCallInfo.RevNameOfFields | callinfo.py:81-84 | the name is part 14, then ", ", then part 5, each stripped of quotes and spaces |
| RootCallInfo.RevsearchText | callinfo.py:75-85 | without the marker and a closing ']' nothing changes; fewer than 15 parts raise IndexError and change nothing; otherwise the name is set and the method is REV_SEARCH |
| RootCallInfo.Revsearch | callinfo.py:65-87 | an HTTP error changes nothing |
| RootCallInfo.CallInfo.GetRevsearchInfo | callinfo.py:65-87 | `get_revsearch_info` equals its specification function |
| RootCallInfo.Combined | callinfo.py:28-35 | the longer name wins, a tie keeps the score name, and the method ends as TEL_AND_REV |
| RootCallInfo.CallInfo.GetTellowsAndRevsearch | callinfo.py:28-35 | `get_tellows_and_revsearch` equals its specification function |
| RootCallInfo.Show | callinfo.py:89-95 | the score is appended only for methods 1 and 2; without a score those raise AttributeError |
| RootCallInfo.ShowScoreReadsBack | callinfo.py:89-95 | the appended score reads back as the score |
| RootCallInfo.ShowScored | callinfo.py:89-95 | a successful score lookup prints; a combined lookup whose requests both fail cannot print |
| A1CallBlocker.LineParams | a1fbox/callblocker.py:57 | the stripped line split on ';' at most 8 times gives 1 to 9 parameters |
| A1CallBlocker.ParseParams | a1fbox/callblocker.py:51-63 | parsing succeeds iff there are 5 fields, the datetime has two parts, the method is an integer and its extra fields exist; method 2 fills the score only, methods 1 and 101 fill score, comments and searches; the name loses its outer quotes |
| A1CallBlocker.ShowLine | a1fbox/callblocker.py:65-74 | the fixed head alone for other methods; head and " score:" with the score for wemgehoert; head with score, comments and searches for tellows and cascade |
| A1CallBlocker.UnquoteName | a1fbox/callblocker.py:58 | a name without outer quotes survives quoting and stripping |
| A1CallBlocker.ParseFields | a1fbox/callblocker.py:51-63 | the parse of a field list, field by field |
| A1CallBlocker.ParsePlainFields | a1fbox/callblocker.py:51-63 | a line of six fields with method 0 re-parses to its date, rate, number and unquoted name, with no score |
| A1CallBlocker.ParseRatedFields | a1fbox/callblocker.py:51-63 | a line of nine fields with method 1 re-parses to its fields, with score, comments and searches |
| A1CallBlocker.ParseAnonLine | a1fbox/callblocker.py:153 | the anonymous line re-parses with rate PASS, method 0, empty caller and name "ANON" |
| A1CallBlocker.ParseListedLine | a1fbox/callblocker.py:176 | a list line re-parses with its rate, method 0, the full number and the list's name |
| A1CallBlocker.ParseScoredLine | a1fbox/callblocker.py:193-216 | a rated line re-parses with its rate, method 1, the full number, the name, and score, comments and searches |
| A1CallBlocker.ShowScoredLine | a1fbox/callblocker.py:65-74 | a rated line read back shows the score, comments and searches it was written with, and the score shown reads back as the lookup's score |
| A1CallBlocker.AnonymizedParams | a1fbox/callblocker.py:46-48 | only field 3 (masked) and field 4 ("Anonymized" in quotes) change |
| A1CallBlocker.AnonymizedLine | a1fbox/callblocker.py:44-49 | fewer than 5 fields raise IndexError |
| A1CallBlocker.Anonymize | a1fbox/callblocker.py:44-49 | the in-place assignments equal the function |
| A1CallBlocker.AnonymizeFields | a1fbox/callblocker.py:44-49 | re-splitting the anonymized line gives the same field count, field 3 masked, field 4 "Anonymized", and every other field unchanged |
| A1CallBlocker.AnonymizeIdempotent | a1fbox/callblocker.py:44-49 | anonymizing twice equals anonymizing once |
| A1CallBlocker.AnonymizedStripped | a1fbox/callblocker.py:44-49 | anonymizing a stripped line gives a stripped line |
| A1CallBlocker.Named | a1fbox/callblocker.py:189-190 | a name "UNKNOWN" becomes the prefix label; any other name stays |
| A1CallBlocker.CallBlocker.constructor | a1fbox/callblocker.py:95-110 | the settings are stored, and the lists start empty |
| A1CallBlocker.CallBlocker.Reloaded | a1fbox/callblocker.py:126-130 | both lists are the merged books and the age is now; a failing blacklist read keeps the new whitelist and the old blacklist and age |
| A1CallBlocker.CallBlocker.ReloadPhonebooks | a1fbox/callblocker.py:126-130 | `reload_phonebooks` equals its specification function |
| A1CallBlocker.CallBlocker.Refreshed | a1fbox/callblocker.py:134-135 | the lists are reloaded iff they are at least 3600 seconds old |
| A1CallBlocker.CallBlocker.PrefixLabel | a1fbox/callblocker.py:184-186 | the prefix name, replaced by FAKE_PREFIX iff it is empty and the number does not start with "00" |
| A1CallBlocker.FakePrefixOnlyForEmptyName | a1fbox/callblocker.py:184-186 | FAKE_PREFIX replaces the name only when a matched entry has an empty name; an unmatched number is labelled ABROAD or UNKNOWN |
| A1CallBlocker.CallBlocker.BlockWrite | a1fbox/callblocker.py:203-210 | a missing block book raises; a number already in it, or an accepted write, reloads the lists from the books after the write; a rejected write leaves the state as it was; the log never changes |
| A1CallBlocker.CallBlocker.BlockNumber | a1fbox/callblocker.py:203-210 | the `add_contact` call and the reload equal their specification function, and the method reports whether the request was sent |
| A1CallBlocker.CallBlocker.Rated | a1fbox/callblocker.py:179-216 | a number is blocked iff it is a RING and the block predicate holds; then exactly one `add_contact` call for prefix + name, marked sent exactly when the block book can be read and lacks the number, and the rate BLOCK; otherwise PASS and no call; a record without a score raises AttributeError |
| A1CallBlocker.CallBlocker.RateNumber | a1fbox/callblocker.py:184-216 | the rating, step by step, equals its specification function |
| A1CallBlocker.CallBlocker.Classified | a1fbox/callblocker.py:157-176 | the state changes only with an `add_contact` call |
| A1CallBlocker.ListedNumbers | a1fbox/callblocker.py:157-178 | a number named in both lists raises with both names; in one list it gets that list's rate and name, method 0, and no lookup or write; in neither list it is rated |
| A1CallBlocker.CallBlocker.ExamineNumber | a1fbox/callblocker.py:157-178 | the list lookups equal their specification function |
| A1CallBlocker.CallBlocker.Unlisted | a1fbox/callblocker.py:179-180 | the state changes only with an `add_contact` call |
| A1CallBlocker.CallBlocker.ExamineUnlisted | a1fbox/callblocker.py:179-180 | the cascade and the rating equal their specification function |
| A1CallBlocker.FullNumberQualified | a1fbox/callblocker.py:159-162 | the full number is the number when it starts with '0', else area code + number, so it starts with '0' |
| A1CallBlocker.FullNumberFindsLocalEntry | a1fbox/callblocker.py:159-166 | for a local number, the lookup tries the number, then the full number |
| A1CallBlocker.CallBlocker.Handled | a1fbox/callblocker.py:137-153 | the state changes only with an `add_contact` call |
| A1CallBlocker.CallBlocker.Handle | a1fbox/callblocker.py:137-153 | the event selection equals its specification function |
| A1CallBlocker.CallBlocker.Decided | a1fbox/callblocker.py:134-216 | the log is unchanged before the decision line is emitted |
| A1CallBlocker.CallBlocker.Decide | a1fbox/callblocker.py:134-216 | the refresh and the decision equal their specification function |
| A1CallBlocker.CallBlocker.Emitted | a1fbox/callblocker.py:218-222 | a line that is kept re-parses; it is logged iff a logger is given; nothing else changes |
| A1CallBlocker.CallBlocker.LogLine | a1fbox/callblocker.py:218-222 | the re-parse and the logger equal their specification function |
| A1CallBlocker.CallBlocker.ParseAndExamineLine | a1fbox/callblocker.py:132-222 | `parse_and_examine_line` equals its specification function |
| A1CallBlocker.NewCallBlocker | a1fbox/callblocker.py:95-117 | succeeds iff every white, black and block id is valid and both lists load; the new object holds the settings and the loaded lists |
| A1CallBlocker.OtherEventsIgnored | a1fbox/callblocker.py:141 | an event other than RING or CALL gives no line, no write and no logger call |
| A1CallBlocker.AnonymousCallPasses | a1fbox/callblocker.py:149-153 | a call without a number gives exactly the anonymous PASS line, logged when a logger is given, with no lookup or write; that line re-parses with method 0, an empty caller and the name ANON |
| A1CallBlocker.CallEventsNeverWrite | a1fbox/callblocker.py:200-213 | a CALL event never writes and never changes the state |
| A1CallBlocker.FailedWriteStillBlocks | a1fbox/callblocker.py:203-211 | a sent write the router rejects still gives rate BLOCK, without a reload |
| A1CallBlocker.SkippedWriteStillBlocks | a1fbox/callblocker.py:203-210 | a condemned caller already in the block book rates BLOCK and reloads the lists, but `add_contact` sends no request |
| A1CallBlocker.WriteSentExactly | a1fbox/phonebook.py:79-85 | `add_contact` sends its request exactly when the block book can be read and does not hold the number |
| A1CallBlocker.ListsReloadOnlyWhenStaleOrAdded | a1fbox/callblocker.py:134-210 | the lists change only when they were an hour old or `add_contact` was called (even when it sent nothing because the number was already in the block book) |
| A1CallBlocker.RatedLineParses | a1fbox/callblocker.py:193-219 | a rated line re-parses with the date, method 1, the full number, the name, and BLOCK iff `add_contact` was called |
| A1CallBlocker.ClassifiedLineParses | a1fbox/callblocker.py:157-219 | every decision line re-parses with the full number; method 0 iff rate WHITELIST or BLACKLIST; BLOCK iff `add_contact` was called |
| A1CallBlocker.DecisionLineKept | a1fbox/callblocker.py:216-222 | with well-formed lists, every decision line survives the re-parse, and the logger gets exactly it |
| RootCallBlocker.CallBlocker.constructor | callblocker.py:33-41 | the settings are stored, and the lists start empty |
| RootCallBlocker.CallBlocker.ReadLists | callblocker.py:47-48 | both lists are read from their books; a missing book raises |
| RootCallBlocker.CallBlocker.Logged | callblocker.py:104-105 | a log line is appended iff a logger is given |
| RootCallBlocker.CallBlocker.LogLine | callblocker.py:104-105 | the logger call equals its specification function |
| RootCallBlocker.CallBlocker.Examined | callblocker.py:82-139 | the lists never change, and at most one line is logged |
| RootCallBlocker.CallBlocker.ParseAndExamineLine | callblocker.py:82-139 | `parse_and_examine_line` equals its specification function |
| RootCallBlocker.CallBlocker.Screened | callblocker.py:90-113 | the lists never change, and at most one line is logged |
| RootCallBlocker.CallBlocker.ScreenNumber | callblocker.py:90-113 | the variant updates, step by step, and the list checks equal their specification function |
| RootCallBlocker.CallBlocker.Rated | callblocker.py:117-139 | blocked iff score ≥ min_score and comments ≥ min_comments; then one write of "CallBlock <location> (<searches>)" to the blacklist book and one BLOCKED line; otherwise nothing changes; a failed request or missing field raises |
| RootCallBlocker.CallBlocker.RateNumber | callblocker.py:117-139 | the rating equals its specification function |
| RootCallBlocker.NewCallBlocker | callblocker.py:33-48 | succeeds iff the ONB header is right, both ids are valid and both books load; a missing whitelist id raises "The phonebook_id <id> does not exist!" |
| RootCallBlocker.OnlyRingExamined | callblocker.py:88 | an event other than RING has no effect |
| RootCallBlocker.CallerOfRing | callblocker.py:88-90 | a parsed RING event has a caller |
| RootCallBlocker.WhitelistFirst | callblocker.py:102-106 | a number or variant on the whitelist logs WHITELISTED and stops, with no blacklist check and no score lookup |
| RootCallBlocker.BlacklistOnFullNumber | callblocker.py:109-113 | otherwise the blacklist is checked on the full number only: a hit logs BLACKLISTED and stops, a miss is rated |
| RootCallBlocker.VariantRules | callblocker.py:92-99 | a local number's variant and full number are area code + number; a number starting with the area code has every occurrence of the area code removed |
| RootCallBlocker.LocalVariantMatchesA1 | callblocker.py:90-99 | for a local number the root variant is the a1fbox area candidate |

## Left out

- Sockets, threads, keep-alive and reconnection in `CallMonitor` (all three call-monitor files) are not modelled. A line source is a sequence of strings, and `parse_line` is `Parse` followed by `Show`.
- HTTP requests are not modelled. A lookup's outcome is a parameter: a decoded score record, a fetched page, or an HTTP error. `json5.loads` of the reverse-search object is a `decode` parameter. The Telegram notification is left out.
- Printing is left out. `Show` and `ShowLine` model the text of `__str__`, but nothing is printed.
- Log files are not modelled. The logger of the call blocker is the `log` sequence of the object. The file append of `CallMonitorLog`, `CallBlockerLog` and `Log`, with their file paths and dates, is left out.
- CSV and JSON files are not opened. Their rows and items are parameters.
- Router calls are not modelled:
  - area and country code queries, the phone book reads and `phonebook_ids` are parameters;
  - `SetPhonebookEntry` is a returned `Request`, marked as sent or skipped;
  - the router's reply is the `writeAccepted` flag and the books after the write are `booksAfterWrite`.
- `html.escape(...).encode('ascii', 'xmlcharrefreplace')` in `add_contact` and the XML envelope are not modelled: the request carries the name as given.
- `time()` is the `now` parameter. Both reads of the clock in one event see the same value.
- `Caches` in `a1fbox/utils.py` is not modelled: it is unused and cannot run.
- The `__main__` blocks and the example scripts are not modelled, except where `A1CallPrefix.TestLookups` restates the lookups. The names those examples expect (Backnang, Jersey, …) come from data files that are not part of this model, so the lemma assumes the keys are present.
- `fritzconn.py` and `config.py` are not part of this model.
- `update_contact`, `delete_contact`, the JSON import and export and `get_numreport_name` raise `NotImplementedError` or do nothing in the source, and are not modelled.
- The code-2020 branch of the a1fbox `get_revsearch_info` is switched off by a constant in the source and is not modelled.
- A1CallInfo.Wemgehoert: Python's float `round(int(text) / 10)` is modelled as exact rounding half to even of n / 10. The two agree whenever |n| < 2^53, which covers every percentage: n is then exact, a rounding error in n / 10 is at most 1/16, and a tie n / 10 = k + 0.5 is held exactly. For larger n the float quotient can round to a neighbouring integer (n = 90071992547409934 gives 9007199254740994 in Python, 9007199254740993 here), and beyond the float range Python raises OverflowError, which the model does not.
- Utils.AnonymizeNumber: `isdigit` is modelled for the ASCII digits only, so a string of other Unicode digits, which Python masks, comes back unchanged. The call-monitor and call-blocker anonymizers inherit this.
- A1CallBlocker.CallBlocker.Rated: the AttributeError that follows a failed score lookup is an error outcome, not a precondition.
- RootCallBlocker.CallBlocker.Rated: the reply of `add_contact` is not inspected, since the source only prints it.
- A1CallBlocker.ParseScoredLine and the other re-parse lemmas require what the source leaves to the data: a datetime with exactly one space, and names and numbers without ';' or outer quotes.
- Integers: `int()` is modelled for ASCII digit strings with an optional sign and surrounding whitespace. Other inputs raise ValueError. Python's `int()` also accepts two kinds of input that the model refuses: underscores between digits (`int("1_000")` is 1000) and non-ASCII Unicode digits.
