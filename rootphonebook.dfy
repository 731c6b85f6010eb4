/**
 * `Phonebook` of the root revision: the same contact filter and name list
 * as the a1fbox revision, but numbers are keyed exactly as listed, and
 * `add_contact` always writes.
 */
module RootPhonebook {
  import opened Wrappers
  import opened PyStr
  import opened Contacts
  import A1Phonebook

  /** Numbers are used as listed, spaces included. */
  function Verbatim(number: string): string
  {
    number
  }

  /** `get_all_numbers`: number, as listed, to the name of the last contact
      listing it. */
  function AllNumbers(book: seq<Contact>, keepInternals: bool): Result<map<string, string>, PyError>
  {
    var names := AllNames(book, keepInternals);
    if names.Err? then Err(names.error) else Ok(NumberMap(names.value, Verbatim))
  }

  method GetAllNumbers(book: seq<Contact>, keepInternals: bool) returns (r: Result<map<string, string>, PyError>)
    ensures r == AllNumbers(book, keepInternals)
  {
    var names := GetAllNames(book, keepInternals);
    if names.Err? {
      return Err(names.error);
    }
    var reverse := FillNumbers(names.value, Verbatim);
    return Ok(reverse);
  }

  /** The keys are exactly the listed numbers, and each maps to the name of
      the last entry listing it. */
  lemma AllNumbersKeys(book: seq<Contact>, keepInternals: bool, k: string)
    requires AllNumbers(book, keepInternals).Ok?
    ensures var entries := AllNames(book, keepInternals).value;
            && (k in AllNumbers(book, keepInternals).value <==> exists i, j :: 0 <= i < |entries| && 0 <= j < |entries[i].1| && entries[i].1[j] == k)
            && forall i :: Lists(entries, Verbatim, i, k) && (forall l :: i < l < |entries| ==> !Lists(entries, Verbatim, l, k)) ==>
                 AllNumbers(book, keepInternals).value[k] == entries[i].0
  {
    var entries := AllNames(book, keepInternals).value;
    NumberMapLast(entries, Verbatim, k);
    if exists i, j :: 0 <= i < |entries| && 0 <= j < |entries[i].1| && entries[i].1[j] == k {
      var i, j :| 0 <= i < |entries| && 0 <= j < |entries[i].1| && entries[i].1[j] == k;
      assert Verbatim(entries[i].1[j]) == k;
    }
  }

  /** `add_contact`: always one write, with no check for an existing number. */
  function AddContact(pbId: int, name: string, number: string): Request
  {
    SetPhonebookEntry(pbId, name, number)
  }

  /** Whatever the target book holds, this revision requests the write the
      a1fbox revision requests with `skip_existing` off. */
  lemma AddContactNeverSkips(book: seq<Contact>, pbId: int, name: string, number: string)
    ensures A1Phonebook.AddContactResult(book, pbId, name, number, false) == Ok(Some(AddContact(pbId, name, number)))
  {
  }

  /** On a book whose numbers hold no space, both revisions build the same
      number map. */
  lemma SameNumbersWithoutSpaces(book: seq<Contact>, keepInternals: bool)
    requires forall c, n :: c in book && n in c.numbers ==> ' ' !in n
    ensures AllNumbers(book, keepInternals) == A1Phonebook.AllNumbers(book, keepInternals)
  {
    var cs := AllContacts(book, keepInternals);
    if cs.Ok? {
      var entries := NameEntries(cs.value);
      NameEntriesShape(cs.value);
      forall i, j | 0 <= i < |entries| && 0 <= j < |entries[i].1|
        ensures A1Phonebook.NoSpaces(entries[i].1[j]) == Verbatim(entries[i].1[j])
      {
        var n := entries[i].1[j];
        assert NamedAfter(entries, cs.value, i);
        assert cs.value[i] in book && n in cs.value[i].numbers;
        forall p | 0 <= p ensures !OccursAt(n, " ", p) {
          if p + 1 <= |n| {
            assert n[p..p + 1][0] == n[p] && n[p] in n;
          }
        }
        ReplaceAbsent(n, " ", "");
      }
      NumberMapNormAgree(entries, A1Phonebook.NoSpaces, Verbatim);
    }
  }
}
