/**
 * What both revisions of `Phonebook` share: the contacts of one phone book
 * read from the router, filtered for internal numbers, listed under
 * distinct names (a repeated name gets '_' appended until it is new), and
 * inverted into a map from number to name.
 *
 * A Python dict that is only ever extended with new keys is modelled as the
 * sequence of its (key, value) pairs in insertion order; a dict whose keys
 * are overwritten is modelled as a `map` built by a fold in insertion order.
 */
module Contacts {
  import opened Wrappers
  import opened PyStr

  /** A contact of a phone book as the router returns it. */
  datatype Contact = Contact(name: string, numbers: seq<string>)

  /** `get_all_contacts`: the contacts in their order, without those whose
      first number starts with "**" (internal numbers such as the alarm
      call) unless `keepInternals`.  Reading the first number of a contact
      that has none raises IndexError. */
  function AllContacts(book: seq<Contact>, keepInternals: bool): (r: Result<seq<Contact>, PyError>)
    ensures keepInternals ==> r == Ok(book)
    ensures r.Err? <==> !keepInternals && exists i :: 0 <= i < |book| && book[i].numbers == []
    ensures r.Err? ==> r.error == IndexError
    ensures r.Ok? ==> |r.value| <= |book| && forall c :: c in r.value ==> c in book
    ensures r.Ok? && !keepInternals ==> forall c :: c in r.value ==> c.numbers != [] && !("**" <= c.numbers[0])
    ensures r.Ok? && !keepInternals ==> forall c :: c in book && !("**" <= c.numbers[0]) ==> c in r.value
  {
    if book == [] then Ok([])
    else if !keepInternals && book[0].numbers == [] then Err(IndexError)
    else
      var rest := AllContacts(book[1..], keepInternals);
      assert forall i :: 1 <= i < |book| ==> book[i] == book[1..][i - 1];
      assert forall c :: c in book[1..] ==> c in book;
      assert [book[0]] + book[1..] == book;
      if rest.Err? then rest
      else if keepInternals || !("**" <= book[0].numbers[0]) then Ok([book[0]] + rest.value)
      else rest
  }

  // ---------------------------------------------------------------- names

  /** The keys of a dict given as its pairs. */
  function KeysOf<V>(entries: seq<(string, V)>): (r: seq<string>)
    ensures |r| == |entries| && forall i :: 0 <= i < |entries| ==> r[i] == entries[i].0
  {
    seq(|entries|, i requires 0 <= i < |entries| => entries[i].0)
  }

  function MaxLength(keys: seq<string>): (r: nat)
    ensures forall i :: 0 <= i < |keys| ==> |keys[i]| <= r
  {
    if keys == [] then 0
    else
      var m := MaxLength(keys[1..]);
      assert forall i :: 1 <= i < |keys| ==> keys[i] == keys[1..][i - 1];
      if |keys[0]| > m then |keys[0]| else m
  }

  lemma UnderscoresCons(k: nat)
    ensures Underscores(k + 1) == "_" + Underscores(k)
  {
  }

  /** The name with the fewest '_' appended that is not yet a key. */
  function Suffixed(keys: seq<string>, name: string): (r: string)
    ensures r !in keys
    ensures |name| <= |r| && r == name + Underscores(|r| - |name|)
    ensures forall k :: 0 <= k < |r| - |name| ==> name + Underscores(k) in keys
    decreases MaxLength(keys) + 1 - |name|
  {
    if name in keys then
      var r := Suffixed(keys, name + "_");
      SuffixStep(keys, name, r);
      r
    else
      assert name + Underscores(0) == name;
      name
  }

  /** One more '_' in front of the suffix: what holds of the name with '_'
      appended holds of the name, counting one more underscore. */
  lemma SuffixStep(keys: seq<string>, name: string, r: string)
    requires name in keys
    requires |name| + 1 <= |r| && r == (name + "_") + Underscores(|r| - |name| - 1)
    requires forall k :: 0 <= k < |r| - |name| - 1 ==> (name + "_") + Underscores(k) in keys
    ensures r == name + Underscores(|r| - |name|)
    ensures forall k :: 0 <= k < |r| - |name| ==> name + Underscores(k) in keys
  {
    UnderscoresCons(|r| - |name| - 1);
    forall k | 0 <= k < |r| - |name| ensures name + Underscores(k) in keys {
      if k > 0 {
        UnderscoresCons(k - 1);
        assert name + Underscores(k) == (name + "_") + Underscores(k - 1);
      } else {
        assert name + Underscores(0) == name;
      }
    }
  }

  /** The pairs of `get_all_names`, in insertion order: each contact under
      its name made distinct by '_' suffixes, with its numbers. */
  function NameEntries(contacts: seq<Contact>): (r: seq<(string, seq<string>)>)
    ensures |r| == |contacts|
  {
    if contacts == [] then []
    else
      var prev := NameEntries(contacts[..|contacts| - 1]);
      var c := contacts[|contacts| - 1];
      prev + [(Suffixed(KeysOf(prev), c.name), c.numbers)]
  }

  /** `get_all_names` as a whole: the filtered contacts under distinct names. */
  function AllNames(book: seq<Contact>, keepInternals: bool): Result<seq<(string, seq<string>)>, PyError>
  {
    var cs := AllContacts(book, keepInternals);
    if cs.Err? then Err(cs.error) else Ok(NameEntries(cs.value))
  }

  /** Some entry before index `i` has key `s`. */
  predicate TakenBefore<V>(entries: seq<(string, V)>, i: int, s: string)
  {
    exists j :: 0 <= j < i && j < |entries| && entries[j].0 == s
  }

  /** Entry `i` holds contact `i`'s numbers under its name with the fewest
      '_' appended that no earlier entry has taken. */
  predicate NamedAfter(entries: seq<(string, seq<string>)>, contacts: seq<Contact>, i: int)
    requires 0 <= i < |entries| == |contacts|
  {
    && entries[i].1 == contacts[i].numbers
    && |contacts[i].name| <= |entries[i].0|
    && entries[i].0 == contacts[i].name + Underscores(|entries[i].0| - |contacts[i].name|)
    && !TakenBefore(entries, i, entries[i].0)
    && forall k :: 0 <= k < |entries[i].0| - |contacts[i].name| ==> TakenBefore(entries, i, contacts[i].name + Underscores(k))
  }

  /** One entry per contact, in order, under pairwise distinct keys, each the
      contact's name with the fewest '_' appended that an earlier entry has
      not taken. */
  lemma {:induction false} NameEntriesShape(contacts: seq<Contact>)
    ensures forall i :: 0 <= i < |contacts| ==> NamedAfter(NameEntries(contacts), contacts, i)
    ensures forall i, j :: 0 <= i < j < |contacts| ==> NameEntries(contacts)[i].0 != NameEntries(contacts)[j].0
  {
    if contacts != [] {
      var init := contacts[..|contacts| - 1];
      var prev := NameEntries(init);
      var r := NameEntries(contacts);
      NameEntriesShape(init);
      var n := |contacts| - 1;
      assert r[..n] == prev;
      forall i | 0 <= i < n ensures NamedAfter(r, contacts, i) {
        assert NamedAfter(prev, init, i);
        assert contacts[i] == init[i] && r[i] == prev[i];
        forall s ensures TakenBefore(prev, i, s) <==> TakenBefore(r, i, s) {
          TakenBeforePrefix(prev, r, i, s);
        }
      }
      forall s ensures TakenBefore(r, n, s) <==> s in KeysOf(prev) {
        TakenBeforePrefix(prev, r, n, s);
        TakenBeforeKeys(prev, s);
      }
    }
  }

  /** Whether a key is taken before `i` depends only on the entries before `i`. */
  lemma TakenBeforePrefix<V>(prev: seq<(string, V)>, r: seq<(string, V)>, i: int, s: string)
    requires 0 <= i <= |prev| <= |r| && r[..|prev|] == prev
    ensures TakenBefore(prev, i, s) <==> TakenBefore(r, i, s)
  {
    if TakenBefore(prev, i, s) {
      var j :| 0 <= j < i && j < |prev| && prev[j].0 == s;
      assert r[j] == prev[j];
    }
    if TakenBefore(r, i, s) {
      var j :| 0 <= j < i && j < |r| && r[j].0 == s;
      assert r[j] == prev[j];
    }
  }

  /** Taken before the end is being one of the keys. */
  lemma TakenBeforeKeys<V>(entries: seq<(string, V)>, s: string)
    ensures TakenBefore(entries, |entries|, s) <==> s in KeysOf(entries)
  {
    if s in KeysOf(entries) {
      var j :| 0 <= j < |entries| && KeysOf(entries)[j] == s;
      assert entries[j].0 == s;
    }
  }

  // ---------------------------------------------------------------- numbers

  /** The map after every number of one contact, in order, has been stored
      (normalised by `norm`) with the contact's name. */
  function WithNumbers(d: map<string, string>, name: string, numbers: seq<string>, norm: string -> string): map<string, string>
  {
    if numbers == [] then d
    else WithNumbers(d, name, numbers[..|numbers| - 1], norm)[norm(numbers[|numbers| - 1]) := name]
  }

  /** `get_all_numbers` over the pairs of `get_all_names`: each number,
      normalised, mapped to its entry's name; a later entry overwrites an
      earlier one on the same number. */
  function NumberMap(entries: seq<(string, seq<string>)>, norm: string -> string): map<string, string>
  {
    if entries == [] then map[]
    else
      var last := entries[|entries| - 1];
      WithNumbers(NumberMap(entries[..|entries| - 1], norm), last.0, last.1, norm)
  }

  /** Entry `i` lists a number that normalises to `k`. */
  predicate Lists(entries: seq<(string, seq<string>)>, norm: string -> string, i: int, k: string)
  {
    0 <= i < |entries| && exists j :: 0 <= j < |entries[i].1| && norm(entries[i].1[j]) == k
  }

  lemma {:induction false} WithNumbersKeys(d: map<string, string>, name: string, numbers: seq<string>, norm: string -> string, k: string)
    ensures k in WithNumbers(d, name, numbers, norm) <==> k in d || exists j :: 0 <= j < |numbers| && norm(numbers[j]) == k
    ensures k in WithNumbers(d, name, numbers, norm) && !(exists j :: 0 <= j < |numbers| && norm(numbers[j]) == k) ==>
              WithNumbers(d, name, numbers, norm)[k] == d[k]
    ensures (exists j :: 0 <= j < |numbers| && norm(numbers[j]) == k) ==> WithNumbers(d, name, numbers, norm)[k] == name
  {
    if numbers != [] {
      var init := numbers[..|numbers| - 1];
      WithNumbersKeys(d, name, init, norm, k);
      assert forall j :: 0 <= j < |init| ==> init[j] == numbers[j];
      if exists j :: 0 <= j < |numbers| && norm(numbers[j]) == k {
        var j :| 0 <= j < |numbers| && norm(numbers[j]) == k;
        if j < |init| {
          assert norm(init[j]) == k;
        }
      }
    }
  }

  /** The keys of the number map are exactly the normalised numbers of all
      entries, and each key maps to the name of the last entry listing it. */
  lemma {:induction false} NumberMapLast(entries: seq<(string, seq<string>)>, norm: string -> string, k: string)
    ensures k in NumberMap(entries, norm) <==> exists i :: Lists(entries, norm, i, k)
    ensures forall i :: Lists(entries, norm, i, k) && (forall l :: i < l < |entries| ==> !Lists(entries, norm, l, k)) ==>
              NumberMap(entries, norm)[k] == entries[i].0
  {
    if entries != [] {
      var n := |entries| - 1;
      var init := entries[..n];
      NumberMapLast(init, norm, k);
      WithNumbersKeys(NumberMap(init, norm), entries[n].0, entries[n].1, norm, k);
      forall i | 0 <= i < n ensures Lists(init, norm, i, k) <==> Lists(entries, norm, i, k) {
        assert init[i] == entries[i];
      }
      if k in NumberMap(entries, norm) && !Lists(entries, norm, n, k) {
        var i :| Lists(init, norm, i, k);
        assert Lists(entries, norm, i, k);
      }
    }
  }

  /** Every value of the map is the name of one of the entries. */
  predicate EveryValueNamed(m: map<string, string>, entries: seq<(string, seq<string>)>)
  {
    forall k :: k in m ==> exists i :: 0 <= i < |entries| && m[k] == entries[i].0
  }

  /** Every value of the number map is one of the entries' names. */
  lemma {:induction false} NumberMapNames(entries: seq<(string, seq<string>)>, norm: string -> string)
    ensures EveryValueNamed(NumberMap(entries, norm), entries)
  {
    forall k | k in NumberMap(entries, norm)
      ensures exists i :: 0 <= i < |entries| && NumberMap(entries, norm)[k] == entries[i].0
    {
      NumberMapLast(entries, norm, k);
      var i := LastLister(entries, norm, k, |entries|);
    }
  }

  /** The last entry before `upTo` that lists `k`. */
  lemma {:induction false} LastLister(entries: seq<(string, seq<string>)>, norm: string -> string, k: string, upTo: nat) returns (i: nat)
    requires upTo <= |entries| && exists i :: 0 <= i < upTo && Lists(entries, norm, i, k)
    ensures i < upTo && Lists(entries, norm, i, k) && forall l :: i < l < upTo ==> !Lists(entries, norm, l, k)
  {
    if Lists(entries, norm, upTo - 1, k) {
      i := upTo - 1;
    } else {
      i := LastLister(entries, norm, k, upTo - 1);
    }
  }

  /** Two normalisations that agree on every listed number give the same map. */
  lemma {:induction false} NumberMapNormAgree(entries: seq<(string, seq<string>)>, f: string -> string, g: string -> string)
    requires forall i, j :: 0 <= i < |entries| && 0 <= j < |entries[i].1| ==> f(entries[i].1[j]) == g(entries[i].1[j])
    ensures NumberMap(entries, f) == NumberMap(entries, g)
  {
    if entries != [] {
      var n := |entries| - 1;
      NumberMapNormAgree(entries[..n], f, g);
      WithNumbersNormAgree(NumberMap(entries[..n], f), entries[n].0, entries[n].1, f, g);
    }
  }

  lemma {:induction false} WithNumbersNormAgree(d: map<string, string>, name: string, numbers: seq<string>, f: string -> string, g: string -> string)
    requires forall j :: 0 <= j < |numbers| ==> f(numbers[j]) == g(numbers[j])
    ensures WithNumbers(d, name, numbers, f) == WithNumbers(d, name, numbers, g)
  {
    if numbers != [] {
      WithNumbersNormAgree(d, name, numbers[..|numbers| - 1], f, g);
    }
  }

  // ---------------------------------------------------------------- writing

  /** The `SetPhonebookEntry` action the router is asked to perform (the
      name as given; its HTML escaping and the XML envelope are not part of
      this model). */
  datatype Request = SetPhonebookEntry(pbId: int, name: string, number: string)

  // ---------------------------------------------------------------- the loops

  /** The loop of `get_all_names`: each contact is stored under its name,
      with '_' appended while that name is taken. */
  method GetAllNames(book: seq<Contact>, keepInternals: bool) returns (r: Result<seq<(string, seq<string>)>, PyError>)
    ensures r == AllNames(book, keepInternals)
  {
    var cs := AllContacts(book, keepInternals);
    if cs.Err? {
      return Err(cs.error);
    }
    var contacts := cs.value;
    var nameDict: seq<(string, seq<string>)> := [];
    for i := 0 to |contacts|
      invariant nameDict == NameEntries(contacts[..i])
    {
      var contact := contacts[i];
      var name := contact.name;
      while name in KeysOf(nameDict)
        invariant Suffixed(KeysOf(nameDict), name) == Suffixed(KeysOf(nameDict), contact.name)
        decreases MaxLength(KeysOf(nameDict)) + 1 - |name|
      {
        name := name + "_";
      }
      nameDict := nameDict + [(name, contact.numbers)];
      assert contacts[..i + 1][..i] == contacts[..i];
    }
    assert contacts[..|contacts|] == contacts;
    return Ok(nameDict);
  }

  /** The nested loop of `get_all_numbers`: every number of every entry,
      normalised, stored with the entry's name. */
  method FillNumbers(entries: seq<(string, seq<string>)>, norm: string -> string) returns (reverse: map<string, string>)
    ensures reverse == NumberMap(entries, norm)
  {
    reverse := map[];
    for i := 0 to |entries|
      invariant reverse == NumberMap(entries[..i], norm)
    {
      var (name, numbers) := entries[i];
      ghost var before := reverse;
      for j := 0 to |numbers|
        invariant reverse == WithNumbers(before, name, numbers[..j], norm)
      {
        reverse := reverse[norm(numbers[j]) := name];
        assert numbers[..j + 1][..j] == numbers[..j];
      }
      assert numbers[..|numbers|] == numbers;
      assert entries[..i + 1][..i] == entries[..i];
    }
    assert entries[..|entries|] == entries;
  }
}
