/**
 * What the three prefix readers share: the header check of the ONB file
 * (the German landline area codes published by the Federal Network Agency),
 * filling a table from the rows of a `;`-separated file, and resolving a
 * number by trying successively shorter leading slices of it.
 */
module Prefixes {
  import opened Wrappers
  import opened PyStr

  /** The three `assert`s on the header row of the ONB file, checked field by
      field: a field that is missing raises IndexError before the comparison,
      a field that differs raises AssertionError. */
  function OnbHeaderError(row: seq<string>): (r: Option<PyError>)
    ensures r.None? <==> |row| >= 3 && row[..3] == ["Ortsnetzkennzahl", "Ortsnetzname", "KennzeichenAktiv"]
    ensures r.Some? ==> r.value == IndexError || r.value == AssertionError
    ensures r == Some(IndexError) ==> |row| < 3
  {
    if |row| < 1 then Some(IndexError)
    else if row[0] != "Ortsnetzkennzahl" then Some(AssertionError)
    else if |row| < 2 then Some(IndexError)
    else if row[1] != "Ortsnetzname" then Some(AssertionError)
    else if |row| < 3 then Some(IndexError)
    else if row[2] != "KennzeichenAktiv" then Some(AssertionError)
    else
      assert row[..3] == [row[0], row[1], row[2]];
      None
  }

  /** The ONB rows after the header. */
  function OnbData(onb: seq<seq<string>>): (r: seq<seq<string>>)
    ensures onb != [] ==> r == onb[1..]
    ensures onb == [] ==> r == []
  {
    if onb == [] then [] else onb[1..]
  }

  /** The key of an ONB data row: '0' and the area code without its leading zero.
      (Only rows of three fields are used; a shorter row gets a dummy key.) */
  function OnbKey(row: seq<string>): string
  {
    if |row| >= 1 then "0" + row[0] else "0"
  }

  /** The key of an RNB row: the prefix with its dashes removed and "(0)" written as "0". */
  function RnbKey(row: seq<string>): string
  {
    if |row| >= 1 then ReplaceAll(ReplaceAll(row[0], "-", ""), "(0)", "0") else ""
  }

  // ---------------------------------------------------------------- filling a table from rows

  /** The table `d` after each row of exactly `width` fields, in order, has
      stored `entry(row)` under `key(row)`; other rows are skipped. */
  function WithRows<E>(d: map<string, E>, rows: seq<seq<string>>, width: nat,
                       key: seq<string> -> string, entry: seq<string> -> E): map<string, E>
  {
    if rows == [] then d
    else
      var prev := WithRows(d, rows[..|rows| - 1], width, key, entry);
      var row := rows[|rows| - 1];
      if |row| == width then prev[key(row) := entry(row)] else prev
  }

  /** Whether some row of `width` fields is stored under `k`. */
  predicate KeyOfRow(rows: seq<seq<string>>, width: nat, key: seq<string> -> string, k: string)
  {
    exists i :: 0 <= i < |rows| && |rows[i]| == width && key(rows[i]) == k
  }

  /** The keys after filling are the keys before and the keys of the used rows. */
  lemma {:induction false} WithRowsKeys<E>(d: map<string, E>, rows: seq<seq<string>>, width: nat,
                                           key: seq<string> -> string, entry: seq<string> -> E, k: string)
    ensures k in WithRows(d, rows, width, key, entry) <==> k in d || KeyOfRow(rows, width, key, k)
  {
    if rows != [] {
      var init := rows[..|rows| - 1];
      WithRowsKeys(d, init, width, key, entry, k);
      if KeyOfRow(init, width, key, k) {
        var i :| 0 <= i < |init| && |init[i]| == width && key(init[i]) == k;
        assert rows[i] == init[i];
      }
    }
  }

  /** A key that no used row has keeps its value from before. */
  lemma {:induction false} WithRowsUntouched<E>(d: map<string, E>, rows: seq<seq<string>>, width: nat,
                                                key: seq<string> -> string, entry: seq<string> -> E, k: string)
    requires k in d && !KeyOfRow(rows, width, key, k)
    ensures k in WithRows(d, rows, width, key, entry)
    ensures WithRows(d, rows, width, key, entry)[k] == d[k]
  {
    if rows != [] {
      var init := rows[..|rows| - 1];
      assert forall i :: 0 <= i < |init| ==> init[i] == rows[i];
      WithRowsUntouched(d, init, width, key, entry, k);
    }
  }

  /** A used row that no later used row shares a key with is the one that
      stays: later rows overwrite earlier ones. */
  lemma {:induction false} WithRowsLast<E>(d: map<string, E>, rows: seq<seq<string>>, width: nat,
                                           key: seq<string> -> string, entry: seq<string> -> E, i: nat)
    requires i < |rows| && |rows[i]| == width
    requires forall j :: i < j < |rows| && |rows[j]| == width ==> key(rows[j]) != key(rows[i])
    ensures key(rows[i]) in WithRows(d, rows, width, key, entry)
    ensures WithRows(d, rows, width, key, entry)[key(rows[i])] == entry(rows[i])
  {
    var init := rows[..|rows| - 1];
    if i < |rows| - 1 {
      assert init[i] == rows[i];
      forall j | i < j < |init| && |init[j]| == width
        ensures key(init[j]) != key(init[i])
      {
        assert init[j] == rows[j];
      }
      WithRowsLast(d, init, width, key, entry, i);
    }
  }

  /** Every entry of the table carries its own key as its code. */
  predicate CodesAreKeys<E>(table: map<string, E>, code: E -> string)
  {
    forall k :: k in table ==> code(table[k]) == k
  }

  /** Filling keeps every entry's code equal to its key when each row's entry
      carries the row's key as its code. */
  lemma {:induction false} WithRowsCodes<E>(d: map<string, E>, rows: seq<seq<string>>, width: nat,
                                            key: seq<string> -> string, entry: seq<string> -> E, code: E -> string)
    requires CodesAreKeys(d, code)
    requires forall i :: 0 <= i < |rows| && |rows[i]| == width ==> code(entry(rows[i])) == key(rows[i])
    ensures CodesAreKeys(WithRows(d, rows, width, key, entry), code)
  {
    if rows != [] {
      var init := rows[..|rows| - 1];
      forall i | 0 <= i < |init| && |init[i]| == width
        ensures code(entry(init[i])) == key(init[i])
      {
        assert init[i] == rows[i];
      }
      WithRowsCodes(d, init, width, key, entry, code);
      var last := rows[|rows| - 1];
      if |last| == width {
        assert code(entry(last)) == key(last);
      }
    }
  }

  /** Filling keeps a property that every entry before has and every used
      row's entry has. */
  lemma {:induction false} WithRowsEntries<E>(d: map<string, E>, rows: seq<seq<string>>, width: nat,
                                              key: seq<string> -> string, entry: seq<string> -> E, p: E -> bool)
    requires forall k :: k in d ==> p(d[k])
    requires forall i :: 0 <= i < |rows| && |rows[i]| == width ==> p(entry(rows[i]))
    ensures forall k :: k in WithRows(d, rows, width, key, entry) ==> p(WithRows(d, rows, width, key, entry)[k])
  {
    if rows != [] {
      var init := rows[..|rows| - 1];
      forall i | 0 <= i < |init| && |init[i]| == width
        ensures p(entry(init[i]))
      {
        assert init[i] == rows[i];
      }
      WithRowsEntries(d, init, width, key, entry, p);
    }
  }

  // ---------------------------------------------------------------- resolving a number

  /** `[number[:longest], number[:longest - 1], ..., number[:shortest]]` */
  function Slices(number: string, longest: nat, shortest: nat): (r: seq<string>)
    requires shortest <= longest
    ensures |r| == longest - shortest + 1
    ensures forall i :: 0 <= i < |r| ==> r[i] == Take(number, longest - i)
  {
    seq(longest - shortest + 1, i requires 0 <= i <= longest - shortest => Take(number, longest - i))
  }

  /** Candidate `i` is a key of the table and no candidate before it is. */
  predicate HitAt<E>(table: map<string, E>, cands: seq<string>, i: int)
  {
    0 <= i < |cands| && cands[i] in table && forall j :: 0 <= j < i ==> cands[j] !in table
  }

  /** A first hit among all but a missing first candidate is a first hit one
      place further on. */
  lemma HitAtShift<E>(table: map<string, E>, cands: seq<string>)
    requires cands != [] && cands[0] !in table
    ensures forall i :: HitAt(table, cands[1..], i) ==> HitAt(table, cands, i + 1) && cands[i + 1] == cands[1..][i]
  {
    forall i | HitAt(table, cands[1..], i)
      ensures HitAt(table, cands, i + 1)
    {
      forall j | 0 <= j < i + 1 ensures cands[j] !in table {
        if j > 0 {
          assert cands[j] == cands[1..][j - 1];
        }
      }
    }
  }

  /** The entry of the first candidate that is a key of the table: there is
      none exactly when no candidate is a key, and when there is one, every
      candidate before it is missing from the table. */
  function FirstHit<E>(table: map<string, E>, cands: seq<string>): (r: Option<E>)
    ensures r.None? <==> forall i :: 0 <= i < |cands| ==> cands[i] !in table
    ensures r.Some? ==> exists i :: HitAt(table, cands, i) && r.value == table[cands[i]]
  {
    if cands == [] then None
    else if cands[0] in table then
      assert HitAt(table, cands, 0);
      Some(table[cands[0]])
    else
      HitAtShift(table, cands);
      assert forall i :: 0 < i < |cands| ==> cands[i] == cands[1..][i - 1];
      FirstHit(table, cands[1..])
  }

  /** A candidate that is a key and comes before every other one that is a
      key decides the result. */
  lemma {:induction false} FirstHitAt<E>(table: map<string, E>, cands: seq<string>, i: nat)
    requires i < |cands| && cands[i] in table
    requires forall j :: 0 <= j < i ==> cands[j] !in table
    ensures FirstHit(table, cands) == Some(table[cands[i]])
  {
    if i > 0 {
      assert cands[0] !in table;
      forall j | 0 <= j < i - 1 ensures cands[1..][j] !in table {
        assert cands[1..][j] == cands[j + 1];
      }
      FirstHitAt(table, cands[1..], i - 1);
    }
  }

  /** The lookup over the slices finds the longest prefix of `shortest` to
      `longest` characters that is a key, and finds nothing exactly when none
      is. */
  lemma LongestSlice<E>(table: map<string, E>, number: string, longest: nat, shortest: nat)
    requires shortest <= longest
    ensures var r := FirstHit(table, Slices(number, longest, shortest));
            && (r.None? <==> forall len :: shortest <= len <= longest ==> Take(number, len) !in table)
            && (r.Some? ==> exists len :: && shortest <= len <= longest && Take(number, len) in table
                                          && r.value == table[Take(number, len)]
                                          && forall longer :: len < longer <= longest ==> Take(number, longer) !in table)
  {
    var cands := Slices(number, longest, shortest);
    var r := FirstHit(table, cands);
    assert forall len :: shortest <= len <= longest ==> Take(number, len) == cands[longest - len];
    if r.Some? {
      var i :| HitAt(table, cands, i) && r.value == table[cands[i]];
      var len := longest - i;
      assert Take(number, len) in table && r.value == table[Take(number, len)];
      forall longer | len < longer <= longest ensures Take(number, longer) !in table {
        assert Take(number, longer) == cands[longest - longer];
      }
    }
  }

  /** A key of at most `longest` and at least `shortest` characters is
      found under itself. */
  lemma LookupWhole<E>(table: map<string, E>, number: string, longest: nat, shortest: nat)
    requires shortest <= longest && |number| <= longest && number in table
    ensures FirstHit(table, Slices(number, longest, shortest)) == Some(table[number])
  {
    var cands := Slices(number, longest, shortest);
    assert cands[0] == number;
    FirstHitAt(table, cands, 0);
  }

  /** What `get_prefix_name` makes of a lookup: the entry's name, else
      "ABROAD" for a number starting with "00", else "UNKNOWN". */
  function NameOrFallback(name: Option<string>, number: string): (r: string)
    ensures name.Some? ==> r == name.value
    ensures name.None? ==> (r == "ABROAD" <==> "00" <= number)
    ensures name.None? ==> (r == "UNKNOWN" <==> !("00" <= number))
  {
    if name.Some? then name.value
    else if "00" <= number then "ABROAD"
    else "UNKNOWN"
  }
}
