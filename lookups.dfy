/**
 * What the two `CallInfo` revisions get back from the outside world: the
 * body of an HTTP answer or the `HTTPError` that `raise_for_status` raised,
 * and the part of the score service's decoded JSON that they read.
 */
module Lookups {
  import opened Wrappers

  /** The outcome of one HTTP request. */
  datatype Fetch<T> = HttpError | Fetched(body: T)

  /** The decoded `tellows` object of the score service.  `score` and
      `comments` hold what `int(...)` makes of those fields, `None` where it
      raises ValueError; an optional key that is absent is `None`; the
      caller lists hold the names only. */
  datatype TellowsRecord = TellowsRecord(
    score: Option<int>,
    comments: Option<int>,
    searches: string,
    location: string,
    numberDetailsName: Option<string>,
    callerNames: Option<seq<string>>,
    callerTypes: Option<seq<string>>)

  /** The caller type the score service reports when it knows nothing. */
  const UNBEKANNT := "Unbekannt"

  /** The first caller type other than "Unbekannt", if there is one. */
  function FirstKnownType(types: seq<string>): (r: Option<string>)
    ensures r.None? <==> forall i :: 0 <= i < |types| ==> types[i] == UNBEKANNT
    ensures r.Some? ==> exists i :: && 0 <= i < |types| && types[i] == r.value && r.value != UNBEKANNT
                                    && forall j :: 0 <= j < i ==> types[j] == UNBEKANNT
  {
    if types == [] then None
    else if types[0] != UNBEKANNT then Some(types[0])
    else
      var rest := FirstKnownType(types[1..]);
      assert forall j :: 1 <= j < |types| ==> types[j] == types[1..][j - 1];
      rest
  }

  /** The scan over the caller types: "Unbekannt" entries are skipped with
      `continue`, the first other one ends the loop with `break`. */
  method ScanCallerTypes(types: seq<string>) returns (r: Option<string>)
    ensures r == FirstKnownType(types)
  {
    r := None;
    for i := 0 to |types|
      invariant r.None?
      invariant FirstKnownType(types) == FirstKnownType(types[i..])
    {
      assert types[i..][1..] == types[i + 1..];
      if types[i] == UNBEKANNT {
        continue;
      }
      r := Some(types[i]);
      break;
    }
  }
}
