/** The batch driver, `fetch_all_characters`: one fetch per character id,
    then each surviving payload normalised and written, one at a time, in
    the order of the gathered results. */
module Orchestrator {
  import opened Wrappers
  import opened Json
  import opened Strings
  import opened Normalizer
  import opened Storage

  const ApiUrl: string := "https://swapi.dev/api/people/"

  /** Characters are fetched for ids 1 to `LastId` inclusive. */
  const LastId: nat := 100

  /** `f'{API_URL}{i}/' for i in range(1, 101)` */
  function CharacterUrls(): (urls: seq<string>)
    ensures |urls| == LastId
  {
    seq(LastId, i requires 0 <= i < LastId => ApiUrl + Decimal(i + 1) + "/")
  }

  /** The id derived back from each generated URL is the id it was built
      from, so the 100 URLs name 100 different characters. */
  lemma CharacterUrlIds()
    ensures forall i :: 0 <= i < LastId ==> ParseId(Text(CharacterUrls()[i])) == Ok(i + 1)
    ensures forall i, j :: 0 <= i < j < LastId ==> CharacterUrls()[i] != CharacterUrls()[j]
  {
    var urls := CharacterUrls();
    forall i | 0 <= i < LastId
      ensures ParseId(Text(urls[i])) == Ok(i + 1)
    {
      assert ApiUrl + Decimal(i + 1) + "/" == "https://swapi.dev/api/people" + "/" + Decimal(i + 1) + "/";
      IdOfResourceUrl("https://swapi.dev/api/people", Decimal(i + 1));
      DecimalRoundTrip(i + 1);
    }
  }

  /** One entry of the gathered top-level results, paired with the outcomes
      the relationship fetches for that character would have. */
  datatype Gathered = Gathered(person: Fetched, relations: Fetches)

  /** An entry reaches `save_character`: it is not a captured exception
      (`isinstance(person, Exception)`) and it is truthy (`if person`). */
  predicate Processed(g: Gathered) {
    !g.person.Raised? && FetchedTruthy(g.person)
  }

  /** What one gathered entry does to the table: a captured exception,
      a `None` result and an empty object are skipped; a non-empty object
      is saved, and a record without `url` is skipped there in turn. */
  function Effect(g: Gathered): (r: Outcome)
    ensures g.person.Raised? || g.person == Missing || g.person == Payload(map[]) ==> r == Skipped
    ensures g.person.Payload? && "url" !in g.person.data ==> r == Skipped
    ensures r.Crashed? ==> g.person.Payload? && "url" in g.person.data
    ensures g.person.Payload? && g.person.data != map[] ==> r == Normalize(g.person.data, g.relations)
  {
    if Processed(g) then Normalize(g.person.data, g.relations) else Skipped
  }

  /** A run either finishes, or stops at the first exception that escapes
      `save_character`; rows committed before that point stay written. */
  datatype RunOutcome = Completed(table: Table) | Aborted(table: Table, exc: Exception)

  /** The rows the entries store, in order. */
  function StoredRows(gs: seq<Gathered>): (rows: seq<Row>)
    ensures |rows| <= |gs|
    decreases |gs|
  {
    if gs == [] then []
    else (if Effect(gs[0]).Stored? then [Effect(gs[0]).row] else []) + StoredRows(gs[1..])
  }

  /** The index of the first entry whose processing raises, or `|gs|`. */
  function CrashIndex(gs: seq<Gathered>): (n: nat)
    ensures n <= |gs|
    ensures forall j :: 0 <= j < n ==> !Effect(gs[j]).Crashed?
    ensures n < |gs| ==> Effect(gs[n]).Crashed?
    decreases |gs|
  {
    if gs == [] then 0
    else if Effect(gs[0]).Crashed? then 0
    else
      assert forall j :: 0 <= j < |gs[1..]| ==> gs[1..][j] == gs[j + 1];
      1 + CrashIndex(gs[1..])
  }

  /** The loop of `fetch_all_characters` over the gathered results. */
  function Run(gs: seq<Gathered>, t: Table): (r: RunOutcome)
    ensures t.Keys <= r.table.Keys
    ensures forall k :: k in r.table && k !in t ==> k in IdsOf(StoredRows(gs))
    ensures forall k :: k in t && k !in IdsOf(StoredRows(gs)) ==> r.table[k] == t[k]
    decreases |gs|
  {
    if gs == [] then Completed(t)
    else
      match Effect(gs[0])
      case Stored(row) =>
        assert StoredRows(gs) == [row] + StoredRows(gs[1..]);
        assert ([row] + StoredRows(gs[1..]))[1..] == StoredRows(gs[1..]);
        Run(gs[1..], Upsert(t, row))
      case Skipped =>
        assert StoredRows(gs) == StoredRows(gs[1..]);
        Run(gs[1..], t)
      case Crashed(e) => Aborted(t, e)
  }

  /** A run writes exactly the rows of the entries before the first crash,
      in order; it completes exactly when no entry crashes, and an abort
      reports the exception of the first crashing entry. */
  lemma {:induction false} RunCommitsBeforeCrash(gs: seq<Gathered>, t: Table)
    ensures Run(gs, t).table == UpsertAll(t, StoredRows(gs[..CrashIndex(gs)]))
    ensures Run(gs, t).Completed? <==> CrashIndex(gs) == |gs|
    ensures Run(gs, t).Aborted? ==> Run(gs, t).exc == Effect(gs[CrashIndex(gs)]).exc
    decreases |gs|
  {
    if gs != [] {
      var n := CrashIndex(gs);
      match Effect(gs[0])
      case Crashed(e) =>
        assert n == 0;
        assert gs[..n] == [];
      case Skipped =>
        RunCommitsBeforeCrash(gs[1..], t);
        assert n == 1 + CrashIndex(gs[1..]);
        StoredRowsOfPrefix(gs, n);
        assert StoredRows(gs[..n]) == StoredRows(gs[1..][..n - 1]);
      case Stored(row) =>
        RunCommitsBeforeCrash(gs[1..], Upsert(t, row));
        StoredRowsOfPrefix(gs, n);
        var rest := StoredRows(gs[1..][..n - 1]);
        assert ([row] + rest)[1..] == rest;
    }
  }

  /** Unfolds `StoredRows` over a non-empty prefix. */
  lemma StoredRowsOfPrefix(gs: seq<Gathered>, n: nat)
    requires 0 < n <= |gs|
    ensures StoredRows(gs[..n]) ==
            (if Effect(gs[0]).Stored? then [Effect(gs[0]).row] else []) + StoredRows(gs[1..][..n - 1])
  {
    assert gs[..n][0] == gs[0];
    assert gs[..n][1..] == gs[1..][..n - 1];
  }

  /** Entries that never reach `save_character` (captured exceptions,
      missing results, empty objects) have no effect on the run. */
  function ProcessedOnly(gs: seq<Gathered>): (kept: seq<Gathered>)
    ensures forall i :: 0 <= i < |kept| ==> Processed(kept[i])
    ensures |kept| <= |gs|
    decreases |gs|
  {
    if gs == [] then []
    else (if Processed(gs[0]) then [gs[0]] else []) + ProcessedOnly(gs[1..])
  }

  /** A run over entries none of which reaches `save_character` completes
      and leaves the table as it was. */
  lemma {:induction false} RunOverSkippedEntries(gs: seq<Gathered>, t: Table)
    requires forall i :: 0 <= i < |gs| ==> !Processed(gs[i])
    ensures Run(gs, t) == Completed(t)
    decreases |gs|
  {
    if gs != [] {
      assert !Processed(gs[0]);
      assert forall i :: 0 <= i < |gs[1..]| ==> gs[1..][i] == gs[i + 1];
      RunOverSkippedEntries(gs[1..], t);
    }
  }

  lemma {:induction false} RunIgnoresSkippedEntries(gs: seq<Gathered>, t: Table)
    ensures Run(gs, t) == Run(ProcessedOnly(gs), t)
    decreases |gs|
  {
    if gs != [] {
      if Processed(gs[0]) {
        var kept := ProcessedOnly(gs);
        assert kept[0] == gs[0];
        assert kept[1..] == ProcessedOnly(gs[1..]);
        match Effect(gs[0])
        case Stored(row) => RunIgnoresSkippedEntries(gs[1..], Upsert(t, row));
        case Skipped => RunIgnoresSkippedEntries(gs[1..], t);
        case Crashed(e) =>
      } else {
        assert ProcessedOnly(gs) == ProcessedOnly(gs[1..]);
        RunIgnoresSkippedEntries(gs[1..], t);
      }
    }
  }

  /** `fetch_all_characters`: the table is dropped and recreated first, so
      every run starts empty. */
  function FetchAllCharacters(gs: seq<Gathered>): (r: RunOutcome)
    ensures r.table.Keys <= IdsOf(StoredRows(gs))
  {
    Run(gs, map[])
  }

  /** After a completed run the table holds one row per stored id, namely
      the row of the last entry that stored that id. */
  lemma FetchAllCharactersTable(gs: seq<Gathered>)
    requires FetchAllCharacters(gs).Completed?
    ensures FetchAllCharacters(gs).table.Keys == IdsOf(StoredRows(gs))
    ensures forall k :: k in IdsOf(StoredRows(gs)) ==>
              FetchAllCharacters(gs).table[k] == Latest(StoredRows(gs), k).value
  {
    RunCommitsBeforeCrash(gs, map[]);
    assert gs[..|gs|] == gs;
    forall k | k in IdsOf(StoredRows(gs))
      ensures FetchAllCharacters(gs).table[k] == Latest(StoredRows(gs), k).value
    {
      UpsertAllLatest(map[], StoredRows(gs), k);
    }
  }
}
