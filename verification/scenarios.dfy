/** End-to-end behaviour of the pipeline on concrete payloads. */
module Scenarios {
  import opened Wrappers
  import opened Json
  import opened Resolver
  import opened Normalizer
  import opened Storage
  import opened Orchestrator

  /** Films `[A, B]` where A resolves to a title and B fails to fetch: the
      stored films column is exactly A's title, with no placeholder for B. */
  lemma FailedFilmOmitted(raw: Object, f: Fetches, title: string)
    requires f.films == [Payload(map["title" := Text(title)]), Missing]
    requires Normalize(raw, f).Stored?
    ensures Normalize(raw, f).row.films == title
  {
    var film: Object := map["title" := Text(title)];
    assert "title" in film && film != map[];
    assert Carries(f.films[0], "title");
    assert f.films[1..] == [Missing];
    assert f.films[1..][1..] == [];
    assert FetchNames(f.films[1..], "title") == [];
    assert FetchNames(f.films, "title") == [Text(title)];
    assert Texts([Text(title)]) == [title];
  }

  /** A payload without a `homeworld` key stores `"Unknown"` there. */
  lemma AbsentHomeworldIsUnknown(raw: Object, f: Fetches)
    requires "homeworld" !in raw
    requires Normalize(raw, f).Stored?
    ensures Normalize(raw, f).row.homeworld == Text("Unknown")
  {
  }

  /** An empty species list stores `""`, not the `"Unknown"` sentinel. */
  lemma EmptySpeciesIsEmptyString(raw: Object, f: Fetches)
    requires "species" in raw && raw["species"] == Links([]) && f.species == []
    requires Normalize(raw, f).Stored?
    ensures Normalize(raw, f).row.species == ""
    ensures Text(Normalize(raw, f).row.species) != Unknown
  {
    NormalizedRelations(raw, f);
  }

  /** A payload without `url` stores nothing, and a run over it leaves the
      table as it was. */
  lemma NoUrlLeavesTable(t: Table, raw: Object, f: Fetches)
    requires raw != map[] && "url" !in raw
    ensures Run([Gathered(Payload(raw), f)], t) == Completed(t)
  {
    var gs := [Gathered(Payload(raw), f)];
    assert Effect(gs[0]) == Skipped;
    assert gs[1..] == [];
  }

  /** A character one of whose film fetches raised (a body that is not
      valid JSON, say) ends the whole run with `TypeError`: neither it nor
      any later character is written. */
  lemma CapturedFilmAbortsRun(t: Table, raw: Object, f: Fetches, later: seq<Gathered>)
    requires "url" in raw
    requires exists i :: 0 <= i < |f.films| && f.films[i].Raised?
    ensures Run([Gathered(Payload(raw), f)] + later, t) == Aborted(t, TypeError)
  {
    var gs := [Gathered(Payload(raw), f)] + later;
    assert gs[0] == Gathered(Payload(raw), f);
    assert Effect(gs[0]) == Crashed(TypeError);
  }
}
