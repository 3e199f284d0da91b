/** Relationship resolution: reading one named field out of the payloads
    fetched for a character's related resources (films, species, starships,
    vehicles, homeworld).

    The fetches themselves are network I/O; here their outcomes are inputs,
    one per URL and in URL order, as `asyncio.gather` returns them. */
module Resolver {
  import opened Wrappers
  import opened Json

  /** `data and field in data`: a fetched payload that carries `field`. */
  predicate Carries(f: Fetched, field: string) {
    f.Payload? && f.data != map[] && field in f.data
  }

  /** What one fetched payload adds to the name list: its field, or nothing. */
  function Contribution(f: Fetched, field: string): (names: seq<Value>)
    ensures |names| == if Carries(f, field) then 1 else 0
  {
    if Carries(f, field) then [f.data[field]] else []
  }

  /** The names of the related resources that resolved, in URL order;
      failed fetches and payloads without the field leave no placeholder.
      A captured exception counts as a failed fetch (see
      `FetchNamesAsWritten` for the code as written). */
  function FetchNames(results: seq<Fetched>, field: string): (names: seq<Value>)
    ensures |names| <= |results|
    decreases |results|
  {
    if results == [] then []
    else Contribution(results[0], field) + FetchNames(results[1..], field)
  }

  /** Nothing is lost exactly when every fetch resolved and carried the
      field; when none did, the result is the empty list, not `None`. */
  lemma {:induction false} FetchNamesLength(results: seq<Fetched>, field: string)
    ensures |FetchNames(results, field)| == |results| <==> forall i :: 0 <= i < |results| ==> Carries(results[i], field)
    ensures (forall i :: 0 <= i < |results| ==> !Carries(results[i], field)) ==> FetchNames(results, field) == []
    decreases |results|
  {
    if results != [] {
      FetchNamesLength(results[1..], field);
      assert forall i :: 0 <= i < |results[1..]| ==> results[1..][i] == results[i + 1];
    }
  }

  /** Every name comes from a fetched payload that carries the field. */
  lemma {:induction false} FetchNamesSound(results: seq<Fetched>, field: string)
    ensures forall v :: v in FetchNames(results, field) ==>
              exists i :: 0 <= i < |results| && Carries(results[i], field) && results[i].data[field] == v
    decreases |results|
  {
    if results != [] {
      FetchNamesSound(results[1..], field);
      forall v | v in FetchNames(results, field)
        ensures exists i :: 0 <= i < |results| && Carries(results[i], field) && results[i].data[field] == v
      {
        if v !in FetchNames(results[1..], field) {
          assert Carries(results[0], field) && results[0].data[field] == v;
        } else {
          var i :| 0 <= i < |results[1..]| && Carries(results[1..][i], field) && results[1..][i].data[field] == v;
          assert results[i + 1] == results[1..][i];
        }
      }
    }
  }

  /** Resolution distributes over concatenation of the result list: the
      names come out in the order of the URLs. */
  lemma {:induction false} FetchNamesAppend(a: seq<Fetched>, b: seq<Fetched>, field: string)
    ensures FetchNames(a + b, field) == FetchNames(a, field) + FetchNames(b, field)
    decreases |a|
  {
    if a == [] {
      assert a + b == b;
    } else {
      var c := a + b;
      assert c[0] == a[0];
      assert c[1..] == a[1..] + b;
      FetchNamesAppend(a[1..], b, field);
      var head := Contribution(a[0], field);
      assert FetchNames(c, field) == head + FetchNames(c[1..], field);
      assert FetchNames(a, field) == head + FetchNames(a[1..], field);
      assert head + (FetchNames(a[1..], field) + FetchNames(b, field))
          == (head + FetchNames(a[1..], field)) + FetchNames(b, field);
    }
  }

  /** `fetch_names` as written: the list comprehension evaluates
      `field in data` on every truthy entry, and an exception captured by
      `gather` is truthy but does not support `in`, so the comprehension
      raises `TypeError` instead of skipping the entry. */
  function FetchNamesAsWritten(results: seq<Fetched>, field: string): (r: Result<seq<Value>>)
    ensures r.Err? <==> exists i :: 0 <= i < |results| && results[i].Raised?
    ensures r.Err? ==> r.error == TypeError
    ensures r.Ok? ==> r.value == FetchNames(results, field)
    decreases |results|
  {
    if results == [] then Ok([])
    else if results[0].Raised? then Err(TypeError)
    else
      var rest :- FetchNamesAsWritten(results[1..], field);
      assert forall i :: 0 <= i < |results[1..]| ==> results[1..][i] == results[i + 1];
      Ok(Contribution(results[0], field) + rest)
  }

  /** One film whose fetch raised an unexpected exception (a body that is
      not valid JSON, say) aborts the whole resolution as written, while the
      corrected resolution keeps the film that did resolve. */
  lemma CapturedExceptionAbortsResolution()
    ensures var results := [Payload(map["title" := Text("A New Hope")]), Raised(Exception("JSONDecodeError"))];
            && FetchNamesAsWritten(results, "title") == Err(TypeError)
            && FetchNames(results, "title") == [Text("A New Hope")]
  {
    var film: Object := map["title" := Text("A New Hope")];
    var results := [Payload(film), Raised(Exception("JSONDecodeError"))];
    assert results[1].Raised?;
    assert "title" in film && film != map[];
    assert Carries(results[0], "title");
    assert results[1..] == [Raised(Exception("JSONDecodeError"))];
    assert results[1..][1..] == [];
    assert FetchNames(results[1..], "title") == [];
  }

  /** `fetch_name`: a falsy URL resolves to `None` without a fetch; otherwise
      the field of the fetched payload, or `None` when the fetch failed or
      the payload lacks the field. An exception from the fetcher is not
      captured here and propagates. `None` is modelled as `Null`. */
  function FetchName(url: Value, result: Fetched, field: string): (r: Result<Value>)
    ensures !Truthy(url) ==> r == Ok(Null)
    ensures r.Err? <==> Truthy(url) && result.Raised?
    ensures r.Err? ==> r.error == result.exc
    ensures Truthy(url) && Carries(result, field) ==> r == Ok(result.data[field])
    ensures Truthy(url) && !result.Raised? && !Carries(result, field) ==> r == Ok(Null)
  {
    if !Truthy(url) then Ok(Null)
    else
      match result
      case Raised(e) => Err(e)
      case Missing => Ok(Null)
      case Payload(data) => if data != map[] && field in data then Ok(data[field]) else Ok(Null)
  }
}
