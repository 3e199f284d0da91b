/** Record normalisation: the body of `save_character` up to the write.

    A character payload plus the outcomes of its relationship fetches
    becomes one flat row of the `characters` table, is skipped, or raises. */
module Normalizer {
  import opened Wrappers
  import opened Json
  import opened Strings
  import opened Resolver

  /** The default for a scalar field the payload lacks, and for a homeworld
      that did not resolve to a non-empty name. */
  const Unknown: Value := Text("Unknown")

  /** The eight scalar columns, copied from the payload key of the same name. */
  const ScalarKeys: seq<string> :=
    ["name", "birth_year", "eye_color", "gender", "hair_color", "height", "mass", "skin_color"]

  /** One row of the `characters` table. Scalar columns hold whatever the
      payload held (JSON null included); the four relation columns hold the
      joined names. */
  datatype Row = Row(
    id: int,
    name: Value,
    birthYear: Value,
    eyeColor: Value,
    films: string,
    gender: Value,
    hairColor: Value,
    height: Value,
    homeworld: Value,
    mass: Value,
    skinColor: Value,
    species: string,
    starships: string,
    vehicles: string)

  /** A row's column by its name in the table schema. */
  function Column(row: Row, column: string): Option<Value> {
    if column == "name" then Some(row.name)
    else if column == "birth_year" then Some(row.birthYear)
    else if column == "eye_color" then Some(row.eyeColor)
    else if column == "films" then Some(Text(row.films))
    else if column == "gender" then Some(row.gender)
    else if column == "hair_color" then Some(row.hairColor)
    else if column == "height" then Some(row.height)
    else if column == "homeworld" then Some(row.homeworld)
    else if column == "mass" then Some(row.mass)
    else if column == "skin_color" then Some(row.skinColor)
    else if column == "species" then Some(Text(row.species))
    else if column == "starships" then Some(Text(row.starships))
    else if column == "vehicles" then Some(Text(row.vehicles))
    else None
  }

  /** The gathered outcomes of one character's relationship fetches, one per
      related URL and in URL order, plus the outcome of the homeworld fetch
      (unused when the homeworld URL is falsy). */
  datatype Fetches = Fetches(
    films: seq<Fetched>,
    species: seq<Fetched>,
    starships: seq<Fetched>,
    vehicles: seq<Fetched>,
    homeworld: Fetched)

  /** What `save_character` does with one payload. */
  datatype Outcome = Stored(row: Row) | Skipped | Crashed(exc: Exception)

  /** `data.get(key, [])` iterated as `fetch_names` iterates it: a list
      gives its URLs, a string gives its characters, `None` raises. */
  function RelationUrls(raw: Object, key: string): (r: Result<seq<string>>)
    ensures r.Err? <==> key in raw && raw[key].Null?
    ensures key !in raw ==> r == Ok([])
  {
    match Get(raw, key, Links([]))
    case Links(us) => Ok(us)
    case Text(s) => Ok(seq(|s|, i requires 0 <= i < |s| => [s[i]]))
    case Null => Err(TypeError)
  }

  predicate AllText(names: seq<Value>) {
    forall i :: 0 <= i < |names| ==> names[i].Text?
  }

  function Texts(names: seq<Value>): (texts: seq<string>)
    requires AllText(names)
  {
    seq(|names|, i requires 0 <= i < |names| && names[i].Text? => names[i].text)
  }

  /** `", ".join(names)`: raises `TypeError` unless every name is a string. */
  function JoinNames(names: seq<Value>): Result<string> {
    if AllText(names) then Ok(Join(Texts(names), Separator)) else Err(TypeError)
  }

  /** `int(url.split('/')[-2])`: the id is the second-to-last path segment.
      A URL that is not a string has no `split` (`AttributeError`), one
      without a `/` has no second-to-last piece (`IndexError`), and a piece
      that is not a number raises `ValueError`. */
  function ParseId(url: Value): (r: Result<int>)
    ensures !url.Text? ==> r == Err(AttributeError)
  {
    match url
    case Text(s) =>
      var parts := Split(s, '/');
      if |parts| < 2 then Err(IndexError) else ParseInt(parts[|parts| - 2])
    case _ => Err(AttributeError)
  }

  /** A URL string without any `/` has no second-to-last segment. */
  lemma IdOfUrlWithoutSlash(url: string)
    requires forall i :: 0 <= i < |url| ==> url[i] != '/'
    ensures ParseId(Text(url)) == Err(IndexError)
  {
    SplitWhole(url, '/');
  }

  /** For `url == p + "/" + d + "/"` with `d` a decimal number, the derived
      id is the number `d` denotes (`.../people/7/` gives 7). */
  lemma IdOfResourceUrl(p: string, d: string)
    requires IsDecimal(d)
    ensures ParseId(Text(p + "/" + d + "/")) == Ok(DecimalValue(d))
  {
    var url := p + "/" + d + "/";
    assert url == p + ['/'] + (d + ['/'] + []);
    SplitAround(p, '/', d + ['/'] + []);
    SplitAround(d, '/', []);
    SplitWhole(d, '/');
    assert Split([], '/') == [[]];
    assert Split(url, '/') == Split(p, '/') + [d] + [[]];
  }

  /** The homeworld column: `homeworld or 'Unknown'`. */
  function OrUnknown(name: Value): Value {
    if Truthy(name) then name else Unknown
  }

  /** Every step of `save_character` after the `url` check, in source order:
      the four relation lists, the homeworld, the id, then the joins. Each
      relation list is resolved as `fetch_names` is written, so a captured
      exception among its fetch results raises `TypeError` here. */
  function Build(raw: Object, f: Fetches): Result<Row>
    requires "url" in raw
  {
    var _ :- RelationUrls(raw, "films");
    var films :- FetchNamesAsWritten(f.films, "title");
    var _ :- RelationUrls(raw, "species");
    var species :- FetchNamesAsWritten(f.species, "name");
    var _ :- RelationUrls(raw, "starships");
    var starships :- FetchNamesAsWritten(f.starships, "name");
    var _ :- RelationUrls(raw, "vehicles");
    var vehicles :- FetchNamesAsWritten(f.vehicles, "name");
    var homeworld :- FetchName(Get(raw, "homeworld", Null), f.homeworld, "name");
    var id :- ParseId(raw["url"]);
    var filmsText :- JoinNames(films);
    var speciesText :- JoinNames(species);
    var starshipsText :- JoinNames(starships);
    var vehiclesText :- JoinNames(vehicles);
    Ok(Row(
      id := id,
      name := Get(raw, "name", Unknown),
      birthYear := Get(raw, "birth_year", Unknown),
      eyeColor := Get(raw, "eye_color", Unknown),
      films := filmsText,
      gender := Get(raw, "gender", Unknown),
      hairColor := Get(raw, "hair_color", Unknown),
      height := Get(raw, "height", Unknown),
      homeworld := OrUnknown(homeworld),
      mass := Get(raw, "mass", Unknown),
      skinColor := Get(raw, "skin_color", Unknown),
      species := speciesText,
      starships := starshipsText,
      vehicles := vehiclesText))
  }

  /** Some relationship fetch of films, species, starships or vehicles
      ended in an exception that `gather` captured. */
  predicate CapturedIn(f: Fetches) {
    || (exists i :: 0 <= i < |f.films| && f.films[i].Raised?)
    || (exists i :: 0 <= i < |f.species| && f.species[i].Raised?)
    || (exists i :: 0 <= i < |f.starships| && f.starships[i].Raised?)
    || (exists i :: 0 <= i < |f.vehicles| && f.vehicles[i].Raised?)
  }

  /** The conditions under which a payload with a `url` becomes a row
      rather than an exception. */
  predicate Survives(raw: Object, f: Fetches)
    requires "url" in raw
  {
    && !(("films" in raw && raw["films"].Null?) || ("species" in raw && raw["species"].Null?)
         || ("starships" in raw && raw["starships"].Null?) || ("vehicles" in raw && raw["vehicles"].Null?))
    && !CapturedIn(f)
    && !(Truthy(Get(raw, "homeworld", Null)) && f.homeworld.Raised?)
    && ParseId(raw["url"]).Ok?
    && AllText(FetchNames(f.films, "title"))
    && AllText(FetchNames(f.species, "name"))
    && AllText(FetchNames(f.starships, "name"))
    && AllText(FetchNames(f.vehicles, "name"))
  }

  /** The resolved homeworld name, `None` (modelled as `Null`) when the URL
      is falsy, the fetch failed or the payload lacks `name`. */
  function ResolvedHomeworld(raw: Object, f: Fetches): Value {
    if Truthy(Get(raw, "homeworld", Null)) && Carries(f.homeworld, "name") then f.homeworld.data["name"] else Null
  }

  /** `save_character` up to the write. */
  function Normalize(raw: Object, f: Fetches): (r: Outcome)
    ensures r.Skipped? <==> "url" !in raw
    ensures r.Stored? <==> "url" in raw && Survives(raw, f)
    ensures "url" in raw && CapturedIn(f) ==> r == Crashed(TypeError)
    ensures r.Stored? ==> ParseId(raw["url"]) == Ok(r.row.id)
    ensures r.Stored? ==>
              r.row.homeworld == (if Truthy(ResolvedHomeworld(raw, f)) then ResolvedHomeworld(raw, f) else Unknown)
    ensures r.Stored? ==>
              && JoinNames(FetchNames(f.films, "title")) == Ok(r.row.films)
              && JoinNames(FetchNames(f.species, "name")) == Ok(r.row.species)
              && JoinNames(FetchNames(f.starships, "name")) == Ok(r.row.starships)
              && JoinNames(FetchNames(f.vehicles, "name")) == Ok(r.row.vehicles)
  {
    if "url" !in raw then Skipped
    else
      match Build(raw, f)
      case Ok(row) => Stored(row)
      case Err(e) => Crashed(e)
  }

  /** Each scalar column of a stored row is the payload's value under the
      column's name, or `"Unknown"` when the payload lacks the key. */
  lemma NormalizedScalars(raw: Object, f: Fetches)
    requires Normalize(raw, f).Stored?
    ensures forall k :: k in ScalarKeys ==> Column(Normalize(raw, f).row, k) == Some(Get(raw, k, Unknown))
  {
    var row := Normalize(raw, f).row;
    assert Build(raw, f) == Ok(row);
    forall k | k in ScalarKeys
      ensures Column(row, k) == Some(Get(raw, k, Unknown))
    {
      assert k == ScalarKeys[0] || k == ScalarKeys[1] || k == ScalarKeys[2] || k == ScalarKeys[3]
          || k == ScalarKeys[4] || k == ScalarKeys[5] || k == ScalarKeys[6] || k == ScalarKeys[7];
    }
  }

  /** A joined relation column: an empty name list gives `""` (not
      `"Unknown"`), and splitting the column on `", "` gives back the names
      when none of them contains the separator. */
  lemma RelationColumn(names: seq<Value>, column: string)
    requires JoinNames(names) == Ok(column)
    ensures AllText(names)
    ensures names == [] ==> column == ""
    ensures names != [] && (forall i :: 0 <= i < |names| ==> !HasSeparator(names[i].text)) ==>
              SplitNames(column) == Texts(names)
  {
    var texts := Texts(names);
    if names != [] && (forall i :: 0 <= i < |names| ==> !HasSeparator(names[i].text)) {
      SplitJoinRoundTrip(texts);
    }
  }

  /** A stored row's films column lists exactly the titles that resolved,
      in URL order; likewise species, starships and vehicles by name. */
  lemma NormalizedRelations(raw: Object, f: Fetches)
    requires Normalize(raw, f).Stored?
    ensures var row := Normalize(raw, f).row;
            && (FetchNames(f.films, "title") == [] ==> row.films == "")
            && (FetchNames(f.species, "name") == [] ==> row.species == "")
            && (FetchNames(f.starships, "name") == [] ==> row.starships == "")
            && (FetchNames(f.vehicles, "name") == [] ==> row.vehicles == "")
    ensures var names := FetchNames(f.films, "title");
            names != [] && (forall i :: 0 <= i < |names| ==> names[i].Text? && !HasSeparator(names[i].text)) ==>
              SplitNames(Normalize(raw, f).row.films) == Texts(names)
    ensures var names := FetchNames(f.species, "name");
            names != [] && (forall i :: 0 <= i < |names| ==> names[i].Text? && !HasSeparator(names[i].text)) ==>
              SplitNames(Normalize(raw, f).row.species) == Texts(names)
    ensures var names := FetchNames(f.starships, "name");
            names != [] && (forall i :: 0 <= i < |names| ==> names[i].Text? && !HasSeparator(names[i].text)) ==>
              SplitNames(Normalize(raw, f).row.starships) == Texts(names)
    ensures var names := FetchNames(f.vehicles, "name");
            names != [] && (forall i :: 0 <= i < |names| ==> names[i].Text? && !HasSeparator(names[i].text)) ==>
              SplitNames(Normalize(raw, f).row.vehicles) == Texts(names)
  {
    var row := Normalize(raw, f).row;
    RelationColumn(FetchNames(f.films, "title"), row.films);
    RelationColumn(FetchNames(f.species, "name"), row.species);
    RelationColumn(FetchNames(f.starships, "name"), row.starships);
    RelationColumn(FetchNames(f.vehicles, "name"), row.vehicles);
  }

  /** A stored row's id is the number in its URL's last path segment. */
  lemma NormalizedId(raw: Object, f: Fetches, p: string, d: string)
    requires IsDecimal(d)
    requires "url" in raw && raw["url"] == Text(p + "/" + d + "/")
    requires Normalize(raw, f).Stored?
    ensures Normalize(raw, f).row.id == DecimalValue(d)
  {
    IdOfResourceUrl(p, d);
  }
}
