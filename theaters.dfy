/** The theater store of app/repositories/theater.repository.ts: screen
    assignment (a read-check-append on a theater's embedded `movies`
    list) and the theater/movie report (an unwind/lookup/project
    pipeline, modelled as a pure function). */
module Theaters {
  import opened Common

  /** A movie document (app/models/movie.model.ts). `releaseDate` is kept as
      the stored text. */
  datatype Movie = Movie(moviename: string, genre: string, language: string, duration: string,
                         cast: seq<string>, director: string, releaseDate: string)

  /** One entry of a theater's `movies` list: a movie reference, a screen
      number and the show times on it. */
  datatype Assignment = Assignment(movie: Id, screenNumber: int, showTimings: seq<string>)

  /** A theater document (app/models/theater.model.ts). */
  datatype Theater = Theater(name: string, location: string, screens: int, movies: seq<Assignment>)

  /** The errors `assign_movie_to_theather` throws. */
  datatype TheaterError = TheaterNotFound | ScreenTaken(screenNumber: int)

  datatype Outcome<+T> = Ok(value: T) | Err(error: TheaterError)

  /** The `message` of the thrown `Error`. */
  function ErrorMessage(e: TheaterError): (m: string)
    ensures e.TheaterNotFound? <==> m == "Theater not found"
    ensures e.ScreenTaken? ==>
      m == "Screen " + IntToString(e.screenNumber) + " already assigned to another movie"
  {
    match e
    case TheaterNotFound => "Theater not found"
    case ScreenTaken(n) => "Screen " + IntToString(n) + " already assigned to another movie"
  }

  /** Some entry of `movies` is on screen `n` (compared with `===`). */
  predicate ScreenInUse(movies: seq<Assignment>, n: int) {
    exists i :: 0 <= i < |movies| && movies[i].screenNumber == n
  }

  /** No two entries of `movies` share a screen number. */
  predicate ScreensDistinct(movies: seq<Assignment>) {
    forall i, j :: 0 <= i < j < |movies| ==> movies[i].screenNumber != movies[j].screenNumber
  }

  /** The theater after a successful assignment: one entry appended. */
  function Assigned(t: Theater, movieId: Id, screenNumber: int, showTimings: seq<string>): Theater {
    t.(movies := t.movies + [Assignment(movieId, screenNumber, showTimings)])
  }

  /** An assignment to a free screen keeps the screen numbers distinct. */
  lemma AssignedKeepsScreensDistinct(t: Theater, movieId: Id, n: int, showTimings: seq<string>)
    requires ScreensDistinct(t.movies) && !ScreenInUse(t.movies, n)
    ensures ScreensDistinct(Assigned(t, movieId, n, showTimings).movies)
  {
    var m := Assigned(t, movieId, n, showTimings).movies;
    forall i, j | 0 <= i < j < |m| ensures m[i].screenNumber != m[j].screenNumber {
      if j == |t.movies| {
        assert m[i] == t.movies[i];
      } else {
        assert m[i] == t.movies[i] && m[j] == t.movies[j];
      }
    }
  }

  /** `theater.movies.find((f) => f.screenNumber === screenNumber)`: the
      first entry on that screen, if any. */
  method FindScreen(movies: seq<Assignment>, n: int) returns (found: Option<Assignment>)
    ensures found.None? <==> !ScreenInUse(movies, n)
    ensures found.Some? ==> exists i :: 0 <= i < |movies| && movies[i] == found.value &&
                              movies[i].screenNumber == n &&
                              forall j :: 0 <= j < i ==> movies[j].screenNumber != n
  {
    var i := 0;
    while i < |movies|
      invariant 0 <= i <= |movies|
      invariant forall j :: 0 <= j < i ==> movies[j].screenNumber != n
    {
      if movies[i].screenNumber == n {
        return Some(movies[i]);
      }
      i := i + 1;
    }
    return None;
  }

  /** A partial theater update as it arrives in a request body: every
      field that is present overwrites the stored one. */
  datatype TheaterPatch = TheaterPatch(name: Option<string>, location: Option<string>,
                                       screens: Option<int>, movies: Option<seq<Assignment>>)

  /** `findByIdAndUpdate(id, data)` applied to a document: the fields the
      patch carries are set, with no check of any kind. */
  function ApplyPatch(t: Theater, p: TheaterPatch): (u: Theater)
    ensures u.name == (if p.name.Some? then p.name.value else t.name)
    ensures u.location == (if p.location.Some? then p.location.value else t.location)
    ensures u.screens == (if p.screens.Some? then p.screens.value else t.screens)
    ensures u.movies == (if p.movies.Some? then p.movies.value else t.movies)
  {
    Theater(if p.name.Some? then p.name.value else t.name,
            if p.location.Some? then p.location.value else t.location,
            if p.screens.Some? then p.screens.value else t.screens,
            if p.movies.Some? then p.movies.value else t.movies)
  }

  /** The raw update path does not keep screen numbers distinct: a patch
      that carries a `movies` list with a repeated screen is stored as is. */
  lemma PatchCanRepeatScreens(t: Theater, a: Assignment)
    ensures !ScreensDistinct(ApplyPatch(t, TheaterPatch(None, None, None, Some([a, a]))).movies)
  {
    var u := ApplyPatch(t, TheaterPatch(None, None, None, Some([a, a])));
    assert u.movies[0].screenNumber == u.movies[1].screenNumber;
  }

  /** The theater collection, keyed by document id. */
  class TheaterRepository {
    var theaters: map<Id, Theater>

    constructor (initial: map<Id, Theater>)
      ensures theaters == initial
    {
      theaters := initial;
    }

    /** `findById(id)`. */
    method FindById(id: Id) returns (r: Option<Theater>)
      ensures r.None? <==> id !in theaters
      ensures r.Some? ==> r.value == theaters[id]
    {
      if id in theaters {
        r := Some(theaters[id]);
      } else {
        r := None;
      }
    }

    /** `update(id, data)`: `findByIdAndUpdate` with `{ new: true }`. */
    method Update(id: Id, patch: TheaterPatch) returns (r: Option<Theater>)
      modifies this
      ensures id !in old(theaters) ==> r.None? && theaters == old(theaters)
      ensures id in old(theaters) ==>
        r == Some(ApplyPatch(old(theaters)[id], patch)) && theaters == old(theaters)[id := r.value]
    {
      if id in theaters {
        var updated := ApplyPatch(theaters[id], patch);
        theaters := theaters[id := updated];
        r := Some(updated);
      } else {
        r := None;
      }
    }

    /** `delete(id)`: `findByIdAndDelete`, returning the removed document. */
    method Delete(id: Id) returns (r: Option<Theater>)
      modifies this
      ensures id !in old(theaters) ==> r.None? && theaters == old(theaters)
      ensures id in old(theaters) ==> r == Some(old(theaters)[id]) && theaters == old(theaters) - {id}
    {
      if id in theaters {
        r := Some(theaters[id]);
        theaters := theaters - {id};
      } else {
        r := None;
      }
    }

    /** `assign_movie_to_theather`: load the theater, refuse a screen that
        is already in use, else append the entry and save. Neither the
        screen number is checked against `screens` nor the movie id against
        the movie collection. */
    method AssignMovieToTheater(theaterId: Id, movieId: Id, screenNumber: int, showTimings: seq<string>)
      returns (r: Outcome<Theater>)
      modifies this
      ensures theaterId !in old(theaters) ==> r == Err(TheaterNotFound) && theaters == old(theaters)
      ensures theaterId in old(theaters) && ScreenInUse(old(theaters)[theaterId].movies, screenNumber) ==>
                r == Err(ScreenTaken(screenNumber)) && theaters == old(theaters)
      ensures theaterId in old(theaters) && !ScreenInUse(old(theaters)[theaterId].movies, screenNumber) ==>
                r == Ok(Assigned(old(theaters)[theaterId], movieId, screenNumber, showTimings)) &&
                theaters == old(theaters)[theaterId := r.value]
      ensures r.Ok? ==> var before := old(theaters)[theaterId];
                && r.value.movies == before.movies + [Assignment(movieId, screenNumber, showTimings)]
                && r.value.name == before.name && r.value.location == before.location
                && r.value.screens == before.screens
                && (ScreensDistinct(before.movies) ==> ScreensDistinct(r.value.movies))
    {
      var theater := FindById(theaterId);
      if theater.None? {
        return Err(TheaterNotFound);
      }
      var existingScreen := FindScreen(theater.value.movies, screenNumber);
      if existingScreen.Some? {
        return Err(ScreenTaken(screenNumber));
      }
      var saved := Assigned(theater.value, movieId, screenNumber, showTimings);
      if ScreensDistinct(theater.value.movies) {
        AssignedKeepsScreensDistinct(theater.value, movieId, screenNumber, showTimings);
      }
      theaters := theaters[theaterId := saved];
      return Ok(saved);
    }
  }

  /** One row of the theater/movie report. `theatername` projects a field
      the theater schema does not have, so it is always absent. */
  datatype ReportRow = ReportRow(moviename: string, genre: string, language: string, duration: string,
                                 cast: seq<string>, director: string, theatername: Option<string>,
                                 location: string, screens: int, screenNumber: int,
                                 showTimings: seq<string>)

  /** The `$project` stage for one unwound (theater, entry, movie) triple. */
  function Row(t: Theater, a: Assignment, m: Movie): (r: ReportRow)
    ensures r.moviename == m.moviename && r.genre == m.genre && r.language == m.language
    ensures r.duration == m.duration && r.cast == m.cast && r.director == m.director
    ensures r.theatername.None? && r.location == t.location && r.screens == t.screens
    ensures r.screenNumber == a.screenNumber && r.showTimings == a.showTimings
  {
    ReportRow(m.moviename, m.genre, m.language, m.duration, m.cast, m.director, None,
              t.location, t.screens, a.screenNumber, a.showTimings)
  }

  /** The rows one theater contributes: one per entry whose movie resolves. */
  function TheaterRows(t: Theater, entries: seq<Assignment>, movies: map<Id, Movie>): (rows: seq<ReportRow>)
    ensures forall k :: 0 <= k < |rows| ==> rows[k].theatername.None? && rows[k].location == t.location
  {
    if |entries| == 0 then []
    else
      var first := if entries[0].movie in movies then [Row(t, entries[0], movies[entries[0].movie])] else [];
      first + TheaterRows(t, entries[1..], movies)
  }

  /** `get_movie_theater_details` over the theaters in collection order.
      The `$sort` stage keys on a path no unwound document has (see
      SortKeyIsAbsent), so every row ties and the source fixes no order;
      the model takes collection order. */
  function MovieTheaterDetails(theaters: seq<Theater>, movies: map<Id, Movie>): (rows: seq<ReportRow>)
    ensures forall k :: 0 <= k < |rows| ==> rows[k].theatername.None?
  {
    if |theaters| == 0 then []
    else TheaterRows(theaters[0], theaters[0].movies, movies) + MovieTheaterDetails(theaters[1..], movies)
  }

  /** A row belongs to one theater's part exactly when some entry of it
      resolves to a movie and projects to that row. */
  lemma {:induction false} TheaterRowsMembership(t: Theater, entries: seq<Assignment>, movies: map<Id, Movie>, r: ReportRow)
    ensures r in TheaterRows(t, entries, movies) <==>
      exists k :: 0 <= k < |entries| && entries[k].movie in movies && r == Row(t, entries[k], movies[entries[k].movie])
  {
    if |entries| > 0 {
      TheaterRowsMembership(t, entries[1..], movies, r);
      if r in TheaterRows(t, entries[1..], movies) {
        var k :| 0 <= k < |entries[1..]| && entries[1..][k].movie in movies &&
                 r == Row(t, entries[1..][k], movies[entries[1..][k].movie]);
        assert entries[k + 1] == entries[1..][k];
      }
      if exists k :: 0 <= k < |entries| && entries[k].movie in movies && r == Row(t, entries[k], movies[entries[k].movie]) {
        var k :| 0 <= k < |entries| && entries[k].movie in movies && r == Row(t, entries[k], movies[entries[k].movie]);
        if k > 0 {
          assert entries[1..][k - 1] == entries[k];
        }
      }
    }
  }

  /** The report has a row exactly for each (theater, entry) pair whose
      movie reference resolves, with the movie fields taken from the movie
      and screen and show times from the entry. Theaters without entries
      and dangling references contribute nothing. */
  lemma {:induction false} ReportMembership(theaters: seq<Theater>, movies: map<Id, Movie>, r: ReportRow)
    ensures r in MovieTheaterDetails(theaters, movies) <==>
      exists i, k :: 0 <= i < |theaters| && 0 <= k < |theaters[i].movies| &&
        theaters[i].movies[k].movie in movies &&
        r == Row(theaters[i], theaters[i].movies[k], movies[theaters[i].movies[k].movie])
  {
    if |theaters| > 0 {
      var t := theaters[0];
      TheaterRowsMembership(t, t.movies, movies, r);
      ReportMembership(theaters[1..], movies, r);
      if r in MovieTheaterDetails(theaters[1..], movies) {
        var i, k :| 0 <= i < |theaters[1..]| && 0 <= k < |theaters[1..][i].movies| &&
          theaters[1..][i].movies[k].movie in movies &&
          r == Row(theaters[1..][i], theaters[1..][i].movies[k], movies[theaters[1..][i].movies[k].movie]);
        assert theaters[i + 1] == theaters[1..][i];
      }
      if exists i, k :: 0 <= i < |theaters| && 0 <= k < |theaters[i].movies| &&
          theaters[i].movies[k].movie in movies &&
          r == Row(theaters[i], theaters[i].movies[k], movies[theaters[i].movies[k].movie]) {
        var i, k :| 0 <= i < |theaters| && 0 <= k < |theaters[i].movies| &&
          theaters[i].movies[k].movie in movies &&
          r == Row(theaters[i], theaters[i].movies[k], movies[theaters[i].movies[k].movie]);
        if i > 0 {
          assert theaters[1..][i - 1] == theaters[i];
        }
      }
    }
  }

  /** How many entries of `entries` resolve to a movie. */
  function ResolvedCount(entries: seq<Assignment>, movies: map<Id, Movie>): nat {
    if |entries| == 0 then 0
    else (if entries[0].movie in movies then 1 else 0) + ResolvedCount(entries[1..], movies)
  }

  /** How many (theater, entry) pairs resolve to a movie. */
  function TotalResolved(theaters: seq<Theater>, movies: map<Id, Movie>): nat {
    if |theaters| == 0 then 0
    else ResolvedCount(theaters[0].movies, movies) + TotalResolved(theaters[1..], movies)
  }

  /** The report has exactly one row per resolving pair (so duplicates are
      kept, and the count is at most the number of entries). */
  lemma {:induction false} ReportCount(theaters: seq<Theater>, movies: map<Id, Movie>)
    ensures |MovieTheaterDetails(theaters, movies)| == TotalResolved(theaters, movies)
  {
    if |theaters| > 0 {
      TheaterRowsCount(theaters[0], theaters[0].movies, movies);
      ReportCount(theaters[1..], movies);
    }
  }

  lemma {:induction false} TheaterRowsCount(t: Theater, entries: seq<Assignment>, movies: map<Id, Movie>)
    ensures |TheaterRows(t, entries, movies)| == ResolvedCount(entries, movies) <= |entries|
  {
    if |entries| > 0 {
      TheaterRowsCount(t, entries[1..], movies);
    }
  }

  /** The dotted paths an unwound report document has: the theater's own
      fields, the unwound `movies` entry, and `movieDetails` from the
      `$lookup`. */
  predicate UnwoundPath(path: seq<string>) {
    || path in {["_id"], ["name"], ["location"], ["screens"], ["createdAt"], ["updatedAt"]}
    || path in {["movies", "movie"], ["movies", "screenNumber"], ["movies", "showTimings"], ["movies", "_id"]}
    || (|path| == 2 && path[0] == "movieDetails" &&
        path[1] in {"_id", "moviename", "genre", "language", "duration", "cast", "director", "releaseDate"})
  }

  /** The `$sort` key `"movie.moviename"` is not a path of an unwound
      document (the lookup writes `movieDetails`), nor is the projected
      `"$theatername"` (the schema field is `name`). */
  lemma SortKeyIsAbsent()
    ensures !UnwoundPath(["movie", "moviename"]) && UnwoundPath(["movieDetails", "moviename"])
    ensures !UnwoundPath(["theatername"]) && UnwoundPath(["name"])
  {
    assert ["movie", "moviename"][0] != "movieDetails";
  }

  /** With the sort key absent, the `$sort` stage imposes nothing: the
      report is not ordered by movie name. Two entries of one theater, a
      movie named "Zulu" on the first and "Alpha" on the second, come out
      in store order. */
  lemma ReportNotOrderedByName(t: Theater, z: Movie, a: Movie, zid: Id, aid: Id)
    requires zid != aid && z.moviename == "Zulu" && a.moviename == "Alpha"
    requires t.movies == [Assignment(zid, 1, []), Assignment(aid, 2, [])]
    ensures var rows := MovieTheaterDetails([t], map[zid := z, aid := a]);
      |rows| == 2 && rows[0].moviename == "Zulu" && rows[1].moviename == "Alpha"
  {
    var movies := map[zid := z, aid := a];
    var e0, e1 := Assignment(zid, 1, []), Assignment(aid, 2, []);
    assert t.movies[1..] == [e1];
    assert [e1][1..] == [];
    assert TheaterRows(t, [e1], movies) == [Row(t, e1, a)];
    assert TheaterRows(t, t.movies, movies) == [Row(t, e0, z), Row(t, e1, a)];
    assert [t][1..] == [];
    assert MovieTheaterDetails([t], movies) == TheaterRows(t, t.movies, movies);
  }
}
