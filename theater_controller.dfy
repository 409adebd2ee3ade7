/** The theater handlers of app/controllers/theater.controller.ts: each
    checks request fields, makes one repository call and picks a status
    and body. */
module TheaterController {
  import opened Common
  import opened Theaters

  /** The body of `POST /theater/assign-movie`; an absent field is `None`. */
  datatype AssignBody = AssignBody(theaterId: Option<Id>, movieId: Option<Id>,
                                   screenNumber: Option<int>, showTimings: Option<seq<string>>)

  const ASSIGN_FIELDS_MESSAGE: string := "All fields required: theaterId, movieId, screenNumber, showTimings"

  /** The guard `!theaterId || !movieId || !screenNumber || !showTimings`
      does not fire: every field is truthy. An array is truthy even when
      empty; screen number 0 is falsy. */
  predicate AssignFieldsGiven(b: AssignBody) {
    TruthyStr(b.theaterId) && TruthyStr(b.movieId) && TruthyNum(b.screenNumber) && b.showTimings.Some?
  }

  /** The reply for what the repository returned or threw: both thrown
      errors become 500 carrying the error's message. */
  function AssignReply(result: Outcome<Theater>): (r: Reply<Theater>)
    ensures result.Ok? <==> r.status == 200
    ensures result.Ok? ==> r == Reply(200, "Movie assigned to theater to successfully", Some(result.value))
    ensures result == Err(TheaterNotFound) ==> r == Reply(500, "Theater not found", None)
    ensures result.Err? ==> r == Reply(500, ErrorMessage(result.error), None)
  {
    match result
    case Ok(t) => Reply(200, "Movie assigned to theater to successfully", Some(t))
    case Err(e) => Reply(500, ErrorMessage(e), None)
  }

  /** `assignmovie`: 400 without calling the repository when a field is
      falsy, else the repository's outcome mapped by AssignReply. */
  method AssignMovie(repo: TheaterRepository, body: AssignBody) returns (r: Reply<Theater>)
    modifies repo
    ensures !AssignFieldsGiven(body) ==> r == Reply(400, ASSIGN_FIELDS_MESSAGE, None) && repo.theaters == old(repo.theaters)
    ensures AssignFieldsGiven(body) ==>
      var id := body.theaterId.value;
      var n := body.screenNumber.value;
      if id !in old(repo.theaters) then
        r == Reply(500, "Theater not found", None) && repo.theaters == old(repo.theaters)
      else if ScreenInUse(old(repo.theaters)[id].movies, n) then
        r == Reply(500, ErrorMessage(ScreenTaken(n)), None) && repo.theaters == old(repo.theaters)
      else
        var saved := Assigned(old(repo.theaters)[id], body.movieId.value, n, body.showTimings.value);
        r == Reply(200, "Movie assigned to theater to successfully", Some(saved)) &&
        repo.theaters == old(repo.theaters)[id := saved]
  {
    if !AssignFieldsGiven(body) {
      return Reply(400, ASSIGN_FIELDS_MESSAGE, None);
    }
    var result := repo.AssignMovieToTheater(body.theaterId.value, body.movieId.value,
                                            body.screenNumber.value, body.showTimings.value);
    r := AssignReply(result);
  }

  /** `getTheaterById`: 404 exactly when the repository finds nothing. */
  method GetTheaterById(repo: TheaterRepository, id: Id) returns (r: Reply<Theater>)
    ensures r.status == 404 <==> id !in repo.theaters
    ensures id !in repo.theaters ==> r == Reply(404, "Theater not found", None)
    ensures id in repo.theaters ==> r == Reply(200, "Theater fetched successfully", Some(repo.theaters[id]))
  {
    var theater := repo.FindById(id);
    if theater.None? {
      return Reply(404, "Theater not found", None);
    }
    return Reply(200, "Theater fetched successfully", theater);
  }

  /** `updateTheater`: the raw body goes to the repository unchecked; 404
      exactly when no theater has that id. */
  method UpdateTheater(repo: TheaterRepository, id: Id, body: TheaterPatch) returns (r: Reply<Theater>)
    modifies repo
    ensures id !in old(repo.theaters) ==> r == Reply(404, "Theater not found", None) && repo.theaters == old(repo.theaters)
    ensures id in old(repo.theaters) ==>
      var updated := ApplyPatch(old(repo.theaters)[id], body);
      r == Reply(200, "Theater updated successfully", Some(updated)) &&
      repo.theaters == old(repo.theaters)[id := updated]
  {
    var updatedTheater := repo.Update(id, body);
    if updatedTheater.None? {
      return Reply(404, "Theater not found", None);
    }
    return Reply(200, "Theater updated successfully", updatedTheater);
  }

  /** `deleteTheater`: 404 exactly when no theater has that id. */
  method DeleteTheater(repo: TheaterRepository, id: Id) returns (r: Reply<Theater>)
    modifies repo
    ensures id !in old(repo.theaters) ==> r == Reply(404, "Theater not found", None) && repo.theaters == old(repo.theaters)
    ensures id in old(repo.theaters) ==>
      r == Reply(200, "Theater deleted successfully", None) && repo.theaters == old(repo.theaters) - {id}
  {
    var deletedTheater := repo.Delete(id);
    if deletedTheater.None? {
      return Reply(404, "Theater not found", None);
    }
    return Reply(200, "Theater deleted successfully", None);
  }

  /** `get_Movie_With_Theater`: the report with its row count. */
  function MovieWithTheaterReply(theaters: seq<Theater>, movies: map<Id, Movie>): (r: ListReply<ReportRow>)
    ensures r.status == 200 && r.total == |r.data| && r.data == MovieTheaterDetails(theaters, movies)
    ensures r.total == TotalResolved(theaters, movies)
  {
    ReportCount(theaters, movies);
    var rows := MovieTheaterDetails(theaters, movies);
    ListReply(200, "Movies with theater details fetched successfully", |rows|, rows)
  }

  /** A request whose screen number is 0 is refused before the store is
      touched, while an empty list of show times passes the guard. */
  lemma GuardEdgeCases(theaterId: Id, movieId: Id, n: int)
    requires theaterId != "" && movieId != "" && n != 0
    ensures !AssignFieldsGiven(AssignBody(Some(theaterId), Some(movieId), Some(0), Some([])))
    ensures AssignFieldsGiven(AssignBody(Some(theaterId), Some(movieId), Some(n), Some([])))
  {
  }
}
