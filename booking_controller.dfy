/** The booking handlers of app/controllers/booking.controller.ts: the
    ticket-booking step sequence, cancellation, and the two joined views
    (history of one user, all bookings).

    The controller calls `bookingRepository.createBooking` and
    `bookingRepository.cancleBooking`, which app/repositories/booking.repository.ts
    does not define. Both are modelled as abstract operations whose
    behaviour is a parameter; as written they are undefined, so calling
    them throws a TypeError. */
module BookingController {
  import opened Common
  import opened Theaters
  import opened UserRepo

  /** A booking document (app/models/booking.model.ts). */
  datatype Booking = Booking(id: Id, user: Id, movie: Id, theater: Id, showTime: string,
                             numberOfTickets: int, totalAmount: int, status: string)

  /** The collections the handlers read besides the bookings. */
  datatype Store = Store(users: map<Id, User>, movies: map<Id, Movie>, theaters: map<Id, Theater>)

  /** A repository method the controller calls: missing from the
      repository object, throwing, or returning a value. */
  datatype AbstractOp<+T> = Missing | Throws | Returns(value: T)

  /** `bookingRepository.createBooking` and `bookingRepository.cancleBooking`
      as the repository file defines them: not at all. */
  const CREATE_BOOKING_AS_WRITTEN: AbstractOp<Option<Booking>> := Missing
  const CANCEL_BOOKING_AS_WRITTEN: AbstractOp<Option<Booking>> := Missing

  /** The body of `POST /book/ticket`; an absent field is `None`. */
  datatype BookingBody = BookingBody(user: Option<Id>, movie: Option<Id>, theater: Option<Id>,
                                     showTime: Option<string>, numberOfTickets: Option<int>,
                                     totalAmount: Option<int>)

  /** The object handed to `createBooking`: the six body fields as they
      came, and the status. */
  datatype CreateRequest = CreateRequest(user: Option<Id>, movie: Option<Id>, theater: Option<Id>,
                                         showTime: Option<string>, numberOfTickets: Option<int>,
                                         totalAmount: Option<int>, status: string)

  function RequestOf(b: BookingBody): (r: CreateRequest)
    ensures r.status == "Booked"
    ensures r.user == b.user && r.movie == b.movie && r.theater == b.theater && r.showTime == b.showTime
    ensures r.numberOfTickets == b.numberOfTickets && r.totalAmount == b.totalAmount
  {
    CreateRequest(b.user, b.movie, b.theater, b.showTime, b.numberOfTickets, b.totalAmount, "Booked")
  }

  /** The guard of line 16 does not fire: all six fields are truthy
      (so 0 tickets or an amount of 0 count as missing). */
  predicate RequiredPresent(b: BookingBody) {
    TruthyStr(b.user) && TruthyStr(b.movie) && TruthyStr(b.theater) && TruthyStr(b.showTime) &&
    TruthyNum(b.numberOfTickets) && TruthyNum(b.totalAmount)
  }

  /** `findById` on a possibly absent id: `findById(undefined)` finds nothing. */
  predicate Resolved<T>(m: map<Id, T>, id: Option<Id>) {
    id.Some? && id.value in m
  }

  /** The three lookups all find a document. */
  predicate RefsResolve(s: Store, b: BookingBody) {
    Resolved(s.users, b.user) && Resolved(s.movies, b.movie) && Resolved(s.theaters, b.theater)
  }

  /** What one call of `bookingTicket` did: the reply the client received
      (the first one sent), the statuses of every send attempted in order
      (Express throws on a second send), the request passed to
      `createBooking` if it was reached, and whether the handler's promise
      rejected because a send inside its `catch` threw. */
  datatype TicketOutcome = TicketOutcome(delivered: Reply<Booking>, attempts: seq<int>,
                                         request: Option<CreateRequest>, unhandled: bool)

  /** `bookingTicket` as written: the 400 reply for a missing field is sent
      without `return`, so the lookups and the creation still run. The
      three parallel lookups are taken one after the other. */
  method BookingTicket(s: Store, body: BookingBody, create: AbstractOp<Option<Booking>>) returns (out: TicketOutcome)
    ensures |out.attempts| >= 1 && out.delivered.status == out.attempts[0]
    ensures out.request.Some? <==> RefsResolve(s, body)
    ensures out.request.Some? ==> out.request.value == RequestOf(body)
    ensures !RequiredPresent(body) ==>
      out.delivered == Reply(400, "All fields are required", None) && out.unhandled &&
      out.attempts == [400] + (if !RefsResolve(s, body) then [404, 500]
                               else if create.Returns? then [201, 500] else [500])
    ensures RequiredPresent(body) && !RefsResolve(s, body) ==>
      out.delivered == Reply(404, "User, Movie, or Theater not found", None) && out.attempts == [404] && !out.unhandled
    ensures RequiredPresent(body) && RefsResolve(s, body) ==>
      !out.unhandled && out.attempts == (if create.Returns? then [201] else [500]) &&
      (create.Returns? ==> out.delivered == Reply(201, "Tickets booked successfully", create.value)) &&
      (!create.Returns? ==> out.delivered == Reply(500, "Internal Server Error", None))
  {
    var sent: seq<Reply<Booking>> := [];
    var attempts: seq<int> := [];
    var request: Option<CreateRequest> := None;
    var thrown := false;
    // try
    if !RequiredPresent(body) {
      attempts := attempts + [400];
      sent := sent + [Reply(400, "All fields are required", None)];
    }
    if !RefsResolve(s, body) {
      attempts := attempts + [404];
      if |sent| == 0 {
        sent := sent + [Reply(404, "User, Movie, or Theater not found", None)];
      } else {
        thrown := true;
      }
    } else {
      request := Some(RequestOf(body));
      match create
      case Returns(booking) =>
        attempts := attempts + [201];
        if |sent| == 0 {
          sent := sent + [Reply(201, "Tickets booked successfully", booking)];
        } else {
          thrown := true;
        }
      case _ =>
        thrown := true;
    }
    // catch
    var unhandled := false;
    if thrown {
      attempts := attempts + [500];
      if |sent| == 0 {
        sent := sent + [Reply(500, "Internal Server Error", None)];
      } else {
        unhandled := true;
      }
    }
    out := TicketOutcome(sent[0], attempts, request, unhandled);
  }

  /** `bookingTicket` with the evidently intended `return` before the 400
      reply: a missing field stops the handler before any lookup. */
  method BookingTicketCorrected(s: Store, body: BookingBody, create: AbstractOp<Option<Booking>>) returns (out: TicketOutcome)
    ensures |out.attempts| == 1 && out.delivered.status == out.attempts[0] && !out.unhandled
    ensures out.request.Some? <==> RequiredPresent(body) && RefsResolve(s, body)
    ensures out.request.Some? ==> out.request.value == RequestOf(body)
    ensures !RequiredPresent(body) ==> out.delivered == Reply(400, "All fields are required", None)
    ensures RequiredPresent(body) && !RefsResolve(s, body) ==>
      out.delivered == Reply(404, "User, Movie, or Theater not found", None)
    ensures RequiredPresent(body) && RefsResolve(s, body) ==>
      (create.Returns? ==> out.delivered == Reply(201, "Tickets booked successfully", create.value)) &&
      (!create.Returns? ==> out.delivered == Reply(500, "Internal Server Error", None))
  {
    if !RequiredPresent(body) {
      return TicketOutcome(Reply(400, "All fields are required", None), [400], None, false);
    }
    if !RefsResolve(s, body) {
      return TicketOutcome(Reply(404, "User, Movie, or Theater not found", None), [404], None, false);
    }
    var request := RequestOf(body);
    match create
    case Returns(booking) =>
      out := TicketOutcome(Reply(201, "Tickets booked successfully", booking), [201], Some(request), false);
    case _ =>
      out := TicketOutcome(Reply(500, "Internal Server Error", None), [500], Some(request), false);
  }

  /** A request for zero tickets on existing references is answered 400,
      yet the handler as written still reaches the `createBooking` call
      (here the repository as written, where that call throws). */
  method ZeroTicketsStillReachCreate(uid: Id, mid: Id, tid: Id, u: User, m: Movie, t: Theater)
    returns (out: TicketOutcome)
    ensures out.delivered.status == 400 && out.request.Some? && out.request.value.numberOfTickets == Some(0)
  {
    var s := Store(map[uid := u], map[mid := m], map[tid := t]);
    var body := BookingBody(Some(uid), Some(mid), Some(tid), Some("2024-12-25T18:00:00Z"), Some(0), Some(500));
    out := BookingTicket(s, body, CREATE_BOOKING_AS_WRITTEN);
  }

  /** The handler wired to the repository as written: a complete and
      resolvable request reaches the missing `createBooking`, whose
      TypeError is answered 500, so no booking is ever confirmed. */
  method BookingTicketAsWired(s: Store, body: BookingBody) returns (out: TicketOutcome)
    ensures out.delivered.status != 201
    ensures RequiredPresent(body) && RefsResolve(s, body) ==>
      out.delivered == Reply(500, "Internal Server Error", None) && out.attempts == [500]
  {
    out := BookingTicket(s, body, CREATE_BOOKING_AS_WRITTEN);
  }

  /** `cancelBooking`: 404 when the repository returns nothing, 200 with
      what it returns otherwise, 500 when the call throws. */
  function CancelReply(cancel: AbstractOp<Option<Booking>>): (r: Reply<Booking>)
    ensures r.status == 404 <==> cancel == Returns(None)
    ensures r.status == 200 <==> cancel.Returns? && cancel.value.Some?
    ensures r.status == 200 ==> r == Reply(200, "Booking cancelled successfully", cancel.value)
    ensures !cancel.Returns? ==> r == Reply(500, "Internal Server Error", None)
  {
    match cancel
    case Returns(None) => Reply(404, "Booking not found", None)
    case Returns(Some(b)) => Reply(200, "Booking cancelled successfully", Some(b))
    case _ => Reply(500, "Internal Server Error", None)
  }

  /** As written, every cancellation is answered 500 and nothing is removed. */
  lemma CancelAsWritten()
    ensures CancelReply(CANCEL_BOOKING_AS_WRITTEN) == Reply(500, "Internal Server Error", None)
  {
  }

  datatype MovieSummary = MovieSummary(moviename: string, genre: string, language: string)

  /** The projected theater: `theatername` is asked for, but theater
      documents have `name`, so only `location` survives. */
  datatype TheaterSummary = TheaterSummary(theatername: Option<string>, location: string)

  datatype UserSummary = UserSummary(name: string, email: string)

  /** One row of the joined booking views. */
  datatype BookingView = BookingView(id: Id, showTime: string, numberOfTickets: int, totalAmount: int,
                                     status: string, movie: MovieSummary, theater: TheaterSummary,
                                     user: UserSummary)

  /** The three references of a booking resolve, so it survives the
      `$lookup`/`$unwind` stages. */
  predicate Resolves(s: Store, b: Booking) {
    b.user in s.users && b.movie in s.movies && b.theater in s.theaters
  }

  /** The `$project` stage for a booking whose references resolve. */
  function View(s: Store, b: Booking): (v: BookingView)
    requires Resolves(s, b)
    ensures v.id == b.id && v.showTime == b.showTime && v.status == b.status
    ensures v.numberOfTickets == b.numberOfTickets && v.totalAmount == b.totalAmount
    ensures v.movie.moviename == s.movies[b.movie].moviename && v.movie.genre == s.movies[b.movie].genre
    ensures v.movie.language == s.movies[b.movie].language
    ensures v.user.name == s.users[b.user].name && v.user.email == s.users[b.user].email
    ensures v.theater.theatername.None? && v.theater.location == s.theaters[b.theater].location
  {
    var m := s.movies[b.movie];
    var u := s.users[b.user];
    BookingView(b.id, b.showTime, b.numberOfTickets, b.totalAmount, b.status,
                MovieSummary(m.moviename, m.genre, m.language),
                TheaterSummary(None, s.theaters[b.theater].location),
                UserSummary(u.name, u.email))
  }

  /** `getAllBookings`: look up user, movie, theater; unresolved bookings drop out. */
  function AllBookings(bookings: seq<Booking>, s: Store): (rows: seq<BookingView>)
    ensures |rows| <= |bookings|
  {
    if |bookings| == 0 then []
    else
      var b := bookings[0];
      var first := if Resolves(s, b) then [View(s, b)] else [];
      first + AllBookings(bookings[1..], s)
  }

  /** `viewBookingHistory`: `$match` on the user, then look up movie,
      theater, user in that order. */
  function History(bookings: seq<Booking>, userId: Id, s: Store): (rows: seq<BookingView>)
    ensures |rows| > 0 ==> userId in s.users
    ensures forall k :: 0 <= k < |rows| ==>
      rows[k].user == UserSummary(s.users[userId].name, s.users[userId].email)
    ensures (forall i :: 0 <= i < |bookings| ==> bookings[i].user != userId) ==> rows == []
  {
    if |bookings| == 0 then []
    else
      var b := bookings[0];
      var first := if b.user == userId && Resolves(s, b) then [View(s, b)] else [];
      first + History(bookings[1..], userId, s)
  }

  /** The bookings of one user, in collection order. */
  function OfUser(bookings: seq<Booking>, userId: Id): (r: seq<Booking>)
    ensures forall k :: 0 <= k < |r| ==> r[k].user == userId && r[k] in bookings
  {
    if |bookings| == 0 then []
    else (if bookings[0].user == userId then [bookings[0]] else []) + OfUser(bookings[1..], userId)
  }

  /** A user's history is the all-bookings view of that user's bookings:
      the two pipelines join in different orders but keep the same rows. */
  lemma {:induction false} HistoryIsAllBookingsOfUser(bookings: seq<Booking>, userId: Id, s: Store)
    ensures History(bookings, userId, s) == AllBookings(OfUser(bookings, userId), s)
  {
    if |bookings| > 0 {
      HistoryIsAllBookingsOfUser(bookings[1..], userId, s);
      var b := bookings[0];
      var rest := OfUser(bookings[1..], userId);
      if b.user == userId {
        assert OfUser(bookings, userId) == [b] + rest;
        assert ([b] + rest)[1..] == rest;
      } else {
        assert OfUser(bookings, userId) == rest;
      }
    }
  }

  /** The all-bookings view has a row exactly for each booking whose
      three references resolve, projected. */
  lemma {:induction false} AllBookingsMembership(bookings: seq<Booking>, s: Store, v: BookingView)
    ensures v in AllBookings(bookings, s) <==>
      exists i :: 0 <= i < |bookings| && Resolves(s, bookings[i]) && v == View(s, bookings[i])
  {
    if |bookings| > 0 {
      AllBookingsMembership(bookings[1..], s, v);
      if v in AllBookings(bookings[1..], s) {
        var i :| 0 <= i < |bookings[1..]| && Resolves(s, bookings[1..][i]) && v == View(s, bookings[1..][i]);
        assert bookings[i + 1] == bookings[1..][i];
      }
      if exists i :: 0 <= i < |bookings| && Resolves(s, bookings[i]) && v == View(s, bookings[i]) {
        var i :| 0 <= i < |bookings| && Resolves(s, bookings[i]) && v == View(s, bookings[i]);
        if i > 0 {
          assert bookings[1..][i - 1] == bookings[i];
        }
      }
    }
  }

  /** The history has a row exactly for each booking of that user whose
      references resolve. */
  lemma {:induction false} HistoryMembership(bookings: seq<Booking>, userId: Id, s: Store, v: BookingView)
    ensures v in History(bookings, userId, s) <==>
      exists i :: 0 <= i < |bookings| && bookings[i].user == userId && Resolves(s, bookings[i]) &&
                  v == View(s, bookings[i])
  {
    if |bookings| > 0 {
      var tail := bookings[1..];
      HistoryMembership(tail, userId, s, v);
      if v in History(tail, userId, s) {
        var i :| 0 <= i < |tail| && tail[i].user == userId && Resolves(s, tail[i]) && v == View(s, tail[i]);
        assert bookings[i + 1] == tail[i];
      }
      if exists i :: 0 <= i < |bookings| && bookings[i].user == userId && Resolves(s, bookings[i]) &&
                     v == View(s, bookings[i]) {
        var i :| 0 <= i < |bookings| && bookings[i].user == userId && Resolves(s, bookings[i]) &&
                 v == View(s, bookings[i]);
        if i > 0 {
          assert tail[i - 1] == bookings[i];
        }
      }
    }
  }

  /** A booking belongs to OfUser exactly when it is one of the user's. */
  lemma {:induction false} OfUserMembership(bookings: seq<Booking>, userId: Id)
    ensures forall b :: b in OfUser(bookings, userId) <==> b in bookings && b.user == userId
  {
    if |bookings| > 0 {
      OfUserMembership(bookings[1..], userId);
      assert bookings == [bookings[0]] + bookings[1..];
    }
  }

  /** How many bookings have all three references resolving. */
  function ResolvingCount(bookings: seq<Booking>, s: Store): nat {
    if |bookings| == 0 then 0
    else (if Resolves(s, bookings[0]) then 1 else 0) + ResolvingCount(bookings[1..], s)
  }

  /** The all-bookings view has exactly one row per booking whose three
      references resolve: duplicates are kept, dangling ones dropped. */
  lemma {:induction false} AllBookingsCount(bookings: seq<Booking>, s: Store)
    ensures |AllBookings(bookings, s)| == ResolvingCount(bookings, s)
  {
    if |bookings| > 0 {
      AllBookingsCount(bookings[1..], s);
    }
  }

  /** The history has exactly one row per booking of that user whose
      references resolve. */
  lemma HistoryCount(bookings: seq<Booking>, userId: Id, s: Store)
    ensures |History(bookings, userId, s)| == ResolvingCount(OfUser(bookings, userId), s)
  {
    HistoryIsAllBookingsOfUser(bookings, userId, s);
    AllBookingsCount(OfUser(bookings, userId), s);
  }

  /** The `viewBookingHistory` reply: 200 and the row count, also for an
      id with no bookings. */
  function HistoryReply(bookings: seq<Booking>, userId: Id, s: Store): (r: ListReply<BookingView>)
    ensures r.status == 200 && r.total == |r.data| && r.data == History(bookings, userId, s)
  {
    var rows := History(bookings, userId, s);
    ListReply(200, "User booking history fetched successfully", |rows|, rows)
  }

  /** The `getAllBookings` reply: 200 and the row count. */
  function AllBookingsReply(bookings: seq<Booking>, s: Store): (r: ListReply<BookingView>)
    ensures r.status == 200 && r.total == |r.data| && r.data == AllBookings(bookings, s)
  {
    var rows := AllBookings(bookings, s);
    ListReply(200, "All bookings fetched successfully", |rows|, rows)
  }
}
