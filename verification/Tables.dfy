/**
 The rows the services read and write, and the part of the database that no
 service changes during a run (cities, drivers and completed trips).

 A row of an append-only table is named by its position in that table, so a new
 UUID is the next unused position. Times are whole microseconds.
 */
module Tables {

  datatype Option<+T> = None | Some(value: T)

  type Time = int
  type CityId = nat
  type DriverId = nat
  type RiderId = nat
  type TripId = nat
  type ReviewId = nat
  type EventId = nat
  type GenerationId = nat
  type JobId = nat
  type Key = string

  const SECOND: Time := 1_000_000
  const WINDOW: Time := 90 * 24 * 60 * 60 * SECOND
  const ELIGIBILITY_REVIEW_COUNT: nat := 20
  const LEADERBOARD_LIMIT: nat := 100
  const MAX_ATTEMPTS: nat := 5

  // ---------- fixed rows ----------

  /** `stableId` is the place of the driver's unique stable ID in the database's collation. */
  datatype Driver = Driver(city: CityId, stableId: nat)

  datatype Trip = Trip(rider: RiderId, driver: DriverId, city: CityId, completedAt: Time)

  datatype WorldData = WorldData(cities: set<CityId>, drivers: seq<Driver>, trips: seq<Trip>) {

    /** Foreign keys hold, and drivers are listed by ascending stable ID. */
    ghost predicate WellFormed() {
      && (forall i, j :: 0 <= i < j < |drivers| ==> drivers[i].stableId < drivers[j].stableId)
      && (forall i :: 0 <= i < |drivers| ==> drivers[i].city in cities)
      && (forall t :: 0 <= t < |trips| ==> trips[t].driver < |drivers| && trips[t].city in cities)
    }

    /** The audit rule that every trip belongs to its driver's city. */
    ghost predicate TripsMatchDrivers()
      requires WellFormed()
    {
      forall t :: 0 <= t < |trips| ==> trips[t].city == drivers[trips[t].driver].city
    }
  }

  type World = w: WorldData | w.WellFormed() witness WorldData({}, [], [])

  // ---------- authoritative rows ----------

  datatype Version = Version(version: nat, rating: int, isCurrent: bool, createdAt: Time)

  datatype ModerationAction = Exclude | Restore

  datatype Decision = Decision(number: nat, action: ModerationAction, moderator: string,
                               reason: Option<string>, changedState: bool)

  datatype Review = Review(trip: TripId, deletedAt: Option<Time>, excluded: bool,
                           versions: seq<Version>, decisions: seq<Decision>)

  /** The review rows together with the unique index on their trip. */
  datatype ReviewData = ReviewData(rows: seq<Review>, ofTrip: map<TripId, ReviewId>) {
    ghost predicate Indexed() {
      && (forall t :: t in ofTrip ==> ofTrip[t] < |rows| && rows[ofTrip[t]].trip == t)
      && (forall r :: 0 <= r < |rows| ==> rows[r].trip in ofTrip && ofTrip[rows[r].trip] == r)
    }
  }

  type Reviews = r: ReviewData | r.Indexed() witness ReviewData([], map[])

  // ---------- idempotency ----------

  /** The content that a request hash stands for; hashing is taken to be injective. */
  datatype Request =
    | Upsert(trip: TripId, rider: RiderId, rating: int)
    | Delete(trip: TripId, rider: RiderId)
    | Moderate(review: ReviewId, moderator: string, action: ModerationAction, reason: Option<string>)

  datatype Body =
    | ReviewBody(review: ReviewId, trip: TripId, version: nat, rating: int, createdAt: Time, replay: bool)
    | DeletionBody(review: ReviewId, trip: TripId, changedState: bool, replay: bool)
    | DecisionBody(review: ReviewId, number: nat, action: ModerationAction, excluded: bool,
                   changedState: bool, replay: bool)

  datatype RequestRecord = RequestRecord(request: Request, created: bool, body: Body)

  datatype Error = TripNotFound | RiderDoesNotOwnTrip | ReviewNotFound | IdempotencyConflict
                 | ConstraintViolation | CityNotFound | RebuildNotFound | RebuildRefused | LeaderboardNotFound

  datatype Reply = Accepted(body: Body, created: bool, replayed: bool) | Rejected(error: Error)

  // ---------- outbox ----------

  datatype EventKind = ReviewUpserted | ReviewDeleted | ReviewModerated(action: ModerationAction)

  datatype EventStatus = Pending | Processing | Completed | Failed

  /** A score row and an outbox event are addressed by the trip's city and driver. */
  datatype DriverKey = DriverKey(city: CityId, driver: DriverId)

  datatype Event = Event(kind: EventKind, target: DriverKey, review: ReviewId, status: EventStatus,
                         attempts: nat, nextAttemptAt: Time, processedAt: Option<Time>, lastError: Option<string>)

  // ---------- derived rows ----------

  datatype Score = Score(sum: int, count: nat, eligible: bool, windowStart: Time, calculatedAt: Time)

  datatype Entry = Entry(rank: nat, driver: DriverId, sum: int, count: nat)

  datatype GenerationStatus = Building | Candidate | Published | Superseded | Discarded

  datatype Generation = Generation(city: CityId, version: nat, status: GenerationStatus, entries: seq<Entry>,
                                   sourceAt: Option<Time>, publishedAt: Option<Time>)

  datatype CandidateScore = CandidateScore(sum: int, count: nat, eligible: bool)

  datatype JobStatus = Running | Ready | Installed | Dropped

  datatype Summary = Summary(entriesAdded: nat, entriesRemoved: nat, rankChanges: nat, scoreChanges: nat,
                             liveMismatches: nat, candidateDrivers: nat, candidateEntries: nat)

  datatype Job = Job(city: CityId, status: JobStatus, calculatedAt: Time, base: GenerationId,
                     candidate: Option<GenerationId>, scores: map<DriverId, CandidateScore>,
                     summary: Option<Summary>, completedAt: Option<Time>)

  datatype ExpirationRun = ExpirationRun(city: CityId, effectiveAt: Time, affected: nat,
                                         generation: Option<GenerationId>)

  /** One committed state of the database. */
  datatype Store = Store(
    reviews: Reviews,
    requests: map<Key, RequestRecord>,
    events: seq<Event>,
    ledger: map<EventId, Time>,
    scores: map<DriverKey, Score>,
    generations: seq<Generation>,
    jobs: seq<Job>,
    expirations: seq<ExpirationRun>)

  const EMPTY: Store := Store(ReviewData([], map[]), map[], [], map[], map[], [], [], [])

  function Max(a: int, b: int): int {
    if a < b then b else a
  }
}
