/** The resume endpoint: GET looks up a user's resume, POST upserts it.
    The table is a sequence of records; each request is one atomic step. */
module ResumeStore {
  import opened ResumeTypes

  datatype Resume = Resume(id: nat, userId: string, data: ResumeData)

  /** A parsed POST body: the owner (absent when the body has no userId) and the payload. */
  datatype SaveRequest = SaveRequest(userId: Option<string>, data: ResumeData)

  /** A JSON response: a 200 body, or an error status with its message. */
  datatype Response<+T> = Ok(body: T) | Failure(status: int, message: string)

  datatype Saved = Saved(message: string, resume: Resume)

  const MissingUserId := "User ID is required"
  const FetchError := "An error occurred while fetching resume"
  const SaveError := "An error occurred while saving resume"
  const SavedMessage := "Resume saved successfully"

  /** JavaScript truthiness of the userId: of a string-or-null value, only null and
      the empty string are falsy. */
  predicate HasUserId(userId: Option<string>): (present: bool)
    ensures present <==> userId != None && userId != Some("")
  {
    userId.Some? && userId.value != ""
  }

  predicate HasRecord(records: seq<Resume>, u: string) {
    exists i :: 0 <= i < |records| && records[i].userId == u
  }

  /** findFirst({ where: { userId } }): the position of the first record owned by `u`. */
  function FindFirst(records: seq<Resume>, u: string): (k: Option<nat>)
    ensures k.Some? ==> k.value < |records| && records[k.value].userId == u
    ensures k.Some? ==> forall j :: 0 <= j < k.value ==> records[j].userId != u
    ensures k.None? <==> !HasRecord(records, u)
  {
    if records == [] then None
    else if records[0].userId == u then Some(0)
    else match FindFirst(records[1..], u)
      case None =>
        assert forall j :: 1 <= j < |records| ==> records[1..][j - 1] == records[j];
        None
      case Some(k) =>
        assert records[1..][k] == records[k + 1];
        Some(k + 1)
  }

  /** The record a GET returns for `u`, absent when `u` has none. */
  function Lookup(records: seq<Resume>, u: string): (r: Option<Resume>)
    ensures r.Some? ==> r.value in records && r.value.userId == u
    ensures r.None? <==> !HasRecord(records, u)
  {
    match FindFirst(records, u)
    case Some(k) => Some(records[k])
    case None => None
  }

  /** The table after a successful POST for `u`: the first record of `u` rewritten in
      place with the payload (same id, same owner), or one new record appended. */
  function Upserted(records: seq<Resume>, nextId: nat, u: string, d: ResumeData): (after: seq<Resume>)
    ensures HasRecord(records, u) ==> |after| == |records|
    ensures !HasRecord(records, u) ==> after == records + [Resume(nextId, u, d)]
    ensures forall j :: 0 <= j < |records| && Some(j) != FindFirst(records, u) ==> after[j] == records[j]
    ensures forall j :: 0 <= j < |records| && Some(j) == FindFirst(records, u) ==>
      after[j] == Resume(records[j].id, u, d)
  {
    match FindFirst(records, u)
    case Some(k) => records[k := Resume(records[k].id, u, d)]
    case None => records + [Resume(nextId, u, d)]
  }

  /** At most one record per user. */
  ghost predicate OnePerUser(records: seq<Resume>) {
    forall i, j :: 0 <= i < j < |records| ==> records[i].userId != records[j].userId
  }

  /** Record ids are distinct and all below the next id to hand out. */
  ghost predicate IdsBelow(records: seq<Resume>, nextId: nat) {
    && (forall i :: 0 <= i < |records| ==> records[i].id < nextId)
    && (forall i, j :: 0 <= i < j < |records| ==> records[i].id != records[j].id)
  }

  /** A POST keeps the one-record-per-user invariant. */
  lemma UpsertKeepsOnePerUser(records: seq<Resume>, nextId: nat, u: string, d: ResumeData)
    requires OnePerUser(records)
    ensures OnePerUser(Upserted(records, nextId, u, d))
  {
    var after := Upserted(records, nextId, u, d);
    if !HasRecord(records, u) {
      forall i, j | 0 <= i < j < |after|
        ensures after[i].userId != after[j].userId
      {
        if j == |records| {
          assert after[i] == records[i];
        }
      }
    }
  }

  /** A POST keeps record ids distinct and below the (advanced) counter. */
  lemma UpsertKeepsIds(records: seq<Resume>, nextId: nat, u: string, d: ResumeData)
    requires IdsBelow(records, nextId)
    ensures IdsBelow(Upserted(records, nextId, u, d), nextId + 1)
  {
  }

  /** Round trip: a GET after a POST for the same user returns the posted payload,
      in a record owned by that user. */
  lemma {:induction false} SaveThenGet(records: seq<Resume>, nextId: nat, u: string, d: ResumeData)
    ensures Lookup(Upserted(records, nextId, u, d), u).Some?
    ensures Lookup(Upserted(records, nextId, u, d), u).value.userId == u
    ensures Lookup(Upserted(records, nextId, u, d), u).value.data == d
  {
    var after := Upserted(records, nextId, u, d);
    match FindFirst(records, u)
    case Some(k) =>
      assert after[k].data == d;
      assert forall j :: 0 <= j < k ==> after[j] == records[j];
      assert FindFirst(after, u) == Some(k) by { FindFirstIs(after, u, k); }
    case None =>
      assert after[|records|].data == d;
      assert FindFirst(after, u) == Some(|records|) by { FindFirstIs(after, u, |records|); }
  }

  /** The first record owned by `u` is the unique such position. */
  lemma FindFirstIs(records: seq<Resume>, u: string, k: nat)
    requires k < |records| && records[k].userId == u
    requires forall j :: 0 <= j < k ==> records[j].userId != u
    ensures FindFirst(records, u) == Some(k)
  {
  }

  /** A POST for `u` leaves what every other user GETs unchanged. */
  lemma {:induction false} SaveLeavesOthers(records: seq<Resume>, nextId: nat, u: string, d: ResumeData, v: string)
    requires v != u
    ensures Lookup(Upserted(records, nextId, u, d), v) == Lookup(records, v)
  {
    var after := Upserted(records, nextId, u, d);
    assert forall j :: 0 <= j < |records| ==> (after[j].userId == v <==> records[j].userId == v);
    match FindFirst(records, v)
    case Some(k) =>
      FindFirstIs(after, v, k);
    case None =>
      assert !HasRecord(after, v);
  }

  /** A second POST for the same user rewrites the record the first one wrote:
      the table keeps its size and that record keeps its id. */
  lemma {:induction false} SecondSaveUpdates(records: seq<Resume>, nextId: nat, u: string, d1: ResumeData, d2: ResumeData)
    ensures var once := Upserted(records, nextId, u, d1);
            var twice := Upserted(once, nextId + 1, u, d2);
            |twice| == |once| && Lookup(twice, u).value.id == Lookup(once, u).value.id
  {
    var once := Upserted(records, nextId, u, d1);
    SaveThenGet(records, nextId, u, d1);
    SaveThenGet(once, nextId + 1, u, d2);
  }

  class Store {
    var records: seq<Resume>
    var nextId: nat

    ghost predicate Valid()
      reads this
    {
      && OnePerUser(records)
      && IdsBelow(records, nextId)
      && forall i :: 0 <= i < |records| ==> records[i].userId != ""
    }

    constructor ()
      ensures Valid() && records == []
    {
      records := [];
      nextId := 0;
    }

    /** GET /api/resumes?userId=...; `dbFails` says whether the database raises. */
    method Get(userId: Option<string>, dbFails: bool) returns (res: Response<Option<Resume>>)
      requires Valid()
      ensures !HasUserId(userId) ==> res == Failure(400, MissingUserId)
      ensures HasUserId(userId) && dbFails ==> res == Failure(500, FetchError)
      ensures HasUserId(userId) && !dbFails ==> res.Ok?
      ensures res.Ok? ==> (res.body.None? <==> !HasRecord(records, userId.value))
      ensures res.Ok? && res.body.Some? ==> res.body.value in records && res.body.value.userId == userId.value
      ensures res.Ok? && res.body.Some? ==> forall r :: r in records && r.userId == userId.value ==> r == res.body.value
    {
      if !HasUserId(userId) {
        return Failure(400, MissingUserId);
      }
      if dbFails {
        return Failure(500, FetchError);
      }
      res := Ok(Lookup(records, userId.value));
      if res.body.Some? {
        forall r | r in records && r.userId == userId.value
          ensures r == res.body.value
        {
          var i :| 0 <= i < |records| && records[i] == r;
          var k := FindFirst(records, userId.value).value;
          assert !(i < k) && !(k < i);
        }
      }
    }

    /** POST /api/resumes; `body` is None when the request body is not valid JSON,
        `dbFails` says whether a database call raises. */
    method Save(body: Option<SaveRequest>, dbFails: bool) returns (res: Response<Saved>)
      requires Valid()
      modifies this
      ensures Valid()
      ensures body.None? ==> res == Failure(500, SaveError)
      ensures body.Some? && !HasUserId(body.value.userId) ==> res == Failure(400, MissingUserId)
      ensures body.Some? && HasUserId(body.value.userId) && dbFails ==> res == Failure(500, SaveError)
      ensures body.Some? && HasUserId(body.value.userId) && !dbFails ==> res.Ok?
      ensures res.Failure? ==> records == old(records) && nextId == old(nextId)
      ensures res.Ok? ==> body.Some? && HasUserId(body.value.userId) && !dbFails
      ensures res.Ok? ==>
        var u := body.value.userId.value;
        && records == Upserted(old(records), old(nextId), u, body.value.data)
        && nextId == old(nextId) + 1
        && Lookup(records, u).Some?
        && res.body == Saved(SavedMessage, Lookup(records, u).value)
        && res.body.resume.userId == u && res.body.resume.data == body.value.data
    {
      if body.None? {
        return Failure(500, SaveError);
      }
      var request := body.value;
      if !HasUserId(request.userId) {
        return Failure(400, MissingUserId);
      }
      if dbFails {
        return Failure(500, SaveError);
      }
      var u := request.userId.value;
      UpsertKeepsOnePerUser(records, nextId, u, request.data);
      UpsertKeepsIds(records, nextId, u, request.data);
      SaveThenGet(records, nextId, u, request.data);
      records, nextId := Upserted(records, nextId, u, request.data), nextId + 1;
      res := Ok(Saved(SavedMessage, Lookup(records, u).value));
    }
  }
}
