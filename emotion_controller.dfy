/** The emotion-record endpoints of backend/src/controllers/emotionController.ts:
    creating a record (request checks, recognition, save, then the alert
    check), the owner-scoped listing query, fetch by id and delete. */
module EmotionController {
  import opened Wrappers
  import opened Types
  import opened Store
  import opened Collections
  import opened Pagination
  import opened ConsultationRecordModel
  import Text
  import EmotionRecognition
  import AlertService

  datatype CreateError = InvalidType | MissingText | MissingFileUrl

  /** The HTTP outcome of createEmotionRecord: 201 with the record, or 400. */
  datatype CreateResponse = Created(record: EmotionRecord) | BadRequest(error: CreateError)

  /** The first request check that fails, in the order the handler makes them. */
  function RequestError(kind: Option<string>, content: Option<string>, fileUrl: Option<string>): Option<CreateError> {
    if !Text.Present(kind) || ParseRecognition(kind.value).None? then Some(InvalidType)
    else if kind.value == "text" && !Text.Present(content) then Some(MissingText)
    else if (kind.value == "voice" || kind.value == "image") && !Text.Present(fileUrl) then Some(MissingFileUrl)
    else None
  }

  /** The recognition result a stored record carries. */
  function RecognitionOf(r: EmotionRecord): EmotionRecognition.Recognition {
    EmotionRecognition.Recognition(r.emotion, r.score, r.additionalEmotions)
  }

  /** createEmotionRecord for the signed-in user at time `now`. */
  method CreateEmotionRecord(db: Db, userId: Id, kind: Option<string>, content: Option<string>,
                             fileUrl: Option<string>, draws: seq<EmotionRecognition.Draw>, now: int)
    returns (response: CreateResponse)
    requires db.Valid() && |draws| == 8
    modifies db
    ensures db.Valid()
    ensures response.BadRequest? <==> RequestError(kind, content, fileUrl).Some?
    ensures response.BadRequest? ==> response.error == RequestError(kind, content, fileUrl).value && unchanged(db)
    ensures response.Created? ==>
      var rec := response.record;
      && Some(rec.kind) == ParseRecognition(kind.value)
      && rec.id == old(db.nextId) && rec.userId == userId && rec.createdAt == now
      && rec.content == TrimOpt(content) && rec.fileUrl == TrimOpt(fileUrl)
      && EmotionRecognition.IsSimulation(draws, RecognitionOf(rec))
    ensures response.Created? ==>
      db.users == old(db.users) && db.appointments == old(db.appointments) && db.consultations == old(db.consultations)
    ensures response.Created? ==>
      SavedAndChecked(old(db.emotionRecords), old(db.alerts), old(db.nextId), userId, response.record, now,
                      db.emotionRecords, db.alerts, db.nextId)
  {
    var error := RequestError(kind, content, fileUrl);
    if error.Some? {
      return BadRequest(error.value);
    }
    var rec := RecognizedRecord(db.nextId, userId, kind.value, content, fileUrl, draws, now);
    SaveAndCheck(db, userId, rec, now);
    response := Created(rec);
  }

  /** `recognizeEmotion(type, content, fileUrl)` on a request that passed the
      checks, and the `new EmotionRecord({...})` built from its result. */
  method RecognizedRecord(id: Id, userId: Id, kind: string, content: Option<string>, fileUrl: Option<string>,
                          draws: seq<EmotionRecognition.Draw>, now: int)
    returns (rec: EmotionRecord)
    requires |draws| == 8 && RequestError(Some(kind), content, fileUrl).None?
    ensures Some(rec.kind) == ParseRecognition(kind)
    ensures rec.id == id && rec.userId == userId && rec.createdAt == now
    ensures rec.content == TrimOpt(content) && rec.fileUrl == TrimOpt(fileUrl)
    ensures EmotionRecognition.IsSimulation(draws, RecognitionOf(rec))
  {
    var out := EmotionRecognition.RecognizeEmotion(kind, content, fileUrl, draws);
    var r := out.result;
    rec := EmotionRecord(id, userId, ParseRecognition(kind).value,
                         TrimOpt(content), TrimOpt(fileUrl), r.emotion, r.score, r.additionalEmotions, now);
  }

  /** The collections after `record.save()` and `checkAlert(userId)`: the record
      appended under the next id, then the alert check run on the new contents. */
  predicate SavedAndChecked(records: seq<EmotionRecord>, alerts: seq<Alert>, nextId: Id, userId: Id,
                            rec: EmotionRecord, now: int,
                            records': seq<EmotionRecord>, alerts': seq<Alert>, nextId': Id) {
    && records' == records + [rec]
    && alerts' == AlertService.AlertsAfterCheck(records + [rec], alerts, userId, nextId + 1, now)
    && nextId' == nextId + 1 + (|alerts'| - |alerts|)
  }

  /** `record.save()` followed by `checkAlert(userId)`. */
  method SaveAndCheck(db: Db, userId: Id, rec: EmotionRecord, now: int)
    requires db.Valid() && rec.id == db.nextId
    modifies db
    ensures db.Valid()
    ensures db.users == old(db.users) && db.appointments == old(db.appointments)
    ensures db.consultations == old(db.consultations)
    ensures SavedAndChecked(old(db.emotionRecords), old(db.alerts), old(db.nextId), userId, rec, now,
                            db.emotionRecords, db.alerts, db.nextId)
  {
    db.InsertEmotionRecord(rec);
    var _ := AlertService.CheckAlert(db, userId, now);
  }

  /** The record just saved is in the window checkAlert reads, and when every
      stored record is strictly older it is the newest one, the one rule 1 looks
      at, whatever order the database gives records with equal timestamps. */
  lemma NewRecordIsNewestInWindow(records: seq<EmotionRecord>, rec: EmotionRecord, now: int)
    requires rec.createdAt == now
    requires forall i | 0 <= i < |records| :: records[i].createdAt < now
    ensures AlertService.RecentEmotions(records + [rec], rec.userId, now) != []
    ensures AlertService.RecentEmotions(records + [rec], rec.userId, now)[0] == rec
  {
    AlertService.RecentEmotionsQuery(records + [rec], rec.userId, now);
    AppendedLatestSortsFirst(records, rec, AlertService.InWindow(rec.userId, now - AlertService.WindowMs), RecordTime);
  }

  /** The query object getEmotionRecords builds. */
  datatype RecordQuery = RecordQuery(userId: Id, kind: Option<RecognitionType>, from: Option<int>, to: Option<int>)

  /** `{ userId, type?, createdAt: { $gte?, $lte? } }` on one record. */
  predicate Matches(q: RecordQuery, r: EmotionRecord) {
    r.userId == q.userId
    && (q.kind.Some? ==> r.kind == q.kind.value)
    && (q.from.Some? ==> r.createdAt >= q.from.value)
    && (q.to.Some? ==> r.createdAt <= q.to.value)
  }

  function MatchesQuery(q: RecordQuery): EmotionRecord -> bool {
    (r: EmotionRecord) => Matches(q, r)
  }

  /** The query getEmotionRecords builds (lines 64-77): always the requester;
      the type only when it is one of text, voice, image; each date bound only
      when given. */
  function RecordQueryOf(userId: Id, kind: Option<string>, startDate: Option<int>, endDate: Option<int>): (q: RecordQuery)
    ensures q.userId == userId
    ensures q.kind.Some? <==> Text.Present(kind) && ParseRecognition(kind.value).Some?
    ensures q.kind.Some? ==> RecognitionName(q.kind.value) == kind.value
    ensures q.from == startDate && q.to == endDate
  {
    RecordQuery(userId, if Text.Present(kind) then ParseRecognition(kind.value) else None, startDate, endDate)
  }

  /** What the query selects, in terms of the request's own parameters. */
  lemma RecordQuerySelects(userId: Id, kind: Option<string>, startDate: Option<int>, endDate: Option<int>,
                           r: EmotionRecord)
    ensures Matches(RecordQueryOf(userId, kind, startDate, endDate), r) <==>
      r.userId == userId
      && (Text.Present(kind) && ParseRecognition(kind.value).Some? ==> r.kind == ParseRecognition(kind.value).value)
      && (startDate.Some? ==> r.createdAt >= startDate.value)
      && (endDate.Some? ==> r.createdAt <= endDate.value)
  {
  }

  /** Fills the query field by field, as lines 64-77 do. */
  method BuildRecordQuery(userId: Id, kind: Option<string>, startDate: Option<int>, endDate: Option<int>)
    returns (q: RecordQuery)
    ensures q == RecordQueryOf(userId, kind, startDate, endDate)
  {
    q := RecordQuery(userId, None, None, None);
    if Text.Present(kind) && ParseRecognition(kind.value).Some? {
      q := q.(kind := ParseRecognition(kind.value));
    }
    if startDate.Some? {
      q := q.(from := startDate);
    }
    if endDate.Some? {
      q := q.(to := endDate);
    }
  }

  /** getEmotionRecords: the requester's matching records, newest first, one
      page of them. A negative skip makes the query fail (None). */
  method GetEmotionRecords(db: Db, userId: Id, kind: Option<string>, startDate: Option<int>,
                           endDate: Option<int>, page: Option<int>, limit: Option<int>)
    returns (result: Option<Listing<EmotionRecord>>)
    ensures var p := RequestPaging(page, limit);
      result.None? <==> SkipCount(p) < 0
    ensures result.Some? ==>
      var l := result.value;
      var p := RequestPaging(page, limit);
      var found := Filter(db.emotionRecords, MatchesQuery(RecordQueryOf(userId, kind, startDate, endDate)));
      && l.total == |found|
      && l.items == PageOf(SortNewestFirst(found, RecordTime), SkipCount(p), p.limit)
    ensures result.Some? ==>
      var l := result.value;
      var p := RequestPaging(page, limit);
      && (forall i | 0 <= i < |l.items| :: l.items[i] in db.emotionRecords && l.items[i].userId == userId)
      && NewestFirst(l.items, RecordTime)
      && l.page == p.page && l.limit == p.limit
      && l.pages == PageCount(l.total, p.limit)
  {
    var q := BuildRecordQuery(userId, kind, startDate, endDate);
    var p := RequestPaging(page, limit);
    var skip := SkipCount(p);
    if skip < 0 {
      return None;
    }
    var items := PageOf(SortNewestFirst(Filter(db.emotionRecords, MatchesQuery(q)), RecordTime), skip, p.limit);
    PageOfMatches(db.emotionRecords, MatchesQuery(q), RecordTime, skip, p.limit);
    forall i | 0 <= i < |items| ensures items[i] in db.emotionRecords && items[i].userId == userId {
      assert items[i] in items && MatchesQuery(q)(items[i]);
    }
    var total := |Filter(db.emotionRecords, MatchesQuery(q))|;
    result := Some(Listing(items, total, p.page, p.limit, PageCount(total, p.limit)));
  }

  function OwnedBy(id: Id, userId: Id): EmotionRecord -> bool {
    (r: EmotionRecord) => r.id == id && r.userId == userId
  }

  /** getEmotionRecordById: `findOne({ _id: id, userId })`, None meaning 404. */
  function GetEmotionRecordById(db: Db, userId: Id, id: Id): (r: Option<EmotionRecord>)
    reads db
    ensures r.Some? ==> r.value in db.emotionRecords && r.value.id == id && r.value.userId == userId
    ensures r.None? <==> forall i | 0 <= i < |db.emotionRecords| ::
      !(db.emotionRecords[i].id == id && db.emotionRecords[i].userId == userId)
  {
    match FirstIndex(db.emotionRecords, OwnedBy(id, userId))
    case None => None
    case Some(i) => Some(db.emotionRecords[i])
  }

  /** deleteEmotionRecord: `findOneAndDelete({ _id: id, userId })`; false meaning 404. */
  method DeleteEmotionRecord(db: Db, userId: Id, id: Id) returns (deleted: bool)
    requires db.Valid()
    modifies db
    ensures db.Valid()
    ensures deleted <==> old(GetEmotionRecordById(db, userId, id)).Some?
    ensures !deleted ==> unchanged(db)
    ensures deleted ==>
      var i := FirstIndex(old(db.emotionRecords), OwnedBy(id, userId)).value;
      db.emotionRecords == old(db.emotionRecords)[..i] + old(db.emotionRecords)[i + 1..]
      && db.alerts == old(db.alerts) && db.users == old(db.users) && db.nextId == old(db.nextId)
      && db.appointments == old(db.appointments) && db.consultations == old(db.consultations)
  {
    var found := FirstIndex(db.emotionRecords, OwnedBy(id, userId));
    if found.None? {
      return false;
    }
    var i := found.value;
    db.RemoveEmotionRecord(i);
    deleted := true;
  }
}
