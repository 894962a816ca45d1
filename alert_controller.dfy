/** The alert endpoints of backend/src/controllers/alertController.ts: the
    filtered, paged alert listing, fetching and handling one alert, and the
    guarded creation of a manual alert. */
module AlertController {
  import opened Wrappers
  import opened Types
  import opened Store
  import opened Collections
  import opened Pagination
  import Text
  import AlertService

  /** The query object getAlerts builds; an absent field does not filter. */
  datatype AlertQuery = AlertQuery(
    level: Option<AlertLevel>,
    isHandled: Option<bool>,
    studentId: Option<Id>,
    from: Option<int>,
    to: Option<int>)

  /** `Alert.find(query)` on one alert. */
  predicate Matches(q: AlertQuery, a: Alert) {
    (q.level.Some? ==> a.level == q.level.value)
    && (q.isHandled.Some? ==> a.isHandled == q.isHandled.value)
    && (q.studentId.Some? ==> a.studentId == q.studentId.value)
    && (q.from.Some? ==> a.createdAt >= q.from.value)
    && (q.to.Some? ==> a.createdAt <= q.to.value)
  }

  function MatchesQuery(q: AlertQuery): Alert -> bool {
    (a: Alert) => Matches(q, a)
  }

  /** The query getAlerts builds from its query-string parameters (lines 20-39).
      The level only when it names one of the four levels; `isHandled` whenever
      the parameter is given, true exactly for the string "true"; the student and
      each date bound only when given. The teacher branch at lines 16-18 adds nothing. */
  function AlertQueryOf(level: Option<string>, isHandled: Option<string>, studentId: Option<Id>,
                        startDate: Option<int>, endDate: Option<int>): (q: AlertQuery)
    ensures q.level.Some? <==> Text.Present(level) && ParseLevel(level.value).Some?
    ensures q.level.Some? ==> LevelName(q.level.value) == level.value
    ensures q.isHandled.Some? <==> isHandled.Some?
    ensures q.isHandled.Some? ==> (q.isHandled.value <==> isHandled.value == "true")
    ensures q.studentId == studentId && q.from == startDate && q.to == endDate
  {
    AlertQuery(
      if Text.Present(level) then ParseLevel(level.value) else None,
      if isHandled.Some? then Some(isHandled.value == "true") else None,
      studentId, startDate, endDate)
  }

  /** What the query selects, in terms of the request's own parameters: a valid
      level, the handled flag, the student and both date bounds, each only when given. */
  lemma AlertQuerySelects(level: Option<string>, isHandled: Option<string>, studentId: Option<Id>,
                          startDate: Option<int>, endDate: Option<int>, a: Alert)
    ensures Matches(AlertQueryOf(level, isHandled, studentId, startDate, endDate), a) <==>
      (Text.Present(level) && ParseLevel(level.value).Some? ==> a.level == ParseLevel(level.value).value)
      && (isHandled.Some? ==> (a.isHandled <==> isHandled.value == "true"))
      && (studentId.Some? ==> a.studentId == studentId.value)
      && (startDate.Some? ==> a.createdAt >= startDate.value)
      && (endDate.Some? ==> a.createdAt <= endDate.value)
  {
  }

  /** Fills the query field by field, as lines 20-39 do. */
  method BuildAlertQuery(level: Option<string>, isHandled: Option<string>, studentId: Option<Id>,
                         startDate: Option<int>, endDate: Option<int>)
    returns (q: AlertQuery)
    ensures q == AlertQueryOf(level, isHandled, studentId, startDate, endDate)
  {
    q := AlertQuery(None, None, None, None, None);
    if Text.Present(level) && ParseLevel(level.value).Some? {
      q := q.(level := ParseLevel(level.value));
    }
    if isHandled.Some? {
      q := q.(isHandled := Some(isHandled.value == "true"));
    }
    if studentId.Some? {
      q := q.(studentId := studentId);
    }
    if startDate.Some? {
      q := q.(from := startDate);
    }
    if endDate.Some? {
      q := q.(to := endDate);
    }
  }

  /** An empty query matches every alert. */
  lemma EmptyQueryMatchesAll(a: Alert)
    ensures Matches(AlertQuery(None, None, None, None, None), a)
  {
  }

  /** getAlerts: the matching alerts, newest first, one page of them, with the
      count of all matches. A negative skip makes the query fail (None). */
  method GetAlerts(db: Db, level: Option<string>, isHandled: Option<string>, studentId: Option<Id>,
                   startDate: Option<int>, endDate: Option<int>, page: Option<int>, limit: Option<int>)
    returns (result: Option<Listing<Alert>>)
    ensures var p := RequestPaging(page, limit);
      result.None? <==> SkipCount(p) < 0
    ensures result.Some? ==>
      var l := result.value;
      var p := RequestPaging(page, limit);
      var found := Filter(db.alerts, MatchesQuery(AlertQueryOf(level, isHandled, studentId, startDate, endDate)));
      && l.total == |found|
      && l.items == PageOf(SortNewestFirst(found, AlertTime), SkipCount(p), p.limit)
    ensures result.Some? ==>
      var l := result.value;
      var p := RequestPaging(page, limit);
      && (forall i | 0 <= i < |l.items| :: l.items[i] in db.alerts)
      && (forall i | 0 <= i < |l.items| :: studentId.Some? ==> l.items[i].studentId == studentId.value)
      && (forall i | 0 <= i < |l.items| ::
            isHandled.Some? ==> (l.items[i].isHandled <==> isHandled.value == "true"))
      && NewestFirst(l.items, AlertTime)
      && l.page == p.page && l.limit == p.limit
      && l.pages == PageCount(l.total, p.limit)
  {
    var q := BuildAlertQuery(level, isHandled, studentId, startDate, endDate);
    var p := RequestPaging(page, limit);
    var skip := SkipCount(p);
    if skip < 0 {
      return None;
    }
    var found := Filter(db.alerts, MatchesQuery(q));
    var items := PageOf(SortNewestFirst(found, AlertTime), skip, p.limit);
    PageOfMatches(db.alerts, MatchesQuery(q), AlertTime, skip, p.limit);
    forall i | 0 <= i < |items|
      ensures items[i] in db.alerts
      ensures studentId.Some? ==> items[i].studentId == studentId.value
      ensures isHandled.Some? ==> (items[i].isHandled <==> isHandled.value == "true")
    {
      assert items[i] in items && MatchesQuery(q)(items[i]);
    }
    var total := |found|;
    result := Some(Listing(items, total, p.page, p.limit, PageCount(total, p.limit)));
  }

  /** getAlertById: `Alert.findById(id)`, None meaning 404. */
  function GetAlertById(db: Db, id: Id): (r: Option<Alert>)
    reads db
    ensures r.Some? ==> r.value in db.alerts && r.value.id == id
    ensures r.None? <==> forall i | 0 <= i < |db.alerts| :: db.alerts[i].id != id
  {
    match FirstIndex(db.alerts, AlertService.HasId(id))
    case None => None
    case Some(i) => Some(db.alerts[i])
  }

  /** The HTTP outcome of handleAlertById: 200 with the handled alert, or 500
      when handleAlert throws on an unknown id. */
  datatype HandleResponse = Handled(alert: Alert) | HandleFailed

  /** handleAlertById: the signed-in user marks the alert handled. */
  method HandleAlertById(db: Db, id: Id, handledBy: Id, handledNote: Option<string>, now: int)
    returns (response: HandleResponse)
    requires db.Valid()
    modifies db
    ensures db.Valid()
    ensures response.HandleFailed? <==> old(GetAlertById(db, id)).None?
    ensures response.HandleFailed? ==>
      db.alerts == old(db.alerts) && db.users == old(db.users) && db.emotionRecords == old(db.emotionRecords)
      && db.nextId == old(db.nextId) && db.appointments == old(db.appointments)
      && db.consultations == old(db.consultations)
    ensures response.Handled? ==>
      var i := FirstIndex(old(db.alerts), AlertService.HasId(id)).value;
      response.alert == AlertService.MarkHandled(old(db.alerts)[i], handledBy, handledNote, now)
      && db.alerts == old(db.alerts)[i := response.alert]
      && db.users == old(db.users) && db.emotionRecords == old(db.emotionRecords) && db.nextId == old(db.nextId)
      && db.appointments == old(db.appointments) && db.consultations == old(db.consultations)
  {
    var alert := AlertService.HandleAlert(db, id, handledBy, handledNote, now);
    if alert.None? {
      return HandleFailed;
    }
    response := Handled(alert.value);
  }

  /** The HTTP outcome of createManualAlert. */
  datatype ManualAlertResponse =
    | Created(alert: Alert)
    | MissingField
    | InvalidLevel
    | Forbidden
    | ServerError

  /** The first guard of createManualAlert that refuses the request, in the order
      the handler makes them: a missing field (lines 118-121), a level outside the
      enum (lines 123-126), a role that may not raise alerts (lines 129-132). */
  function ManualAlertRefusal(studentId: Option<Id>, level: Option<string>, reason: Option<string>,
                              role: UserRole): Option<ManualAlertResponse>
  {
    if studentId.None? || !Text.Present(level) || !Text.Present(reason) then Some(MissingField)
    else if ParseLevel(level.value).None? then Some(InvalidLevel)
    else if role !in {Teacher, Counselor, Admin} then Some(Forbidden)
    else None
  }

  /** createManualAlert by a signed-in user of the given role at time `now`. */
  method CreateManualAlert(db: Db, role: UserRole, studentId: Option<Id>, level: Option<string>,
                           reason: Option<string>, description: Option<string>, now: int)
    returns (response: ManualAlertResponse)
    requires db.Valid()
    modifies db
    ensures db.Valid()
    ensures db.users == old(db.users) && db.emotionRecords == old(db.emotionRecords)
    ensures db.appointments == old(db.appointments) && db.consultations == old(db.consultations)
    ensures ManualAlertRefusal(studentId, level, reason, role).Some? ==>
      response == ManualAlertRefusal(studentId, level, reason, role).value && unchanged(db)
    ensures ManualAlertRefusal(studentId, level, reason, role).None? ==>
      (response.Created? || response.ServerError?) && (response.Created? <==> Text.Trim(reason.value) != "")
    ensures response.Created? ==>
      ManualAlertRefusal(studentId, level, reason, role).None?
      && response.alert == NewAlert(old(db.nextId), studentId.value, ParseLevel(level.value).value,
                                    reason.value, description, now)
      && db.alerts == old(db.alerts) + [response.alert] && db.nextId == old(db.nextId) + 1
    ensures response.ServerError? ==>
      ManualAlertRefusal(studentId, level, reason, role).None? && Text.Trim(reason.value) == ""
      && db.alerts == old(db.alerts) && db.nextId == old(db.nextId)
  {
    var refusal := ManualAlertRefusal(studentId, level, reason, role);
    if refusal.Some? {
      return refusal.value;
    }
    var alert := AlertService.GenerateAlert(db, studentId.value, ParseLevel(level.value).value,
                                            reason.value, description, now);
    if alert.None? {
      return ServerError;
    }
    response := Created(alert.value);
  }

  /** Only teachers, counsellors and administrators get past the guards, and only
      with all three fields and a valid level. */
  lemma OnlyStaffRaiseAlerts(studentId: Option<Id>, level: Option<string>, reason: Option<string>, role: UserRole)
    ensures ManualAlertRefusal(studentId, level, reason, role).None? <==>
      studentId.Some? && Text.Present(level) && Text.Present(reason)
      && ParseLevel(level.value).Some? && role != Student
  {
  }

  /** A whitespace-only reason passes the guards, since the string is not empty,
      but the alert's save rejects it once trimmed: the 500 path. */
  lemma BlankReasonPassesGuards()
    ensures ManualAlertRefusal(Some(0), Some("mild"), Some(" "), Teacher).None?
    ensures Text.Trim(" ") == ""
  {
    assert ParseLevel("mild") == Some(Mild);
    Text.TrimUnique(" ", "", "");
    assert " " + "" + "" == " ";
  }
}
