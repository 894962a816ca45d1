/** The consultation endpoints of backend/src/controllers/consultationController.ts:
    booking an appointment with a counsellor, confirming and cancelling it, the
    role-scoped listings and lookups, and writing and amending the record of a
    consultation. */
module ConsultationController {
  import opened Wrappers
  import opened Types
  import opened Store
  import opened Collections
  import opened Pagination
  import opened ConsultationRecordModel
  import Text

  /** The signed-in user, as the auth middleware puts it on the request. */
  datatype Requester = Requester(userId: Id, role: UserRole)

  /** Why a request is turned away. */
  datatype Refusal =
    | MissingBookingFields
    | CounselorNotFound
    | SlotAlreadyBooked
    | AppointmentNotFound
    | NotPermitted
    | MissingRecordFields
    | StudentNotFound
    | RecordNotFound
    | SaveRejected

  /** The HTTP status each refusal is answered with. */
  function StatusCode(r: Refusal): (code: int)
    ensures code == 400 <==> r in {MissingBookingFields, SlotAlreadyBooked, MissingRecordFields}
    ensures code == 404 <==> r in {CounselorNotFound, AppointmentNotFound, StudentNotFound, RecordNotFound}
    ensures code == 403 <==> r == NotPermitted
    ensures code == 500 <==> r == SaveRejected
  {
    match r
    case MissingBookingFields => 400
    case SlotAlreadyBooked => 400
    case MissingRecordFields => 400
    case CounselorNotFound => 404
    case AppointmentNotFound => 404
    case StudentNotFound => 404
    case RecordNotFound => 404
    case NotPermitted => 403
    case SaveRejected => 500
  }

  datatype AppointmentResponse = AppointmentOk(appointment: Appointment) | AppointmentRefused(refusal: Refusal)

  datatype RecordResponse = RecordOk(record: ConsultationRecord) | RecordRefused(refusal: Refusal)

  // ---------------------------------------------------------------- booking

  /** A pending or confirmed appointment holds its counsellor's time slot. */
  predicate Active(a: Appointment) {
    a.status == Pending || a.status == Confirmed
  }

  /** `{ counselorId, appointmentTime, status: { $in: [pending, confirmed] } }` on one appointment. */
  predicate Holds(a: Appointment, counselorId: Id, time: int) {
    a.counselorId == counselorId && a.appointmentTime == time && Active(a)
  }

  function HoldsSlot(counselorId: Id, time: int): Appointment -> bool {
    (a: Appointment) => Holds(a, counselorId, time)
  }

  /** The invariant the booking check is there for: no two active appointments
      of one counsellor at the same time. */
  predicate NoDoubleBooking(appts: seq<Appointment>) {
    forall i, j | 0 <= i < j < |appts| ::
      !(Holds(appts[i], appts[j].counselorId, appts[j].appointmentTime) && Active(appts[j]))
  }

  /** The first check of createAppointment that refuses the request, in the
      order the handler makes them (lines 14-36). */
  function BookingRefusal(db: Db, counselorId: Option<Id>, time: Option<int>): (r: Option<Refusal>)
    reads db
    ensures r.None? <==>
      && counselorId.Some? && time.Some?
      && db.HasRole(counselorId.value, Counselor)
      && forall i | 0 <= i < |db.appointments| :: !Holds(db.appointments[i], counselorId.value, time.value)
  {
    if counselorId.None? || time.None? then Some(MissingBookingFields)
    else if !db.HasRole(counselorId.value, Counselor) then Some(CounselorNotFound)
    else if FirstIndex(db.appointments, HoldsSlot(counselorId.value, time.value)).Some? then Some(SlotAlreadyBooked)
    else None
  }

  /** createAppointment by the signed-in student at time `now`: refused with the
      first failing check and nothing stored, or a new pending appointment
      appended under the next id. */
  method CreateAppointment(db: Db, studentId: Id, counselorId: Option<Id>, time: Option<int>,
                           notes: Option<string>, now: int)
    returns (response: AppointmentResponse)
    requires db.Valid()
    modifies db
    ensures db.Valid()
    ensures response.AppointmentRefused? <==> old(BookingRefusal(db, counselorId, time)).Some?
    ensures response.AppointmentRefused? ==>
      response.refusal == old(BookingRefusal(db, counselorId, time)).value && unchanged(db)
    ensures response.AppointmentOk? ==>
      && response.appointment == NewAppointment(old(db.nextId), studentId, counselorId.value, time.value, notes, now)
      && db.appointments == old(db.appointments) + [response.appointment]
      && db.nextId == old(db.nextId) + 1
      && db.users == old(db.users) && db.emotionRecords == old(db.emotionRecords)
      && db.alerts == old(db.alerts) && db.consultations == old(db.consultations)
    ensures NoDoubleBooking(old(db.appointments)) ==> NoDoubleBooking(db.appointments)
  {
    var refusal := BookingRefusal(db, counselorId, time);
    if refusal.Some? {
      return AppointmentRefused(refusal.value);
    }
    var a := NewAppointment(db.nextId, studentId, counselorId.value, time.value, notes, now);
    if NoDoubleBooking(db.appointments) {
      BookingKeepsSlotsSingle(db.appointments, a);
    }
    db.InsertAppointment(a);
    response := AppointmentOk(a);
  }

  /** A booking the check lets through keeps every slot singly booked. */
  lemma BookingKeepsSlotsSingle(appts: seq<Appointment>, a: Appointment)
    requires NoDoubleBooking(appts)
    requires forall i | 0 <= i < |appts| :: !Holds(appts[i], a.counselorId, a.appointmentTime)
    ensures NoDoubleBooking(appts + [a])
  {
    var s := appts + [a];
    forall i, j | 0 <= i < j < |s|
      ensures !(Holds(s[i], s[j].counselorId, s[j].appointmentTime) && Active(s[j]))
    {
      if j < |appts| {
        assert s[i] == appts[i] && s[j] == appts[j];
      } else {
        assert s[i] == appts[i] && s[j] == a;
      }
    }
  }

  /** Cancelled and completed appointments never hold a slot: adding one changes
      no booking check. */
  lemma InactiveDoNotBlock(appts: seq<Appointment>, a: Appointment, counselorId: Id, time: int)
    requires a.status == Cancelled || a.status == Completed
    ensures (exists i | 0 <= i < |appts + [a]| :: Holds((appts + [a])[i], counselorId, time))
        <==> (exists i | 0 <= i < |appts| :: Holds(appts[i], counselorId, time))
  {
    var s := appts + [a];
    if exists i | 0 <= i < |s| :: Holds(s[i], counselorId, time) {
      var i :| 0 <= i < |s| && Holds(s[i], counselorId, time);
      assert i < |appts| && s[i] == appts[i];
    }
    if exists i | 0 <= i < |appts| :: Holds(appts[i], counselorId, time) {
      var i :| 0 <= i < |appts| && Holds(appts[i], counselorId, time);
      assert s[i] == appts[i];
    }
  }

  // ---------------------------------------------------------- confirm, cancel

  function OwnAppointment(id: Id, counselorId: Id): Appointment -> bool {
    (a: Appointment) => a.id == id && a.counselorId == counselorId
  }

  function AppointmentWithId(id: Id): Appointment -> bool {
    (a: Appointment) => a.id == id
  }

  /** confirmAppointment: `findOne({ _id: id, counselorId })` with the requester as
      counsellor, then the status set to confirmed whatever it was before. */
  method ConfirmAppointment(db: Db, counselorId: Id, id: Id) returns (response: AppointmentResponse)
    requires db.Valid()
    modifies db
    ensures db.Valid()
    ensures var found := old(FirstIndex(db.appointments, OwnAppointment(id, counselorId)));
      && (response.AppointmentRefused? <==> found.None?)
      && (found.None? ==> response.refusal == AppointmentNotFound && unchanged(db))
      && (found.Some? ==>
            response.appointment == old(db.appointments)[found.value].(status := Confirmed)
            && db.appointments == old(db.appointments)[found.value := response.appointment])
    ensures db.users == old(db.users) && db.emotionRecords == old(db.emotionRecords)
    ensures db.alerts == old(db.alerts) && db.consultations == old(db.consultations) && db.nextId == old(db.nextId)
  {
    var found := FirstIndex(db.appointments, OwnAppointment(id, counselorId));
    if found.None? {
      return AppointmentRefused(AppointmentNotFound);
    }
    var a := db.appointments[found.value].(status := Confirmed);
    db.ReplaceAppointment(found.value, a);
    response := AppointmentOk(a);
  }

  /** Confirming does not look at the prior status, so a cancelled appointment is
      made active again even when its slot has been booked since: the invariant
      the booking check keeps does not survive a confirm. */
  lemma ConfirmCanReviveABookedSlot()
    ensures var cancelled := Appointment(1, 10, 20, 900, Cancelled, None, 0);
      var rebooked := Appointment(2, 11, 20, 900, Pending, None, 1);
      && NoDoubleBooking([cancelled, rebooked])
      && !NoDoubleBooking([cancelled.(status := Confirmed), rebooked])
  {
    var rebooked := Appointment(2, 11, 20, 900, Pending, None, 1);
    var s := [Appointment(1, 10, 20, 900, Confirmed, None, 0), rebooked];
    assert Holds(s[0], s[1].counselorId, s[1].appointmentTime) && Active(s[1]);
  }

  /** The ownership test shared by cancel and the two lookups: a student only
      their own, a counsellor only their own, teachers and administrators any. */
  predicate MayAct(who: Requester, studentId: Id, counselorId: Id) {
    !(who.role == Student && studentId != who.userId) && !(who.role == Counselor && counselorId != who.userId)
  }

  lemma MayActByRole(who: Requester, studentId: Id, counselorId: Id)
    ensures who.role == Student ==> (MayAct(who, studentId, counselorId) <==> studentId == who.userId)
    ensures who.role == Counselor ==> (MayAct(who, studentId, counselorId) <==> counselorId == who.userId)
    ensures who.role == Teacher || who.role == Admin ==> MayAct(who, studentId, counselorId)
  {
  }

  /** cancelAppointment: `findById(id)` (404 when absent), the ownership test (403),
      then the status set to cancelled. */
  method CancelAppointment(db: Db, who: Requester, id: Id) returns (response: AppointmentResponse)
    requires db.Valid()
    modifies db
    ensures db.Valid()
    ensures var found := old(FirstIndex(db.appointments, AppointmentWithId(id)));
      && (found.None? ==> response == AppointmentRefused(AppointmentNotFound) && unchanged(db))
      && (found.Some? ==>
            var a := old(db.appointments)[found.value];
            && (!MayAct(who, a.studentId, a.counselorId) ==> response == AppointmentRefused(NotPermitted) && unchanged(db))
            && (MayAct(who, a.studentId, a.counselorId) ==>
                  response == AppointmentOk(a.(status := Cancelled))
                  && db.appointments == old(db.appointments)[found.value := a.(status := Cancelled)]))
    ensures db.users == old(db.users) && db.emotionRecords == old(db.emotionRecords)
    ensures db.alerts == old(db.alerts) && db.consultations == old(db.consultations) && db.nextId == old(db.nextId)
    ensures NoDoubleBooking(old(db.appointments)) ==> NoDoubleBooking(db.appointments)
  {
    var found := FirstIndex(db.appointments, AppointmentWithId(id));
    if found.None? {
      return AppointmentRefused(AppointmentNotFound);
    }
    var a := db.appointments[found.value];
    if !MayAct(who, a.studentId, a.counselorId) {
      return AppointmentRefused(NotPermitted);
    }
    if NoDoubleBooking(db.appointments) {
      CancelKeepsSlotsSingle(db.appointments, found.value);
    }
    db.ReplaceAppointment(found.value, a.(status := Cancelled));
    response := AppointmentOk(a.(status := Cancelled));
  }

  /** Cancelling can only release slots: it keeps every slot singly booked. */
  lemma CancelKeepsSlotsSingle(appts: seq<Appointment>, i: nat)
    requires i < |appts| && NoDoubleBooking(appts)
    ensures NoDoubleBooking(appts[i := appts[i].(status := Cancelled)])
  {
    var s := appts[i := appts[i].(status := Cancelled)];
    forall a, b | 0 <= a < b < |s|
      ensures !(Holds(s[a], s[b].counselorId, s[b].appointmentTime) && Active(s[b]))
    {
      if a != i && b != i {
        assert s[a] == appts[a] && s[b] == appts[b];
      }
    }
  }

  /** The outcome of a lookup by id: found and visible, absent (404), or not the
      requester's to see (403). */
  datatype Lookup<T> = Visible(doc: T) | Absent | Hidden

  /** getAppointmentById. */
  function GetAppointmentById(db: Db, who: Requester, id: Id): (r: Lookup<Appointment>)
    reads db
    ensures r.Absent? <==> forall i | 0 <= i < |db.appointments| :: db.appointments[i].id != id
    ensures r.Visible? ==> r.doc in db.appointments && r.doc.id == id && MayAct(who, r.doc.studentId, r.doc.counselorId)
    ensures r.Hidden? ==> exists i | 0 <= i < |db.appointments| ::
      db.appointments[i].id == id && !MayAct(who, db.appointments[i].studentId, db.appointments[i].counselorId)
  {
    match FirstIndex(db.appointments, AppointmentWithId(id))
    case None => Absent
    case Some(i) =>
      var a := db.appointments[i];
      if MayAct(who, a.studentId, a.counselorId) then Visible(a) else Hidden
  }

  // --------------------------------------------------------------- listings

  /** The query object getAppointments builds; an absent field does not filter. */
  datatype AppointmentQuery = AppointmentQuery(
    studentId: Option<Id>,
    counselorId: Option<Id>,
    status: Option<AppointmentStatus>,
    from: Option<int>,
    to: Option<int>)

  predicate MatchesAppointment(q: AppointmentQuery, a: Appointment) {
    (q.studentId.Some? ==> a.studentId == q.studentId.value)
    && (q.counselorId.Some? ==> a.counselorId == q.counselorId.value)
    && (q.status.Some? ==> a.status == q.status.value)
    && (q.from.Some? ==> a.appointmentTime >= q.from.value)
    && (q.to.Some? ==> a.appointmentTime <= q.to.value)
  }

  function AppointmentMatcher(q: AppointmentQuery): Appointment -> bool {
    (a: Appointment) => MatchesAppointment(q, a)
  }

  /** The query getAppointments builds (lines 64-89): a student is pinned to
      their own appointments, a counsellor to theirs, and only teachers and
      administrators may pick a counsellor; the status only when it is one of the
      four; each date bound only when given. */
  function AppointmentQueryOf(who: Requester, status: Option<string>, counselorId: Option<Id>,
                              startDate: Option<int>, endDate: Option<int>): (q: AppointmentQuery)
    ensures who.role == Student ==> q.studentId == Some(who.userId) && q.counselorId.None?
    ensures who.role == Counselor ==> q.studentId.None? && q.counselorId == Some(who.userId)
    ensures who.role == Teacher || who.role == Admin ==> q.studentId.None? && q.counselorId == counselorId
    ensures q.status.Some? <==> Text.Present(status) && ParseStatus(status.value).Some?
    ensures q.status.Some? ==> StatusName(q.status.value) == status.value
    ensures q.from == startDate && q.to == endDate
  {
    AppointmentQuery(
      if who.role == Student then Some(who.userId) else None,
      if who.role == Student then None else if who.role == Counselor then Some(who.userId) else counselorId,
      if Text.Present(status) then ParseStatus(status.value) else None,
      startDate, endDate)
  }

  /** What the appointment query selects, in terms of the request's own
      parameters and the requester's role. */
  lemma AppointmentQuerySelects(who: Requester, status: Option<string>, counselorId: Option<Id>,
                                startDate: Option<int>, endDate: Option<int>, a: Appointment)
    ensures MatchesAppointment(AppointmentQueryOf(who, status, counselorId, startDate, endDate), a) <==>
      (who.role == Student ==> a.studentId == who.userId)
      && (who.role == Counselor ==> a.counselorId == who.userId)
      && ((who.role == Teacher || who.role == Admin) && counselorId.Some? ==> a.counselorId == counselorId.value)
      && (Text.Present(status) && ParseStatus(status.value).Some? ==> a.status == ParseStatus(status.value).value)
      && (startDate.Some? ==> a.appointmentTime >= startDate.value)
      && (endDate.Some? ==> a.appointmentTime <= endDate.value)
  {
  }

  /** Fills the query by mutation, as lines 64-89 do. */
  method BuildAppointmentQuery(who: Requester, status: Option<string>, counselorId: Option<Id>,
                               startDate: Option<int>, endDate: Option<int>)
    returns (q: AppointmentQuery)
    ensures q == AppointmentQueryOf(who, status, counselorId, startDate, endDate)
  {
    q := AppointmentQuery(None, None, None, None, None);
    if who.role == Student {
      q := q.(studentId := Some(who.userId));
    } else if who.role == Counselor {
      q := q.(counselorId := Some(who.userId));
    } else if counselorId.Some? {
      q := q.(counselorId := counselorId);
    }
    if Text.Present(status) && ParseStatus(status.value).Some? {
      q := q.(status := ParseStatus(status.value));
    }
    if startDate.Some? {
      q := q.(from := startDate);
    }
    if endDate.Some? {
      q := q.(to := endDate);
    }
  }

  /** A document matching a query that pins the requester's own side is one the
      requester may act on. */
  lemma PinnedMatchMayAct(who: Requester, pinnedStudent: Option<Id>, pinnedCounselor: Option<Id>,
                          studentId: Id, counselorId: Id)
    requires who.role == Student ==> pinnedStudent == Some(who.userId)
    requires who.role == Counselor ==> pinnedCounselor == Some(who.userId)
    requires pinnedStudent.Some? ==> studentId == pinnedStudent.value
    requires pinnedCounselor.Some? ==> counselorId == pinnedCounselor.value
    ensures MayAct(who, studentId, counselorId)
  {
  }

  /** `.sort({ appointmentTime: 1 })`: the earliest first, written as the newest
      first on the negated time. */
  function SoonestKey(a: Appointment): int { -a.appointmentTime }

  /** getAppointments: the matching appointments, earliest first, one page of
      them. A negative skip makes the query fail (None). */
  method GetAppointments(db: Db, who: Requester, status: Option<string>, counselorId: Option<Id>,
                         startDate: Option<int>, endDate: Option<int>, page: Option<int>, limit: Option<int>)
    returns (result: Option<Listing<Appointment>>)
    ensures result.None? <==> SkipCount(RequestPaging(page, limit)) < 0
    ensures result.Some? ==>
      var l := result.value;
      var p := RequestPaging(page, limit);
      var found := Filter(db.appointments, AppointmentMatcher(AppointmentQueryOf(who, status, counselorId, startDate, endDate)));
      && l.total == |found|
      && l.items == PageOf(SortNewestFirst(found, SoonestKey), SkipCount(p), p.limit)
    ensures result.Some? ==>
      var l := result.value;
      var p := RequestPaging(page, limit);
      && (forall i | 0 <= i < |l.items| :: l.items[i] in db.appointments)
      && (forall i | 0 <= i < |l.items| :: MayAct(who, l.items[i].studentId, l.items[i].counselorId))
      && (forall i, j | 0 <= i < j < |l.items| :: l.items[i].appointmentTime <= l.items[j].appointmentTime)
      && l.page == p.page && l.limit == p.limit
      && l.pages == PageCount(l.total, p.limit)
  {
    var q := BuildAppointmentQuery(who, status, counselorId, startDate, endDate);
    var p := RequestPaging(page, limit);
    var skip := SkipCount(p);
    if skip < 0 {
      return None;
    }
    var found := Filter(db.appointments, AppointmentMatcher(q));
    var items := PageOf(SortNewestFirst(found, SoonestKey), skip, p.limit);
    PageOfMatches(db.appointments, AppointmentMatcher(q), SoonestKey, skip, p.limit);
    forall i | 0 <= i < |items|
      ensures items[i] in db.appointments && MayAct(who, items[i].studentId, items[i].counselorId)
    {
      assert items[i] in items && AppointmentMatcher(q)(items[i]);
      PinnedMatchMayAct(who, q.studentId, q.counselorId, items[i].studentId, items[i].counselorId);
    }
    forall i, j | 0 <= i < j < |items| ensures items[i].appointmentTime <= items[j].appointmentTime {
      assert SoonestKey(items[i]) >= SoonestKey(items[j]);
    }
    var total := |found|;
    result := Some(Listing(items, total, p.page, p.limit, PageCount(total, p.limit)));
  }

  /** The query object getConsultationRecords builds. */
  datatype RecordQuery = RecordQuery(
    studentId: Option<Id>,
    counselorId: Option<Id>,
    from: Option<int>,
    to: Option<int>)

  predicate MatchesRecord(q: RecordQuery, r: ConsultationRecord) {
    (q.studentId.Some? ==> r.studentId == q.studentId.value)
    && (q.counselorId.Some? ==> r.counselorId == q.counselorId.value)
    && (q.from.Some? ==> r.startTime >= q.from.value)
    && (q.to.Some? ==> r.startTime <= q.to.value)
  }

  function RecordMatcher(q: RecordQuery): ConsultationRecord -> bool {
    (r: ConsultationRecord) => MatchesRecord(q, r)
  }

  /** The query getConsultationRecords builds (lines 281-305): students and
      counsellors are pinned to their own records, teachers and administrators may
      filter by student and by counsellor; the date bounds apply to the start time. */
  function RecordQueryOf(who: Requester, studentId: Option<Id>, counselorId: Option<Id>,
                         startDate: Option<int>, endDate: Option<int>): (q: RecordQuery)
    ensures who.role == Student ==> q.studentId == Some(who.userId) && q.counselorId.None?
    ensures who.role == Counselor ==> q.studentId.None? && q.counselorId == Some(who.userId)
    ensures who.role == Teacher || who.role == Admin ==> q.studentId == studentId && q.counselorId == counselorId
    ensures q.from == startDate && q.to == endDate
  {
    RecordQuery(
      if who.role == Student then Some(who.userId) else if who.role == Counselor then None else studentId,
      if who.role == Student then None else if who.role == Counselor then Some(who.userId) else counselorId,
      startDate, endDate)
  }

  /** What the record query selects, in terms of the request's own parameters
      and the requester's role. */
  lemma RecordQuerySelects(who: Requester, studentId: Option<Id>, counselorId: Option<Id>,
                           startDate: Option<int>, endDate: Option<int>, r: ConsultationRecord)
    ensures MatchesRecord(RecordQueryOf(who, studentId, counselorId, startDate, endDate), r) <==>
      (who.role == Student ==> r.studentId == who.userId)
      && (who.role == Counselor ==> r.counselorId == who.userId)
      && ((who.role == Teacher || who.role == Admin) && studentId.Some? ==> r.studentId == studentId.value)
      && ((who.role == Teacher || who.role == Admin) && counselorId.Some? ==> r.counselorId == counselorId.value)
      && (startDate.Some? ==> r.startTime >= startDate.value)
      && (endDate.Some? ==> r.startTime <= endDate.value)
  {
  }

  /** Fills the query by mutation, as lines 281-305 do. */
  method BuildRecordQuery(who: Requester, studentId: Option<Id>, counselorId: Option<Id>,
                          startDate: Option<int>, endDate: Option<int>)
    returns (q: RecordQuery)
    ensures q == RecordQueryOf(who, studentId, counselorId, startDate, endDate)
  {
    q := RecordQuery(None, None, None, None);
    if who.role == Student {
      q := q.(studentId := Some(who.userId));
    } else if who.role == Counselor {
      q := q.(counselorId := Some(who.userId));
    } else {
      if studentId.Some? {
        q := q.(studentId := studentId);
      }
      if counselorId.Some? {
        q := q.(counselorId := counselorId);
      }
    }
    if startDate.Some? {
      q := q.(from := startDate);
    }
    if endDate.Some? {
      q := q.(to := endDate);
    }
  }

  /** `.sort({ startTime: -1 })`. */
  function StartKey(r: ConsultationRecord): int { r.startTime }

  /** getConsultationRecords: the matching records, latest start first, one page. */
  method GetConsultationRecords(db: Db, who: Requester, studentId: Option<Id>, counselorId: Option<Id>,
                                startDate: Option<int>, endDate: Option<int>, page: Option<int>, limit: Option<int>)
    returns (result: Option<Listing<ConsultationRecord>>)
    ensures result.None? <==> SkipCount(RequestPaging(page, limit)) < 0
    ensures result.Some? ==>
      var l := result.value;
      var p := RequestPaging(page, limit);
      var found := Filter(db.consultations, RecordMatcher(RecordQueryOf(who, studentId, counselorId, startDate, endDate)));
      && l.total == |found|
      && l.items == PageOf(SortNewestFirst(found, StartKey), SkipCount(p), p.limit)
    ensures result.Some? ==>
      var l := result.value;
      var p := RequestPaging(page, limit);
      && (forall i | 0 <= i < |l.items| :: l.items[i] in db.consultations)
      && (forall i | 0 <= i < |l.items| :: MayAct(who, l.items[i].studentId, l.items[i].counselorId))
      && NewestFirst(l.items, StartKey)
      && l.page == p.page && l.limit == p.limit
      && l.pages == PageCount(l.total, p.limit)
  {
    var q := BuildRecordQuery(who, studentId, counselorId, startDate, endDate);
    var p := RequestPaging(page, limit);
    var skip := SkipCount(p);
    if skip < 0 {
      return None;
    }
    var found := Filter(db.consultations, RecordMatcher(q));
    var items := PageOf(SortNewestFirst(found, StartKey), skip, p.limit);
    PageOfMatches(db.consultations, RecordMatcher(q), StartKey, skip, p.limit);
    forall i | 0 <= i < |items|
      ensures items[i] in db.consultations && MayAct(who, items[i].studentId, items[i].counselorId)
    {
      assert items[i] in items && RecordMatcher(q)(items[i]);
      PinnedMatchMayAct(who, q.studentId, q.counselorId, items[i].studentId, items[i].counselorId);
    }
    var total := |found|;
    result := Some(Listing(items, total, p.page, p.limit, PageCount(total, p.limit)));
  }

  function RecordWithId(id: Id): ConsultationRecord -> bool {
    (r: ConsultationRecord) => r.id == id
  }

  /** getConsultationRecordById. */
  function GetConsultationRecordById(db: Db, who: Requester, id: Id): (r: Lookup<ConsultationRecord>)
    reads db
    ensures r.Absent? <==> forall i | 0 <= i < |db.consultations| :: db.consultations[i].id != id
    ensures r.Visible? ==> r.doc in db.consultations && r.doc.id == id && MayAct(who, r.doc.studentId, r.doc.counselorId)
    ensures r.Hidden? ==> exists i | 0 <= i < |db.consultations| ::
      db.consultations[i].id == id && !MayAct(who, db.consultations[i].studentId, db.consultations[i].counselorId)
  {
    match FirstIndex(db.consultations, RecordWithId(id))
    case None => Absent
    case Some(i) =>
      var c := db.consultations[i];
      if MayAct(who, c.studentId, c.counselorId) then Visible(c) else Hidden
  }

  // ------------------------------------------------------ consultation records

  /** `effect || ConsultationEffect.FAIR`, then the enum check of the schema:
      None when a value outside the enum is given, so that the save fails. */
  function EffectOfRequest(effect: Option<string>): (r: Option<ConsultationEffect>)
    ensures !Text.Present(effect) ==> r == Some(Fair)
    ensures Text.Present(effect) ==> r == ParseEffect(effect.value)
  {
    if Text.Present(effect) then ParseEffect(effect.value) else Some(EffectOrFair(None))
  }

  function AppointmentOf(id: Id, counselorId: Id, studentId: Id): Appointment -> bool {
    (a: Appointment) => a.id == id && a.counselorId == counselorId && a.studentId == studentId
  }

  /** The checks of createConsultationRecord before anything is written
      (lines 224-242): the three required fields, the student, and a supplied
      appointment that must be this counsellor's with this student. */
  function RecordRefusal(db: Db, counselorId: Id, studentId: Option<Id>, appointmentId: Option<Id>,
                         startTime: Option<int>, content: Option<string>): (r: Option<Refusal>)
    reads db
    ensures r.None? <==>
      && studentId.Some? && startTime.Some? && Text.Present(content)
      && db.HasRole(studentId.value, Student)
      && (appointmentId.Some? ==>
            exists i | 0 <= i < |db.appointments| :: AppointmentOf(appointmentId.value, counselorId, studentId.value)(db.appointments[i]))
  {
    if studentId.None? || startTime.None? || !Text.Present(content) then Some(MissingRecordFields)
    else if !db.HasRole(studentId.value, Student) then Some(StudentNotFound)
    else if appointmentId.Some? && FirstIndex(db.appointments, AppointmentOf(appointmentId.value, counselorId, studentId.value)).None? then
      Some(AppointmentNotFound)
    else None
  }

  /** The appointment a record is written for is marked completed and saved. */
  method CompleteAppointment(db: Db, counselorId: Id, studentId: Id, appointmentId: Option<Id>)
    requires db.Valid()
    requires appointmentId.Some? ==> FirstIndex(db.appointments, AppointmentOf(appointmentId.value, counselorId, studentId)).Some?
    modifies db
    ensures db.Valid()
    ensures appointmentId.None? ==> unchanged(db)
    ensures appointmentId.Some? ==>
      var i := old(FirstIndex(db.appointments, AppointmentOf(appointmentId.value, counselorId, studentId))).value;
      db.appointments == old(db.appointments)[i := old(db.appointments)[i].(status := Completed)]
    ensures db.users == old(db.users) && db.emotionRecords == old(db.emotionRecords)
    ensures db.alerts == old(db.alerts) && db.consultations == old(db.consultations) && db.nextId == old(db.nextId)
  {
    if appointmentId.Some? {
      var i := FirstIndex(db.appointments, AppointmentOf(appointmentId.value, counselorId, studentId)).value;
      db.ReplaceAppointment(i, db.appointments[i].(status := Completed));
    }
  }

  /** The document createConsultationRecord saves, before the pre-save hook. */
  function RequestedRecord(id: Id, counselorId: Id, studentId: Id, appointmentId: Option<Id>, startTime: int,
                           endTime: Option<int>, content: string, studentFeedback: Option<string>,
                           counselorFeedback: Option<string>, effect: ConsultationEffect,
                           nextAppointmentTime: Option<int>, now: int): ConsultationRecord
  {
    NewRecord(id, studentId, counselorId, appointmentId, startTime, endTime, content,
              studentFeedback, counselorFeedback, effect, nextAppointmentTime, now)
  }

  /** createConsultationRecord by the signed-in counsellor. A refused check
      changes nothing. Past the checks the appointment, when one is named, is
      completed first; the record's save can still fail (500) on a content that
      is blank once trimmed or an effect outside the enum, and the appointment
      then stays completed. */
  method CreateConsultationRecord(db: Db, counselorId: Id, studentId: Option<Id>, appointmentId: Option<Id>,
                                  startTime: Option<int>, endTime: Option<int>, content: Option<string>,
                                  studentFeedback: Option<string>, counselorFeedback: Option<string>,
                                  effect: Option<string>, nextAppointmentTime: Option<int>, now: int)
    returns (response: RecordResponse)
    requires db.Valid()
    modifies db
    ensures db.Valid()
    ensures db.users == old(db.users) && db.emotionRecords == old(db.emotionRecords) && db.alerts == old(db.alerts)
    ensures var refusal := old(RecordRefusal(db, counselorId, studentId, appointmentId, startTime, content));
      refusal.Some? ==> response == RecordRefused(refusal.value) && unchanged(db)
    ensures response.RecordRefused? && response.refusal != SaveRejected ==> unchanged(db)
    ensures old(RecordRefusal(db, counselorId, studentId, appointmentId, startTime, content)).None? ==>
      && (response.RecordOk? <==>
            EffectOfRequest(effect).Some?
            && Save(RequestedRecord(old(db.nextId), counselorId, studentId.value, appointmentId, startTime.value,
                 endTime, content.value, studentFeedback, counselorFeedback, EffectOfRequest(effect).value,
                 nextAppointmentTime, now)).Some?)
      && (response.RecordRefused? ==> response.refusal == SaveRejected)
    ensures response.RecordOk? ==>
      old(RecordRefusal(db, counselorId, studentId, appointmentId, startTime, content)).None?
      && EffectOfRequest(effect).Some?
      && Some(response.record) == Save(RequestedRecord(old(db.nextId), counselorId, studentId.value, appointmentId,
           startTime.value, endTime, content.value, studentFeedback, counselorFeedback,
           EffectOfRequest(effect).value, nextAppointmentTime, now))
      && db.consultations == old(db.consultations) + [response.record]
      && db.nextId == old(db.nextId) + 1
    ensures response == RecordRefused(SaveRejected) ==>
      db.consultations == old(db.consultations) && db.nextId == old(db.nextId)
    ensures old(RecordRefusal(db, counselorId, studentId, appointmentId, startTime, content)).None? && appointmentId.Some? ==>
      var i := old(FirstIndex(db.appointments, AppointmentOf(appointmentId.value, counselorId, studentId.value))).value;
      db.appointments == old(db.appointments)[i := old(db.appointments)[i].(status := Completed)]
  {
    var refusal := RecordRefusal(db, counselorId, studentId, appointmentId, startTime, content);
    if refusal.Some? {
      return RecordRefused(refusal.value);
    }
    CompleteAppointment(db, counselorId, studentId.value, appointmentId);
    response := SaveNewRecord(db, counselorId, studentId.value, appointmentId, startTime.value, endTime,
                              content.value, studentFeedback, counselorFeedback, effect, nextAppointmentTime, now);
  }

  /** `consultationRecord.save()` of the new document: the enum and `required`
      validators, the pre-save hook, and the insert under the next id. */
  method SaveNewRecord(db: Db, counselorId: Id, studentId: Id, appointmentId: Option<Id>, startTime: int,
                       endTime: Option<int>, content: string, studentFeedback: Option<string>,
                       counselorFeedback: Option<string>, effect: Option<string>,
                       nextAppointmentTime: Option<int>, now: int)
    returns (response: RecordResponse)
    requires db.Valid()
    modifies db
    ensures db.Valid()
    ensures db.users == old(db.users) && db.emotionRecords == old(db.emotionRecords)
    ensures db.alerts == old(db.alerts) && db.appointments == old(db.appointments)
    ensures response.RecordRefused? ==> response.refusal == SaveRejected && unchanged(db)
    ensures response.RecordRefused? <==>
      EffectOfRequest(effect).None?
      || Save(RequestedRecord(old(db.nextId), counselorId, studentId, appointmentId, startTime, endTime, content,
              studentFeedback, counselorFeedback, EffectOfRequest(effect).value, nextAppointmentTime, now)).None?
    ensures response.RecordOk? ==>
      EffectOfRequest(effect).Some?
      && Some(response.record) == Save(RequestedRecord(old(db.nextId), counselorId, studentId, appointmentId,
           startTime, endTime, content, studentFeedback, counselorFeedback, EffectOfRequest(effect).value,
           nextAppointmentTime, now))
      && db.consultations == old(db.consultations) + [response.record]
      && db.nextId == old(db.nextId) + 1
  {
    var e := EffectOfRequest(effect);
    if e.None? {
      return RecordRefused(SaveRejected);
    }
    var saved := Save(RequestedRecord(db.nextId, counselorId, studentId, appointmentId, startTime, endTime, content,
                                      studentFeedback, counselorFeedback, e.value, nextAppointmentTime, now));
    if saved.None? {
      return RecordRefused(SaveRejected);
    }
    db.InsertConsultation(saved.value);
    response := RecordOk(saved.value);
  }

  /** A record created from a request states what the counsellor sent: the
      parties, the appointment, the start, the trimmed content, fair when no
      effect was given, and the duration in whole minutes when an end is given. */
  lemma CreatedRecordContents(id: Id, counselorId: Id, studentId: Id, appointmentId: Option<Id>, startTime: int,
                              endTime: Option<int>, content: string, studentFeedback: Option<string>,
                              counselorFeedback: Option<string>, effect: Option<string>,
                              nextAppointmentTime: Option<int>, now: int)
    requires EffectOfRequest(effect).Some?
    requires Save(RequestedRecord(id, counselorId, studentId, appointmentId, startTime, endTime, content,
                                  studentFeedback, counselorFeedback, EffectOfRequest(effect).value,
                                  nextAppointmentTime, now)).Some?
    ensures var r := Save(RequestedRecord(id, counselorId, studentId, appointmentId, startTime, endTime, content,
                                          studentFeedback, counselorFeedback, EffectOfRequest(effect).value,
                                          nextAppointmentTime, now)).value;
      && r.id == id && r.counselorId == counselorId && r.studentId == studentId && r.appointmentId == appointmentId
      && r.startTime == startTime && r.endTime == endTime && r.content == Text.Trim(content) && r.content != ""
      && (!Text.Present(effect) ==> r.effect == Fair)
      && (endTime.Some? ==> r.duration == Some(RoundMinutes(endTime.value - startTime)))
      && (endTime.None? ==> r.duration.None?)
  {
  }

  /** The fields updateConsultationRecord takes from the body; Some when given.
      The effect is the string the body carries, which need not be in the enum. */
  datatype RecordPatch = RecordPatch(
    content: Option<string>,
    studentFeedback: Option<string>,
    counselorFeedback: Option<string>,
    effect: Option<string>,
    nextAppointmentTime: Option<int>)

  /** A given effect outside the enum, which the schema's validator refuses on save. */
  predicate PatchEffectInvalid(p: RecordPatch) {
    p.effect.Some? && ParseEffect(p.effect.value).None?
  }

  /** The five conditional assignments of lines 386-390, through the schema's
      `trim` setters. None when the effect assigned is outside the enum: the
      document then holds a value its schema refuses. */
  function ApplyPatch(r: ConsultationRecord, p: RecordPatch): (r': Option<ConsultationRecord>)
    ensures r'.None? <==> PatchEffectInvalid(p)
    ensures r'.Some? ==>
      var d := r'.value;
      && d.content == (if p.content.Some? then Text.Trim(p.content.value) else r.content)
      && d.studentFeedback == (if p.studentFeedback.Some? then TrimOpt(p.studentFeedback) else r.studentFeedback)
      && d.counselorFeedback == (if p.counselorFeedback.Some? then TrimOpt(p.counselorFeedback) else r.counselorFeedback)
      && (p.effect.Some? ==> Some(d.effect) == ParseEffect(p.effect.value))
      && (p.effect.None? ==> d.effect == r.effect)
      && d.nextAppointmentTime == (if p.nextAppointmentTime.Some? then p.nextAppointmentTime else r.nextAppointmentTime)
      && d.(content := r.content, studentFeedback := r.studentFeedback, counselorFeedback := r.counselorFeedback,
            effect := r.effect, nextAppointmentTime := r.nextAppointmentTime) == r
  {
    if PatchEffectInvalid(p) then None
    else
      var r1 := if p.content.Some? then r.(content := Text.Trim(p.content.value)) else r;
      var r2 := if p.studentFeedback.Some? then r1.(studentFeedback := TrimOpt(p.studentFeedback)) else r1;
      var r3 := if p.counselorFeedback.Some? then r2.(counselorFeedback := TrimOpt(p.counselorFeedback)) else r2;
      var r4 := if p.effect.Some? then r3.(effect := ParseEffect(p.effect.value).value) else r3;
      Some(if p.nextAppointmentTime.Some? then r4.(nextAppointmentTime := p.nextAppointmentTime) else r4)
  }

  /** `consultationRecord.save()` after the patch: the enum validator, then the
      `required` check and the pre-save hook. */
  function SavePatched(r: ConsultationRecord, p: RecordPatch): (s: Option<ConsultationRecord>)
    ensures s.None? <==> PatchEffectInvalid(p) || ApplyPatch(r, p).value.content == ""
    ensures s.Some? ==> s.value == PreSave(ApplyPatch(r, p).value)
  {
    match ApplyPatch(r, p)
    case None => None
    case Some(d) => Save(d)
  }

  /** An empty patch changes nothing, and a patch applied twice is applied once. */
  lemma ApplyPatchEmptyAndTwice(r: ConsultationRecord, p: RecordPatch)
    ensures ApplyPatch(r, RecordPatch(None, None, None, None, None)) == Some(r)
    ensures ApplyPatch(r, p).Some? ==> ApplyPatch(ApplyPatch(r, p).value, p) == ApplyPatch(r, p)
  {
    if p.content.Some? {
      Text.TrimIdempotent(p.content.value);
    }
    if p.studentFeedback.Some? {
      Text.TrimIdempotent(p.studentFeedback.value);
    }
    if p.counselorFeedback.Some? {
      Text.TrimIdempotent(p.counselorFeedback.value);
    }
  }

  /** An effect outside the enum makes every update fail, whatever else it
      changes, and a valid one is stored as the enum member it names. */
  lemma InvalidEffectFailsUpdate(r: ConsultationRecord, p: RecordPatch)
    ensures PatchEffectInvalid(p) ==> SavePatched(r, p).None?
    ensures p.effect.Some? && SavePatched(r, p).Some? ==> Some(SavePatched(r, p).value.effect) == ParseEffect(p.effect.value)
  {
  }

  function OwnRecord(id: Id, counselorId: Id): ConsultationRecord -> bool {
    (r: ConsultationRecord) => r.id == id && r.counselorId == counselorId
  }

  /** updateConsultationRecord: `findOne({ _id: id, counselorId })` with the
      requester as counsellor (404 when absent), the patch, then the save, whose
      `required` check refuses a content that is blank once trimmed (500). */
  method UpdateConsultationRecord(db: Db, counselorId: Id, id: Id, patch: RecordPatch) returns (response: RecordResponse)
    requires db.Valid()
    modifies db
    ensures db.Valid()
    ensures db.users == old(db.users) && db.emotionRecords == old(db.emotionRecords) && db.alerts == old(db.alerts)
    ensures db.appointments == old(db.appointments) && db.nextId == old(db.nextId)
    ensures var found := old(FirstIndex(db.consultations, OwnRecord(id, counselorId)));
      && (found.None? ==> response == RecordRefused(RecordNotFound) && unchanged(db))
      && (found.Some? ==>
            var saved := SavePatched(old(db.consultations)[found.value], patch);
            && (saved.None? ==> response == RecordRefused(SaveRejected) && unchanged(db))
            && (saved.Some? ==>
                  response == RecordOk(saved.value)
                  && db.consultations == old(db.consultations)[found.value := saved.value]))
  {
    var found := FirstIndex(db.consultations, OwnRecord(id, counselorId));
    if found.None? {
      return RecordRefused(RecordNotFound);
    }
    var saved := SavePatched(db.consultations[found.value], patch);
    if saved.None? {
      return RecordRefused(SaveRejected);
    }
    db.ReplaceConsultation(found.value, saved.value);
    response := RecordOk(saved.value);
  }

  /** An update keeps who the record is between, its appointment and its times;
      the saved duration follows the times it already had. */
  lemma UpdateKeepsParties(r: ConsultationRecord, p: RecordPatch)
    requires SavePatched(r, p).Some?
    ensures var s := SavePatched(r, p).value;
      && s.id == r.id && s.studentId == r.studentId && s.counselorId == r.counselorId
      && s.appointmentId == r.appointmentId && s.startTime == r.startTime && s.endTime == r.endTime
      && s.createdAt == r.createdAt
      && (r.endTime.Some? ==> s.duration == Some(RoundMinutes(r.endTime.value - r.startTime)))
      && (r.endTime.None? ==> s.duration == r.duration)
  {
    var a := ApplyPatch(r, p).value;
    assert a.(content := r.content, studentFeedback := r.studentFeedback, counselorFeedback := r.counselorFeedback,
              effect := r.effect, nextAppointmentTime := r.nextAppointmentTime) == r;
  }
}
