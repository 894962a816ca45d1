/** The MongoDB collections the controllers and services work on, held as
    sequences in insertion order, and the documents they hold: EmotionRecord
    (backend/src/models/EmotionRecord.ts), Alert (backend/src/models/Alert.ts),
    ConsultationAppointment (backend/src/models/ConsultationAppointment.ts),
    ConsultationRecord and the role of each User. */
module Store {
  import opened Wrappers
  import opened Types
  import opened ConsultationRecordModel
  import Text

  /** The schema bounds of an emotion score: `min: 0, max: 100`. */
  type Score = x: int | 0 <= x <= 100

  datatype EmotionRecord = EmotionRecord(
    id: Id,
    userId: Id,
    kind: RecognitionType,
    content: Option<string>,
    fileUrl: Option<string>,
    emotion: EmotionType,
    score: Score,
    additionalEmotions: map<EmotionType, int>,
    createdAt: int)

  datatype Alert = Alert(
    id: Id,
    studentId: Id,
    level: AlertLevel,
    reason: string,
    description: Option<string>,
    isHandled: bool,
    handledBy: Option<Id>,
    handledAt: Option<int>,
    handledNote: Option<string>,
    createdAt: int)

  datatype Appointment = Appointment(
    id: Id,
    studentId: Id,
    counselorId: Id,
    appointmentTime: int,
    status: AppointmentStatus,
    notes: Option<string>,
    createdAt: int)

  /** A User document as the controllers look it up: its id and its role. */
  datatype Account = Account(id: Id, role: UserRole)

  /** Sort keys for `.sort({ createdAt: -1 })`. */
  function RecordTime(r: EmotionRecord): int { r.createdAt }
  function AlertTime(a: Alert): int { a.createdAt }
  function ConsultationTime(c: ConsultationRecord): int { c.createdAt }

  /** `new Alert({...})`: reason and description trimmed, `isHandled` false by default,
      nothing handled yet, `createdAt` set by the timestamps option. */
  function NewAlert(id: Id, studentId: Id, level: AlertLevel, reason: string,
                    description: Option<string>, now: int): (a: Alert)
    ensures a.id == id && a.studentId == studentId && a.level == level && a.createdAt == now
    ensures a.reason == Text.Trim(reason) && a.description == TrimOpt(description)
    ensures !a.isHandled && a.handledBy.None? && a.handledAt.None? && a.handledNote.None?
  {
    Alert(id, studentId, level, Text.Trim(reason), TrimOpt(description), false, None, None, None, now)
  }

  /** `new ConsultationAppointment({...})`: status `pending` by default, notes trimmed. */
  function NewAppointment(id: Id, studentId: Id, counselorId: Id, time: int,
                          notes: Option<string>, now: int): (a: Appointment)
    ensures a.id == id && a.studentId == studentId && a.counselorId == counselorId
    ensures a.appointmentTime == time && a.status == Pending && a.createdAt == now
    ensures a.notes == TrimOpt(notes)
  {
    Appointment(id, studentId, counselorId, time, Pending, TrimOpt(notes), now)
  }

  /** The database: one sequence per collection, and the next fresh ObjectId. */
  class Db {
    var users: seq<Account>
    var emotionRecords: seq<EmotionRecord>
    var alerts: seq<Alert>
    var appointments: seq<Appointment>
    var consultations: seq<ConsultationRecord>
    var nextId: Id

    /** Every stored document has an id handed out before, so a fresh id is unused. */
    ghost predicate Valid()
      reads this
    {
      (forall i | 0 <= i < |emotionRecords| :: emotionRecords[i].id < nextId)
      && (forall i | 0 <= i < |alerts| :: alerts[i].id < nextId)
      && (forall i | 0 <= i < |appointments| :: appointments[i].id < nextId)
      && (forall i | 0 <= i < |consultations| :: consultations[i].id < nextId)
    }

    constructor (users: seq<Account>, firstId: Id)
      ensures Valid()
      ensures this.users == users && nextId == firstId
      ensures emotionRecords == [] && alerts == [] && appointments == [] && consultations == []
    {
      this.users := users;
      emotionRecords := [];
      alerts := [];
      appointments := [];
      consultations := [];
      nextId := firstId;
    }

    /** `document.save()` of a new alert: appended, under the next fresh id. */
    method InsertAlert(a: Alert)
      requires Valid() && a.id == nextId
      modifies this
      ensures Valid()
      ensures alerts == old(alerts) + [a] && nextId == old(nextId) + 1
      ensures users == old(users) && emotionRecords == old(emotionRecords)
      ensures appointments == old(appointments) && consultations == old(consultations)
    {
      alerts := alerts + [a];
      nextId := nextId + 1;
    }

    /** A stored alert updated in place; its id is kept. */
    method ReplaceAlert(i: nat, a: Alert)
      requires Valid() && i < |alerts| && a.id == alerts[i].id
      modifies this
      ensures Valid()
      ensures alerts == old(alerts)[i := a] && nextId == old(nextId)
      ensures users == old(users) && emotionRecords == old(emotionRecords)
      ensures appointments == old(appointments) && consultations == old(consultations)
    {
      alerts := alerts[i := a];
    }

    method InsertEmotionRecord(r: EmotionRecord)
      requires Valid() && r.id == nextId
      modifies this
      ensures Valid()
      ensures emotionRecords == old(emotionRecords) + [r] && nextId == old(nextId) + 1
      ensures users == old(users) && alerts == old(alerts)
      ensures appointments == old(appointments) && consultations == old(consultations)
    {
      emotionRecords := emotionRecords + [r];
      nextId := nextId + 1;
    }

    /** `findOneAndDelete`: the record at index i removed, the rest kept in order. */
    method RemoveEmotionRecord(i: nat)
      requires Valid() && i < |emotionRecords|
      modifies this
      ensures Valid()
      ensures emotionRecords == old(emotionRecords)[..i] + old(emotionRecords)[i + 1..] && nextId == old(nextId)
      ensures users == old(users) && alerts == old(alerts)
      ensures appointments == old(appointments) && consultations == old(consultations)
    {
      emotionRecords := emotionRecords[..i] + emotionRecords[i + 1..];
    }

    method InsertAppointment(a: Appointment)
      requires Valid() && a.id == nextId
      modifies this
      ensures Valid()
      ensures appointments == old(appointments) + [a] && nextId == old(nextId) + 1
      ensures users == old(users) && emotionRecords == old(emotionRecords)
      ensures alerts == old(alerts) && consultations == old(consultations)
    {
      appointments := appointments + [a];
      nextId := nextId + 1;
    }

    method ReplaceAppointment(i: nat, a: Appointment)
      requires Valid() && i < |appointments| && a.id == appointments[i].id
      modifies this
      ensures Valid()
      ensures appointments == old(appointments)[i := a] && nextId == old(nextId)
      ensures users == old(users) && emotionRecords == old(emotionRecords)
      ensures alerts == old(alerts) && consultations == old(consultations)
    {
      appointments := appointments[i := a];
    }

    method InsertConsultation(c: ConsultationRecord)
      requires Valid() && c.id == nextId
      modifies this
      ensures Valid()
      ensures consultations == old(consultations) + [c] && nextId == old(nextId) + 1
      ensures users == old(users) && emotionRecords == old(emotionRecords)
      ensures alerts == old(alerts) && appointments == old(appointments)
    {
      consultations := consultations + [c];
      nextId := nextId + 1;
    }

    method ReplaceConsultation(i: nat, c: ConsultationRecord)
      requires Valid() && i < |consultations| && c.id == consultations[i].id
      modifies this
      ensures Valid()
      ensures consultations == old(consultations)[i := c] && nextId == old(nextId)
      ensures users == old(users) && emotionRecords == old(emotionRecords)
      ensures alerts == old(alerts) && appointments == old(appointments)
    {
      consultations := consultations[i := c];
    }

    /** `User.findById(id)` followed by a check of its role. */
    predicate HasRole(id: Id, role: UserRole)
      reads this
    {
      exists i | 0 <= i < |users| :: users[i].id == id && users[i].role == role
    }
  }
}
