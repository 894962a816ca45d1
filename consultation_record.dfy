/** The ConsultationRecord document of backend/src/models/ConsultationRecord.ts:
    its fields, the `trim` setters and defaults of its schema, the `required`
    check Mongoose runs on save, and the pre-save hook that derives `duration`. */
module ConsultationRecordModel {
  import opened Wrappers
  import opened Types
  import Text

  const MsPerMinute: int := 60000

  datatype ConsultationRecord = ConsultationRecord(
    id: Id,
    studentId: Id,
    counselorId: Id,
    appointmentId: Option<Id>,
    startTime: int,
    endTime: Option<int>,
    duration: Option<int>,
    content: string,
    studentFeedback: Option<string>,
    counselorFeedback: Option<string>,
    effect: ConsultationEffect,
    nextAppointmentTime: Option<int>,
    createdAt: int)

  /** The `trim: true` setter on an optional string field. */
  function TrimOpt(s: Option<string>): (r: Option<string>)
    ensures r.Some? <==> s.Some?
    ensures r.Some? ==> r.value == Text.Trim(s.value)
  {
    if s.Some? then Some(Text.Trim(s.value)) else None
  }

  /** Math.round(ms / 60000): floor(ms / 60000 + 1/2) written over the integers. */
  function RoundMinutes(ms: int): (m: int)
    ensures MsPerMinute * m - MsPerMinute / 2 <= ms < MsPerMinute * m + MsPerMinute / 2
  {
    var q := (2 * ms + 60000) / 120000;
    assert 2 * ms + 60000 == 120000 * q + (2 * ms + 60000) % 120000;
    q
  }

  /** The nearest whole minute, a half minute rounding up, is the only value in range. */
  lemma RoundMinutesIsNearest(ms: int, m: int)
    requires MsPerMinute * m - MsPerMinute / 2 <= ms < MsPerMinute * m + MsPerMinute / 2
    ensures RoundMinutes(ms) == m
  {
    var k := RoundMinutes(ms);
    assert 60000 * k - 30000 <= ms < 60000 * k + 30000;
    assert 60000 * m - 30000 <= ms < 60000 * m + 30000;
  }

  /** A consultation of 29 999 ms rounds down, one of 30 000 ms (half a minute) rounds up. */
  lemma RoundMinutesHalfUp()
    ensures RoundMinutes(29999) == 0 && RoundMinutes(30000) == 1 && RoundMinutes(-30000) == 0
  {
    RoundMinutesIsNearest(29999, 0);
    RoundMinutesIsNearest(30000, 1);
    RoundMinutesIsNearest(-30000, 0);
  }

  /** A new document: the schema's `trim` setters applied to its string fields
      and `effect` given by the caller (the controller substitutes `fair`). */
  function NewRecord(id: Id, studentId: Id, counselorId: Id, appointmentId: Option<Id>,
                     startTime: int, endTime: Option<int>, content: string,
                     studentFeedback: Option<string>, counselorFeedback: Option<string>,
                     effect: ConsultationEffect, nextAppointmentTime: Option<int>, now: int): (r: ConsultationRecord)
    ensures r.id == id && r.studentId == studentId && r.counselorId == counselorId
    ensures r.appointmentId == appointmentId && r.startTime == startTime && r.endTime == endTime
    ensures r.duration.None? && r.effect == effect && r.nextAppointmentTime == nextAppointmentTime
    ensures r.content == Text.Trim(content) && r.createdAt == now
    ensures r.studentFeedback == TrimOpt(studentFeedback) && r.counselorFeedback == TrimOpt(counselorFeedback)
  {
    ConsultationRecord(id, studentId, counselorId, appointmentId, startTime, endTime, None,
      Text.Trim(content), TrimOpt(studentFeedback), TrimOpt(counselorFeedback), effect,
      nextAppointmentTime, now)
  }

  /** `effect: effect || ConsultationEffect.FAIR`. */
  function EffectOrFair(e: Option<ConsultationEffect>): (r: ConsultationEffect)
    ensures e.Some? ==> r == e.value
    ensures e.None? ==> r == Fair
  {
    e.GetOr(Fair)
  }

  /** The pre-save hook: with both times known, duration becomes the length in
      whole minutes; otherwise the document is saved as it is. */
  function PreSave(rec: ConsultationRecord): (r: ConsultationRecord)
    ensures rec.endTime.Some? ==> r.duration == Some(RoundMinutes(rec.endTime.value - rec.startTime))
    ensures rec.endTime.None? ==> r == rec
    ensures r.(duration := rec.duration) == rec
  {
    if rec.endTime.Some? then rec.(duration := Some(RoundMinutes(rec.endTime.value - rec.startTime)))
    else rec
  }

  /** The hook is idempotent: saving an unchanged document again keeps its duration. */
  lemma PreSaveIdempotent(rec: ConsultationRecord)
    ensures PreSave(PreSave(rec)) == PreSave(rec)
  {
  }

  /** The duration the hook stores is the nearest whole minute of the consultation. */
  lemma PreSaveDurationIsNearestMinute(rec: ConsultationRecord, m: int)
    requires rec.endTime.Some?
    requires MsPerMinute * m - MsPerMinute / 2 <= rec.endTime.value - rec.startTime < MsPerMinute * m + MsPerMinute / 2
    ensures PreSave(rec).duration == Some(m)
  {
    RoundMinutesIsNearest(rec.endTime.value - rec.startTime, m);
  }

  /** document.save(): the `required` validator (content must not be empty once
      trimmed) runs first and refuses the save; then the pre-save hook. */
  function Save(rec: ConsultationRecord): (r: Option<ConsultationRecord>)
    ensures r.None? <==> rec.content == ""
    ensures r.Some? ==> r.value == PreSave(rec)
  {
    if rec.content == "" then None else Some(PreSave(rec))
  }
}
