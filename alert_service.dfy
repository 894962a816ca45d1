/** The automatic early-warning engine of backend/src/services/alertService.ts:
    the alert rules, checkAlert (one pass over the student's last seven days of
    emotion records), generateAlert and handleAlert. */
module AlertService {
  import opened Wrappers
  import opened Types
  import opened Store
  import opened Collections
  import Text

  const DayMs: int := 86400000
  /** `sevenDaysAgo.setDate(getDate() - 7)`, taken as seven days of 24 hours. */
  const WindowMs: int := 7 * DayMs

  /** ALERT_RULES.CONSECUTIVE_NEGATIVE_DAYS */
  const MildDays: nat := 3
  const ModerateDays: nat := 5
  const SevereDays: nat := 7

  /** ALERT_RULES.SINGLE_NEGATIVE_SCORE */
  const MildScore: int := 70
  const ModerateScore: int := 80
  const SevereScore: int := 90

  /** ALERT_RULES.NEGATIVE_EMOTIONS */
  const NegativeEmotions: seq<EmotionType> := [Sad, Angry, Anxious, Fearful]

  predicate IsNegative(e: EmotionType) {
    e in NegativeEmotions
  }

  /** The calendar day of a timestamp: the date part of toISOString(), in UTC. */
  function Day(t: int): int {
    t / DayMs
  }

  /** The filter `{ userId, createdAt: { $gte: since } }`. */
  function InWindow(userId: Id, since: int): EmotionRecord -> bool {
    (r: EmotionRecord) => r.userId == userId && r.createdAt >= since
  }

  /** The records checkAlert reads: `find({ userId, createdAt: { $gte: now - 7 days } })`
      sorted with `.sort({ createdAt: -1 })`. */
  function RecentEmotions(records: seq<EmotionRecord>, userId: Id, now: int): seq<EmotionRecord> {
    SortNewestFirst(Filter(records, InWindow(userId, now - WindowMs)), RecordTime)
  }

  /** The window as the query that defines it, for proofs that reason about the
      filter and the sort separately. */
  lemma RecentEmotionsQuery(records: seq<EmotionRecord>, userId: Id, now: int)
    ensures RecentEmotions(records, userId, now)
      == SortNewestFirst(Filter(records, InWindow(userId, now - WindowMs)), RecordTime)
  {
  }

  /** The window holds exactly the student's records of the last seven days, newest first. */
  lemma RecentEmotionsAreTheWindow(records: seq<EmotionRecord>, userId: Id, now: int)
    ensures var w := RecentEmotions(records, userId, now);
      NewestFirst(w, RecordTime)
      && (forall i | 0 <= i < |w| :: w[i] in records && w[i].userId == userId && w[i].createdAt >= now - WindowMs)
      && (forall r | r in records && r.userId == userId && r.createdAt >= now - WindowMs :: r in w)
  {
    var f := Filter(records, InWindow(userId, now - WindowMs));
    var w := SortNewestFirst(f, RecordTime);
    forall i | 0 <= i < |w| ensures w[i] in f {
      SortKeepsMembers(f, RecordTime, w[i]);
    }
    forall r | r in records && r.userId == userId && r.createdAt >= now - WindowMs ensures r in w {
      var k :| 0 <= k < |records| && records[k] == r;
      assert InWindow(userId, now - WindowMs)(records[k]);
      SortKeepsMembers(f, RecordTime, r);
    }
  }

  /** An alert the rules ask for: its level and its reason text. */
  datatype Candidate = Candidate(level: AlertLevel, reason: string)

  /** The lowest score of the rule for a level: 70, 80, 90 for mild, moderate, severe. */
  function ScoreThreshold(l: AlertLevel): int {
    match l
    case Normal => 0
    case Mild => MildScore
    case Moderate => ModerateScore
    case Severe => SevereScore
  }

  /** The fewest negative days of the rule for a level: 3, 5, 7 for mild, moderate, severe. */
  function DayThreshold(l: AlertLevel): nat {
    match l
    case Normal => 0
    case Mild => MildDays
    case Moderate => ModerateDays
    case Severe => SevereDays
  }

  /** `单次${emotion}情绪得分<tier>（${score}）` */
  function ScoreReason(latest: EmotionRecord, tier: string): string {
    "单次" + EmotionName(latest.emotion) + "情绪得分" + tier + "（" + Text.NatToString(latest.score) + "）"
  }

  /** `连续${n}天出现负面情绪` */
  function StreakReason(days: nat): string {
    "连续" + Text.NatToString(days) + "天出现负面情绪"
  }

  /** Rule 1: the newest record alone, when its emotion is negative and its score high. */
  function ScoreRule(latest: EmotionRecord): Option<Candidate> {
    if !IsNegative(latest.emotion) then None
    else if latest.score >= SevereScore then Some(Candidate(Severe, ScoreReason(latest, "过高")))
    else if latest.score >= ModerateScore then Some(Candidate(Moderate, ScoreReason(latest, "较高")))
    else if latest.score >= MildScore then Some(Candidate(Mild, ScoreReason(latest, "略高")))
    else None
  }

  /** Rule 2 as the loop computes it: walking newest first, a record on a day
      already seen is skipped; the first record of a new day adds one when its
      emotion is negative and ends the count otherwise. */
  function StreakFrom(w: seq<EmotionRecord>, seen: set<int>): nat {
    if w == [] then 0
    else if Day(w[0].createdAt) in seen then StreakFrom(w[1..], seen)
    else if IsNegative(w[0].emotion) then 1 + StreakFrom(w[1..], seen + {Day(w[0].createdAt)})
    else 0
  }

  function Streak(w: seq<EmotionRecord>): nat {
    StreakFrom(w, {})
  }

  function StreakRule(days: nat): Option<Candidate> {
    if days >= SevereDays then Some(Candidate(Severe, StreakReason(days)))
    else if days >= ModerateDays then Some(Candidate(Moderate, StreakReason(days)))
    else if days >= MildDays then Some(Candidate(Mild, StreakReason(days)))
    else None
  }

  /** The alert the rules ask for on a window: nothing on an empty window, else
      rule 1 on the newest record, and rule 2 only when rule 1 asks for nothing. */
  function CandidateAlert(w: seq<EmotionRecord>): (c: Option<Candidate>)
    ensures c.Some? ==> w != [] && c.value.level != Normal
  {
    if w == [] then None
    else match ScoreRule(w[0])
      case Some(c) => Some(c)
      case None => StreakRule(Streak(w))
  }

  /** An unhandled alert of this student of the same level or higher,
      "higher" meaning more severe. */
  predicate Blocks(a: Alert, userId: Id, level: AlertLevel) {
    a.studentId == userId && !a.isHandled && LevelGe(a.level, level)
  }

  predicate HasBlockingAlert(alerts: seq<Alert>, userId: Id, level: AlertLevel) {
    exists i | 0 <= i < |alerts| :: Blocks(alerts[i], userId, level)
  }

  /** The duplicate check `{ studentId, isHandled: false, level: { $gte: level } }`
      as written: `$gte` on the stored level string. */
  predicate BlocksAsWritten(a: Alert, userId: Id, level: AlertLevel) {
    a.studentId == userId && !a.isHandled && MongoLevelGe(a.level, level)
  }

  predicate HasBlockingAlertAsWritten(alerts: seq<Alert>, userId: Id, level: AlertLevel) {
    exists i | 0 <= i < |alerts| :: BlocksAsWritten(alerts[i], userId, level)
  }

  /** `学生最近情绪状态异常，建议关注。最近一次情绪：${emotion}（得分：${score}）` */
  function Description(latest: EmotionRecord): string {
    "学生最近情绪状态异常，建议关注。最近一次情绪：" + EmotionName(latest.emotion)
    + "（得分：" + Text.NatToString(latest.score) + "）"
  }

  /** What checkAlert inserts: the rules' candidate, unless the student already
      has an unhandled alert of that level or a more severe one. */
  function AutomaticAlert(w: seq<EmotionRecord>, alerts: seq<Alert>, userId: Id): (r: Option<Candidate>)
    ensures r.Some? <==> CandidateAlert(w).Some? && !HasBlockingAlert(alerts, userId, CandidateAlert(w).value.level)
    ensures r.Some? ==> r == CandidateAlert(w) && w != []
  {
    match CandidateAlert(w)
    case None => None
    case Some(c) => if HasBlockingAlert(alerts, userId, c.level) then None else Some(c)
  }

  /** The counting loop of rule 2, with its set of processed dates. */
  method CountNegativeDays(w: seq<EmotionRecord>) returns (days: nat)
    ensures days == Streak(w)
  {
    days := 0;
    var processed: set<int> := {};
    var i := 0;
    while i < |w|
      invariant 0 <= i <= |w|
      invariant days + StreakFrom(w[i..], processed) == Streak(w)
    {
      assert w[i..][1..] == w[i + 1..];
      var d := Day(w[i].createdAt);
      if d in processed {
        i := i + 1;
        continue;
      }
      processed := processed + {d};
      if IsNegative(w[i].emotion) {
        days := days + 1;
      } else {
        break;
      }
      i := i + 1;
    }
  }

  /** The two rules as checkAlert applies them to a non-empty window. */
  method ApplyRules(recent: seq<EmotionRecord>) returns (candidate: Option<Candidate>)
    requires recent != []
    ensures candidate == CandidateAlert(recent)
  {
    var latest := recent[0];
    var level: Option<AlertLevel> := None;
    var reason := "";
    if IsNegative(latest.emotion) {
      if latest.score >= SevereScore {
        level, reason := Some(Severe), ScoreReason(latest, "过高");
      } else if latest.score >= ModerateScore {
        level, reason := Some(Moderate), ScoreReason(latest, "较高");
      } else if latest.score >= MildScore {
        level, reason := Some(Mild), ScoreReason(latest, "略高");
      }
    }
    if level.None? {
      var days := CountNegativeDays(recent);
      if days >= SevereDays {
        level, reason := Some(Severe), StreakReason(days);
      } else if days >= ModerateDays {
        level, reason := Some(Moderate), StreakReason(days);
      } else if days >= MildDays {
        level, reason := Some(Mild), StreakReason(days);
      }
    }
    candidate := if level.Some? then Some(Candidate(level.value, reason)) else None;
  }

  /** The alert collection once checkAlert has run: one alert more exactly when
      the rules ask for one and nothing blocks it. */
  function AlertsAfterCheck(records: seq<EmotionRecord>, alerts: seq<Alert>, userId: Id,
                            nextId: Id, now: int): seq<Alert> {
    var w := RecentEmotions(records, userId, now);
    match AutomaticAlert(w, alerts, userId)
    case None => alerts
    case Some(c) => alerts + [NewAlert(nextId, userId, c.level, c.reason, Some(Description(w[0])), now)]
  }

  /** checkAlert(userId) at time `now`. It reads the window, applies the rules,
      skips the insert when a blocking alert exists, and otherwise stores and
      returns the new alert. */
  method CheckAlert(db: Db, userId: Id, now: int) returns (alert: Option<Alert>)
    requires db.Valid()
    modifies db
    ensures db.Valid()
    ensures db.users == old(db.users) && db.emotionRecords == old(db.emotionRecords)
    ensures db.appointments == old(db.appointments) && db.consultations == old(db.consultations)
    ensures db.alerts == AlertsAfterCheck(old(db.emotionRecords), old(db.alerts), userId, old(db.nextId), now)
    ensures var w := RecentEmotions(old(db.emotionRecords), userId, now);
      match AutomaticAlert(w, old(db.alerts), userId)
      case None => alert.None? && db.nextId == old(db.nextId)
      case Some(c) =>
        alert == Some(NewAlert(old(db.nextId), userId, c.level, c.reason, Some(Description(w[0])), now))
        && db.nextId == old(db.nextId) + 1
  {
    var recent := RecentEmotions(db.emotionRecords, userId, now);
    var candidate: Option<Candidate> := None;
    if |recent| > 0 {
      candidate := ApplyRules(recent);
    }
    assert candidate == CandidateAlert(recent);
    alert := None;
    if candidate.Some? && !HasBlockingAlert(db.alerts, userId, candidate.value.level) {
      var c := candidate.value;
      var a := NewAlert(db.nextId, userId, c.level, c.reason, Some(Description(recent[0])), now);
      db.InsertAlert(a);
      alert := Some(a);
    }
  }

  /** generateAlert: a manual alert of any level. The save fails (and the error
      is rethrown) when the reason is empty once trimmed. */
  method GenerateAlert(db: Db, userId: Id, level: AlertLevel, reason: string,
                       description: Option<string>, now: int) returns (alert: Option<Alert>)
    requires db.Valid()
    modifies db
    ensures db.Valid()
    ensures db.users == old(db.users) && db.emotionRecords == old(db.emotionRecords)
    ensures db.appointments == old(db.appointments) && db.consultations == old(db.consultations)
    ensures alert.None? <==> Text.Trim(reason) == ""
    ensures alert.None? ==> db.alerts == old(db.alerts) && db.nextId == old(db.nextId)
    ensures alert.Some? ==>
      alert.value == NewAlert(old(db.nextId), userId, level, reason, description, now)
      && db.alerts == old(db.alerts) + [alert.value] && db.nextId == old(db.nextId) + 1
  {
    var a := NewAlert(db.nextId, userId, level, reason, description, now);
    if a.reason == "" {
      return None;
    }
    db.InsertAlert(a);
    alert := Some(a);
  }

  function HasId(id: Id): Alert -> bool {
    (a: Alert) => a.id == id
  }

  /** findByIdAndUpdate's effect on one alert: handled, by whom, when, and the
      note (trimmed) when one is given; every other field unchanged. Whether it
      was handled already is not looked at. */
  function MarkHandled(a: Alert, handler: Id, note: Option<string>, now: int): (h: Alert)
    ensures h.isHandled && h.handledBy == Some(handler) && h.handledAt == Some(now)
    ensures note.Some? ==> h.handledNote == Some(Text.Trim(note.value))
    ensures note.None? ==> h.handledNote == a.handledNote
    ensures h.(isHandled := a.isHandled, handledBy := a.handledBy, handledAt := a.handledAt,
               handledNote := a.handledNote) == a
  {
    a.(isHandled := true, handledBy := Some(handler), handledAt := Some(now),
       handledNote := if note.Some? then Some(Text.Trim(note.value)) else a.handledNote)
  }

  /** handleAlert: marks the alert with this id handled; an unknown id is an error. */
  method HandleAlert(db: Db, alertId: Id, handler: Id, note: Option<string>, now: int) returns (alert: Option<Alert>)
    requires db.Valid()
    modifies db
    ensures db.Valid()
    ensures db.users == old(db.users) && db.emotionRecords == old(db.emotionRecords) && db.nextId == old(db.nextId)
    ensures db.appointments == old(db.appointments) && db.consultations == old(db.consultations)
    ensures alert.None? <==> FirstIndex(old(db.alerts), HasId(alertId)).None?
    ensures alert.None? ==> db.alerts == old(db.alerts)
    ensures alert.Some? ==>
      var i := FirstIndex(old(db.alerts), HasId(alertId)).value;
      alert.value == MarkHandled(old(db.alerts)[i], handler, note, now) && db.alerts == old(db.alerts)[i := alert.value]
  {
    var found := FirstIndex(db.alerts, HasId(alertId));
    if found.None? {
      return None;
    }
    var i := found.value;
    var h := MarkHandled(db.alerts[i], handler, note, now);
    db.ReplaceAlert(i, h);
    alert := Some(h);
  }

  // ---- The rules ----

  /** Rule 1 picks the most severe level whose score threshold the newest
      record reaches, and fires only on a negative emotion scoring 70 or more. */
  lemma ScoreRulePicksHighestThreshold(latest: EmotionRecord)
    ensures ScoreRule(latest).Some? <==> IsNegative(latest.emotion) && latest.score >= ScoreThreshold(Mild)
    ensures ScoreRule(latest).Some? ==>
      var l := ScoreRule(latest).value.level;
      l != Normal && latest.score >= ScoreThreshold(l)
      && forall m: AlertLevel | Severity(m) > Severity(l) :: latest.score < ScoreThreshold(m)
  {
  }

  /** Rule 2 picks the most severe level whose day threshold the streak reaches. */
  lemma StreakRulePicksHighestThreshold(days: nat)
    ensures StreakRule(days).Some? <==> days >= DayThreshold(Mild)
    ensures StreakRule(days).Some? ==>
      var l := StreakRule(days).value.level;
      l != Normal && days >= DayThreshold(l) && StreakRule(days).value.reason == StreakReason(days)
      && forall m: AlertLevel | Severity(m) > Severity(l) :: days < DayThreshold(m)
  {
  }

  /** When the newest record is not negative, neither rule fires. */
  lemma NonNegativeNewestRaisesNothing(w: seq<EmotionRecord>)
    requires w != [] && !IsNegative(w[0].emotion)
    ensures CandidateAlert(w).None?
  {
    assert Streak(w) == 0;
  }

  // ---- The streak, defined a second way ----

  /** The first record of each calendar day, in window order. */
  function DayHeadsFrom(w: seq<EmotionRecord>, seen: set<int>): seq<EmotionRecord> {
    if w == [] then []
    else if Day(w[0].createdAt) in seen then DayHeadsFrom(w[1..], seen)
    else [w[0]] + DayHeadsFrom(w[1..], seen + {Day(w[0].createdAt)})
  }

  function DayHeads(w: seq<EmotionRecord>): seq<EmotionRecord> {
    DayHeadsFrom(w, {})
  }

  /** How many elements at the front of `s` have a negative emotion. */
  function NegativeRun(s: seq<EmotionRecord>): nat {
    if s == [] || !IsNegative(s[0].emotion) then 0 else 1 + NegativeRun(s[1..])
  }

  /** The calendar days a window covers. */
  function DaysOf(w: seq<EmotionRecord>): set<int> {
    set i | 0 <= i < |w| :: Day(w[i].createdAt)
  }

  /** The streak is the number of leading days, newest day first, whose first
      record is negative. */
  lemma {:induction false} StreakFromIsNegativeRun(w: seq<EmotionRecord>, seen: set<int>)
    ensures StreakFrom(w, seen) == NegativeRun(DayHeadsFrom(w, seen))
  {
    if w != [] {
      var d := Day(w[0].createdAt);
      if d in seen {
        StreakFromIsNegativeRun(w[1..], seen);
      } else {
        StreakFromIsNegativeRun(w[1..], seen + {d});
        var h := DayHeadsFrom(w, seen);
        assert h[0] == w[0] && h[1..] == DayHeadsFrom(w[1..], seen + {d});
      }
    }
  }

  lemma StreakIsNegativeRunOfDayHeads(w: seq<EmotionRecord>)
    ensures Streak(w) == NegativeRun(DayHeads(w))
  {
    StreakFromIsNegativeRun(w, {});
  }

  /** The day heads are records of the window, one per day not yet seen. */
  lemma {:induction false} DayHeadsFromFacts(w: seq<EmotionRecord>, seen: set<int>)
    ensures forall i | 0 <= i < |DayHeadsFrom(w, seen)| ::
      DayHeadsFrom(w, seen)[i] in w && Day(DayHeadsFrom(w, seen)[i].createdAt) !in seen
    ensures forall i, j | 0 <= i < j < |DayHeadsFrom(w, seen)| ::
      Day(DayHeadsFrom(w, seen)[i].createdAt) != Day(DayHeadsFrom(w, seen)[j].createdAt)
  {
    if w != [] {
      var d := Day(w[0].createdAt);
      var rest := w[1..];
      var seen' := if d in seen then seen else seen + {d};
      DayHeadsFromFacts(rest, seen');
      var t := DayHeadsFrom(rest, seen');
      var h := DayHeadsFrom(w, seen);
      assert h == if d in seen then t else [w[0]] + t;
      forall i | 0 <= i < |h|
        ensures h[i] in w && Day(h[i].createdAt) !in seen
      {
        if d in seen || i > 0 {
          var j := if d in seen then i else i - 1;
          assert h[i] == t[j];
          var k :| 0 <= k < |rest| && rest[k] == t[j];
          assert w[k + 1] == rest[k];
        }
      }
      forall i, j | 0 <= i < j < |h|
        ensures Day(h[i].createdAt) != Day(h[j].createdAt)
      {
        if d in seen {
          assert h[i] == t[i] && h[j] == t[j];
        } else {
          assert h[j] == t[j - 1];
          if i > 0 {
            assert h[i] == t[i - 1];
          }
        }
      }
    }
  }

  /** On a window sorted newest first, each day's head is the newest record of that day. */
  lemma {:induction false} DayHeadIsNewestOfItsDay(w: seq<EmotionRecord>, seen: set<int>)
    requires NewestFirst(w, RecordTime)
    ensures forall i, k | 0 <= i < |DayHeadsFrom(w, seen)| && 0 <= k < |w|
      && Day(w[k].createdAt) == Day(DayHeadsFrom(w, seen)[i].createdAt)
        :: w[k].createdAt <= DayHeadsFrom(w, seen)[i].createdAt
  {
    if w != [] {
      var d := Day(w[0].createdAt);
      var rest := w[1..];
      assert NewestFirst(rest, RecordTime) by {
        forall i, j | 0 <= i < j < |rest| ensures RecordTime(rest[i]) >= RecordTime(rest[j]) {
          assert rest[i] == w[i + 1] && rest[j] == w[j + 1];
        }
      }
      var seen' := if d in seen then seen else seen + {d};
      DayHeadIsNewestOfItsDay(rest, seen');
      DayHeadsFromFacts(rest, seen');
      var t := DayHeadsFrom(rest, seen');
      var h := DayHeadsFrom(w, seen);
      forall i, k | 0 <= i < |h| && 0 <= k < |w| && Day(w[k].createdAt) == Day(h[i].createdAt)
        ensures w[k].createdAt <= h[i].createdAt
      {
        if d !in seen && i == 0 {
          assert h[0] == w[0];
          if k > 0 {
            assert RecordTime(w[0]) >= RecordTime(w[k]);
          }
        } else {
          var j := if d in seen then i else i - 1;
          assert h[i] == t[j];
          assert Day(t[j].createdAt) !in seen';
          assert k > 0;
          assert w[k] == rest[k - 1];
          assert rest[k - 1].createdAt <= t[j].createdAt;
        }
      }
    }
  }

  lemma DaysOfCons(w: seq<EmotionRecord>)
    requires w != []
    ensures DaysOf(w) == {Day(w[0].createdAt)} + DaysOf(w[1..])
  {
    var rest := w[1..];
    forall x | x in DaysOf(w) ensures x in {Day(w[0].createdAt)} + DaysOf(rest) {
      var i :| 0 <= i < |w| && x == Day(w[i].createdAt);
      if i > 0 {
        assert w[i] == rest[i - 1];
      }
    }
    forall x | x in DaysOf(rest) ensures x in DaysOf(w) {
      var i :| 0 <= i < |rest| && x == Day(rest[i].createdAt);
      assert w[i + 1] == rest[i];
    }
  }

  lemma SubsetCard<T>(a: set<T>, b: set<T>)
    requires a <= b
    ensures |a| <= |b|
  {
    assert b == a + (b - a);
  }

  lemma {:induction false} StreakFromBound(w: seq<EmotionRecord>, seen: set<int>)
    ensures StreakFrom(w, seen) <= |DaysOf(w) - seen|
  {
    if w != [] {
      var d := Day(w[0].createdAt);
      var rest := w[1..];
      DaysOfCons(w);
      if d in seen {
        StreakFromBound(rest, seen);
        SubsetCard(DaysOf(rest) - seen, DaysOf(w) - seen);
      } else if IsNegative(w[0].emotion) {
        StreakFromBound(rest, seen + {d});
        var a := DaysOf(rest) - (seen + {d});
        assert |a + {d}| == |a| + 1;
        SubsetCard(a + {d}, DaysOf(w) - seen);
      }
    }
  }

  /** The streak never exceeds the number of distinct days in the window. */
  lemma StreakAtMostDistinctDays(w: seq<EmotionRecord>)
    ensures Streak(w) <= |DaysOf(w)|
  {
    StreakFromBound(w, {});
    assert DaysOf(w) - {} == DaysOf(w);
  }

  /** Days need not be adjacent: negative records on two different days count
      two however many days lie between them. */
  lemma StreakCountsDaysAcrossGaps(a: EmotionRecord, b: EmotionRecord)
    requires IsNegative(a.emotion) && IsNegative(b.emotion)
    requires Day(a.createdAt) != Day(b.createdAt)
    ensures Streak([a, b]) == 2
  {
    assert [a, b][1..] == [b];
    assert {} + {Day(a.createdAt)} == {Day(a.createdAt)};
    assert StreakFrom([b], {Day(a.createdAt)}) == 1 by {
      assert [b][1..] == [];
    }
  }

  // ---- Duplicate suppression ----

  /** Once checkAlert has stored its alert, checking the same window again stores nothing. */
  lemma StoredAlertSuppressesRepeat(w: seq<EmotionRecord>, alerts: seq<Alert>, userId: Id,
                                    id: Id, description: Option<string>, now: int)
    requires AutomaticAlert(w, alerts, userId).Some?
    ensures var c := AutomaticAlert(w, alerts, userId).value;
      AutomaticAlert(w, alerts + [NewAlert(id, userId, c.level, c.reason, description, now)], userId).None?
  {
    var c := AutomaticAlert(w, alerts, userId).value;
    var more := alerts + [NewAlert(id, userId, c.level, c.reason, description, now)];
    assert Blocks(more[|alerts|], userId, c.level);
  }

  /** One unhandled `normal` alert, which only a manual alert can have, stops every
      mild and moderate automatic alert under the check as written, though it is
      less severe than either. */
  lemma NormalAlertBlocksAsWritten(a: Alert, level: AlertLevel)
    requires a.level == Normal && !a.isHandled
    requires level == Mild || level == Moderate
    ensures HasBlockingAlertAsWritten([a], a.studentId, level)
    ensures !HasBlockingAlert([a], a.studentId, level)
  {
    LevelOrdersDisagreeOnNormal();
    assert BlocksAsWritten([a][0], a.studentId, level);
  }

  /** With the severity order, storing an alert less severe than the candidate,
      `normal` ones included, never changes whether the candidate is blocked. */
  lemma LessSevereAlertNeverBlocks(alerts: seq<Alert>, a: Alert, userId: Id, level: AlertLevel)
    requires Severity(a.level) < Severity(level)
    ensures HasBlockingAlert(alerts + [a], userId, level) == HasBlockingAlert(alerts, userId, level)
  {
    var more := alerts + [a];
    if HasBlockingAlert(more, userId, level) {
      var i :| 0 <= i < |more| && Blocks(more[i], userId, level);
      assert i < |alerts| && more[i] == alerts[i];
    }
    if HasBlockingAlert(alerts, userId, level) {
      var i :| 0 <= i < |alerts| && Blocks(alerts[i], userId, level);
      assert more[i] == alerts[i];
    }
  }

  /** Where no stored alert is `normal`, the check as written and the severity
      check agree. */
  lemma BlockingAgreesWithoutNormal(alerts: seq<Alert>, userId: Id, level: AlertLevel)
    requires level != Normal
    requires forall i | 0 <= i < |alerts| :: alerts[i].level != Normal
    ensures HasBlockingAlert(alerts, userId, level) == HasBlockingAlertAsWritten(alerts, userId, level)
  {
    forall i | 0 <= i < |alerts|
      ensures Blocks(alerts[i], userId, level) == BlocksAsWritten(alerts[i], userId, level)
    {
      LevelOrdersAgreeAboveNormal(alerts[i].level, level);
    }
  }

  // ---- Alert texts ----

  lemma ScoreReasonIsTrimmed(latest: EmotionRecord, tier: string)
    ensures Text.Trimmed(ScoreReason(latest, tier))
  {
    var s := ScoreReason(latest, tier);
    assert s[0] == '单';
    assert s[|s| - 1] == '）';
  }

  lemma StreakReasonIsTrimmed(days: nat)
    ensures Text.Trimmed(StreakReason(days))
  {
    var s := StreakReason(days);
    assert s[0] == '连';
    assert s[|s| - 1] == '绪';
  }

  /** The reason checkAlert stores is the rule's text exactly: trim() leaves it alone. */
  lemma CandidateReasonSurvivesTrim(w: seq<EmotionRecord>)
    requires CandidateAlert(w).Some?
    ensures Text.Trim(CandidateAlert(w).value.reason) == CandidateAlert(w).value.reason
  {
    var c := CandidateAlert(w).value;
    match ScoreRule(w[0])
    case Some(_) =>
      ScoreReasonIsTrimmed(w[0], "过高");
      ScoreReasonIsTrimmed(w[0], "较高");
      ScoreReasonIsTrimmed(w[0], "略高");
    case None =>
      StreakReasonIsTrimmed(Streak(w));
    Text.TrimOfTrimmed(c.reason);
  }
}
