/** generateInterventionSuggestions of
    backend/src/services/teacherDecisionSupportService.ts: a fixed table of
    rules over a student's 5 newest emotion records, 3 newest alerts and 2
    newest consultation records, each rule pushing at most one suggestion, in
    a fixed order, with a default when none applies. */
module DecisionSupport {
  import opened Types
  import opened Store
  import opened Collections
  import opened ConsultationRecordModel
  import AlertService

  /** The suggestions the service can push, in the order its rules run. */
  datatype Suggestion =
    | FrequentNegative
    | SevereNegative
    | SevereAlert
    | ModerateAlert
    | MildAlert
    | AdjustConsultation
    | KeepConsultation
    | Stable

  /** The text the service pushes for each suggestion. */
  function Message(x: Suggestion): string {
    match x
    case FrequentNegative => "该学生近期负面情绪较为频繁，建议班主任进行一对一谈话，了解具体情况。"
    case SevereNegative => "该学生出现严重负面情绪，建议立即联系心理咨询师进行专业干预。"
    case SevereAlert => "该学生已触发严重预警，建议启动学校心理健康应急预案，通知家长并安排专业心理咨询。"
    case ModerateAlert => "该学生已触发中度预警，建议班主任加强关注，定期进行心理疏导，并考虑推荐心理咨询。"
    case MildAlert => "该学生已触发轻度预警，建议班主任进行适当关注，提供必要的支持和鼓励。"
    case AdjustConsultation => "该学生近期咨询效果不佳，建议与心理咨询师沟通，调整咨询方案。"
    case KeepConsultation => "该学生近期咨询效果良好，建议继续保持关注，巩固咨询成果。"
    case Stable => "该学生近期心理健康状况稳定，建议继续保持关注，鼓励积极参与班级活动。"
  }

  /** The position of a suggestion in the order the rules push them. */
  function Rank(x: Suggestion): int {
    match x
    case FrequentNegative => 0
    case SevereNegative => 1
    case SevereAlert => 2
    case ModerateAlert => 3
    case MildAlert => 4
    case AdjustConsultation => 5
    case KeepConsultation => 6
    case Stable => 7
  }

  function NegativeRecord(): EmotionRecord -> bool {
    (r: EmotionRecord) => AlertService.IsNegative(r.emotion)
  }

  function ScoreAtLeast80(): EmotionRecord -> bool {
    (r: EmotionRecord) => r.score >= 80
  }

  function AtLevel(l: AlertLevel): Alert -> bool {
    (a: Alert) => a.level == l
  }

  /** Three or more of the records carry a negative emotion. */
  predicate FrequentlyNegative(e: seq<EmotionRecord>) {
    |Filter(e, NegativeRecord())| >= 3
  }

  /** Some record carries a negative emotion scored 80 or more. */
  predicate SeverelyNegative(e: seq<EmotionRecord>) {
    exists i | 0 <= i < |e| :: AlertService.IsNegative(e[i].emotion) && e[i].score >= 80
  }

  predicate HasLevel(a: seq<Alert>, l: AlertLevel) {
    exists i | 0 <= i < |a| :: a[i].level == l
  }

  /** The newest consultation went poorly or only fairly. */
  predicate PoorEffect(c: seq<ConsultationRecord>)
    requires c != []
  {
    c[0].effect == Poor || c[0].effect == Fair
  }

  /** The rules on the emotion records (lines 26-40). */
  predicate EmotionRuleFires(e: seq<EmotionRecord>, x: Suggestion) {
    (x == FrequentNegative && FrequentlyNegative(e)) || (x == SevereNegative && SeverelyNegative(e))
  }

  /** The rules on the alerts (lines 43-58). */
  predicate AlertRuleFires(a: seq<Alert>, x: Suggestion) {
    (x == SevereAlert && HasLevel(a, Severe))
    || (x == ModerateAlert && HasLevel(a, Moderate))
    || (x == MildAlert && HasLevel(a, Mild))
  }

  /** The rule on the newest consultation record (lines 61-68). */
  predicate ConsultationRuleFires(c: seq<ConsultationRecord>, x: Suggestion) {
    c != [] && (if PoorEffect(c) then x == AdjustConsultation else x == KeepConsultation)
  }

  /** No rule fires: the default applies. */
  predicate Quiet(e: seq<EmotionRecord>, a: seq<Alert>, c: seq<ConsultationRecord>) {
    !FrequentlyNegative(e) && !SeverelyNegative(e)
    && !HasLevel(a, Severe) && !HasLevel(a, Moderate) && !HasLevel(a, Mild) && c == []
  }

  /** When each suggestion belongs in the answer. */
  predicate Fires(e: seq<EmotionRecord>, a: seq<Alert>, c: seq<ConsultationRecord>, x: Suggestion) {
    EmotionRuleFires(e, x) || AlertRuleFires(a, x) || ConsultationRuleFires(c, x)
    || (x == Stable && Quiet(e, a, c))
  }

  /** The suggestions are exactly those whose rule fires, in rule order. */
  predicate Suggested(e: seq<EmotionRecord>, a: seq<Alert>, c: seq<ConsultationRecord>, s: seq<Suggestion>) {
    (forall x: Suggestion :: x in s <==> Fires(e, a, c, x)) && RankedBy(s, Rank)
  }

  /** The rule table applied to the three lists: the suggestions of each group of
      rules pushed in turn, then the default if nothing was pushed. */
  method Suggest(e: seq<EmotionRecord>, a: seq<Alert>, c: seq<ConsultationRecord>)
    returns (suggestions: seq<Suggestion>)
    ensures Suggested(e, a, c, suggestions)
    ensures 1 <= |suggestions| <= 6
  {
    var fromEmotions := EmotionSuggestions(e);
    var fromAlerts := AlertSuggestions(a);
    var fromConsultations := ConsultationSuggestions(c);
    suggestions := fromEmotions + fromAlerts + fromConsultations;
    if |suggestions| == 0 {
      NothingFiresMeansStable(e, a, c, fromEmotions, fromAlerts, fromConsultations);
      suggestions := suggestions + [Stable];
    } else {
      GroupsMakeSuggestions(e, a, c, fromEmotions, fromAlerts, fromConsultations);
    }
  }

  /** What the three groups of rules deliver. */
  predicate GroupsFire(e: seq<EmotionRecord>, a: seq<Alert>, c: seq<ConsultationRecord>,
                       fe: seq<Suggestion>, fa: seq<Suggestion>, fc: seq<Suggestion>) {
    && (forall x: Suggestion :: x in fe <==> EmotionRuleFires(e, x))
    && (forall x: Suggestion :: x in fa <==> AlertRuleFires(a, x))
    && (forall x: Suggestion :: x in fc <==> ConsultationRuleFires(c, x))
    && RankedBy(fe, Rank) && RankedBy(fa, Rank) && RankedBy(fc, Rank)
    && (forall x | x in fe :: Rank(x) <= 1)
    && (forall x | x in fa :: 2 <= Rank(x) <= 4)
    && (forall x | x in fc :: 5 <= Rank(x) <= 6)
  }

  /** When no group pushes anything, the default alone is the answer. */
  lemma NothingFiresMeansStable(e: seq<EmotionRecord>, a: seq<Alert>, c: seq<ConsultationRecord>,
                                fe: seq<Suggestion>, fa: seq<Suggestion>, fc: seq<Suggestion>)
    requires GroupsFire(e, a, c, fe, fa, fc) && fe + fa + fc == []
    ensures Suggested(e, a, c, [Stable])
  {
    assert fe == [] && fa == [] && fc == [];
    assert !EmotionRuleFires(e, FrequentNegative) && !EmotionRuleFires(e, SevereNegative);
    assert !AlertRuleFires(a, SevereAlert) && !AlertRuleFires(a, ModerateAlert) && !AlertRuleFires(a, MildAlert);
    assert !ConsultationRuleFires(c, AdjustConsultation) && !ConsultationRuleFires(c, KeepConsultation);
    assert Quiet(e, a, c);
  }

  /** When some group pushes a suggestion, the concatenation is the answer. */
  lemma GroupsMakeSuggestions(e: seq<EmotionRecord>, a: seq<Alert>, c: seq<ConsultationRecord>,
                              fe: seq<Suggestion>, fa: seq<Suggestion>, fc: seq<Suggestion>)
    requires GroupsFire(e, a, c, fe, fa, fc) && fe + fa + fc != []
    ensures Suggested(e, a, c, fe + fa + fc)
  {
    var s := fe + fa + fc;
    RankedConcat(fe, fa, Rank);
    RankedConcat(fe + fa, fc, Rank);
    assert !Quiet(e, a, c) by {
      assert s[0] in fe || s[0] in fa || s[0] in fc;
    }
    forall x: Suggestion ensures x in s <==> Fires(e, a, c, x) {
      assert x in s <==> x in fe || x in fa || x in fc;
    }
  }

  /** Lines 26-40: at most the two emotion suggestions, in order. */
  method EmotionSuggestions(e: seq<EmotionRecord>) returns (suggestions: seq<Suggestion>)
    ensures forall x: Suggestion :: x in suggestions <==> EmotionRuleFires(e, x)
    ensures RankedBy(suggestions, Rank) && |suggestions| <= 2
    ensures forall x | x in suggestions :: Rank(x) <= 1
  {
    suggestions := [];
    if |e| > 0 {
      var negative := Filter(e, NegativeRecord());
      if |negative| >= 3 {
        suggestions := suggestions + [FrequentNegative];
      }
      assert suggestions == PushIf([], |negative| >= 3, FrequentNegative);
      var severe := Filter(negative, ScoreAtLeast80());
      if |severe| > 0 {
        suggestions := suggestions + [SevereNegative];
      }
      assert suggestions == EmotionList(|negative| >= 3, |severe| > 0);
      SevereAmongNegative(e);
      EmotionListFacts(|negative| >= 3, |severe| > 0);
    }
  }

  /** The emotion suggestions for the rules that fire, in rule order. */
  function EmotionList(frequent: bool, severe: bool): seq<Suggestion> {
    PushIf(PushIf([], frequent, FrequentNegative), severe, SevereNegative)
  }

  lemma EmotionListFacts(frequent: bool, severe: bool)
    ensures forall x: Suggestion :: x in EmotionList(frequent, severe) <==>
      (x == FrequentNegative && frequent) || (x == SevereNegative && severe)
    ensures RankedBy(EmotionList(frequent, severe), Rank) && |EmotionList(frequent, severe)| <= 2
    ensures forall x | x in EmotionList(frequent, severe) :: Rank(x) <= 1
  {
    RankedPush([], frequent, FrequentNegative, Rank);
    RankedPush(PushIf([], frequent, FrequentNegative), severe, SevereNegative, Rank);
  }

  /** The alert suggestions for the levels present, most severe first. */
  function AlertList(severe: bool, moderate: bool, mild: bool): seq<Suggestion> {
    PushIf(PushIf(PushIf([], severe, SevereAlert), moderate, ModerateAlert), mild, MildAlert)
  }

  lemma AlertListFacts(severe: bool, moderate: bool, mild: bool)
    ensures forall x: Suggestion :: x in AlertList(severe, moderate, mild) <==>
      (x == SevereAlert && severe) || (x == ModerateAlert && moderate) || (x == MildAlert && mild)
    ensures RankedBy(AlertList(severe, moderate, mild), Rank) && |AlertList(severe, moderate, mild)| <= 3
    ensures forall x | x in AlertList(severe, moderate, mild) :: 2 <= Rank(x) <= 4
  {
    var s1 := PushIf([], severe, SevereAlert);
    RankedPush([], severe, SevereAlert, Rank);
    var s2 := PushIf(s1, moderate, ModerateAlert);
    RankedPush(s1, moderate, ModerateAlert, Rank);
    RankedPush(s2, mild, MildAlert, Rank);
  }

  /** Lines 43-58: at most the three alert suggestions, most severe first. */
  method AlertSuggestions(a: seq<Alert>) returns (suggestions: seq<Suggestion>)
    ensures forall x: Suggestion :: x in suggestions <==> AlertRuleFires(a, x)
    ensures RankedBy(suggestions, Rank) && |suggestions| <= 3
    ensures forall x | x in suggestions :: 2 <= Rank(x) <= 4
  {
    suggestions := [];
    if |a| > 0 {
      var severe, moderate, mild := AnyAtLevel(a, Severe), AnyAtLevel(a, Moderate), AnyAtLevel(a, Mild);
      if severe {
        suggestions := suggestions + [SevereAlert];
      }
      assert suggestions == PushIf([], severe, SevereAlert);
      if moderate {
        suggestions := suggestions + [ModerateAlert];
      }
      assert suggestions == PushIf(PushIf([], severe, SevereAlert), moderate, ModerateAlert);
      if mild {
        suggestions := suggestions + [MildAlert];
      }
      assert suggestions == AlertList(severe, moderate, mild);
      AlertListFacts(severe, moderate, mild);
    }
  }

  /** `alerts.filter(alert => alert.level === l).length > 0`. */
  function AnyAtLevel(a: seq<Alert>, l: AlertLevel): (r: bool)
    ensures r <==> HasLevel(a, l)
  {
    LevelFilters(a, l);
    |Filter(a, AtLevel(l))| > 0
  }

  /** Lines 61-68: one suggestion from the newest consultation record, if any. */
  method ConsultationSuggestions(c: seq<ConsultationRecord>) returns (suggestions: seq<Suggestion>)
    ensures forall x: Suggestion :: x in suggestions <==> ConsultationRuleFires(c, x)
    ensures |suggestions| == if c == [] then 0 else 1
    ensures forall x | x in suggestions :: 5 <= Rank(x) <= 6
  {
    suggestions := [];
    if |c| > 0 {
      var latestConsultation := c[0];
      if latestConsultation.effect == Poor || latestConsultation.effect == Fair {
        suggestions := suggestions + [AdjustConsultation];
      } else {
        suggestions := suggestions + [KeepConsultation];
      }
    }
  }

  lemma SevereAmongNegative(e: seq<EmotionRecord>)
    ensures |Filter(Filter(e, NegativeRecord()), ScoreAtLeast80())| > 0 <==> SeverelyNegative(e)
  {
    var negative := Filter(e, NegativeRecord());
    var severe := Filter(negative, ScoreAtLeast80());
    if SeverelyNegative(e) {
      var i :| 0 <= i < |e| && AlertService.IsNegative(e[i].emotion) && e[i].score >= 80;
      assert NegativeRecord()(e[i]);
      var j :| 0 <= j < |negative| && negative[j] == e[i];
      assert ScoreAtLeast80()(negative[j]);
      assert negative[j] in severe;
    }
    if |severe| > 0 {
      assert severe[0] in negative && ScoreAtLeast80()(severe[0]);
      var i :| 0 <= i < |e| && e[i] == severe[0];
      assert NegativeRecord()(e[i]);
    }
  }

  lemma LevelFilters(a: seq<Alert>, l: AlertLevel)
    ensures |Filter(a, AtLevel(l))| > 0 <==> HasLevel(a, l)
  {
    var f := Filter(a, AtLevel(l));
    if HasLevel(a, l) {
      var i :| 0 <= i < |a| && a[i].level == l;
      assert AtLevel(l)(a[i]);
      assert a[i] in f;
    }
    if |f| > 0 {
      assert f[0] in a && AtLevel(l)(f[0]);
    }
  }

  /** The default suggestion comes alone, exactly when no other rule fires. */
  lemma StableComesAlone(e: seq<EmotionRecord>, a: seq<Alert>, c: seq<ConsultationRecord>, s: seq<Suggestion>)
    requires Suggested(e, a, c, s)
    ensures Stable in s <==> s == [Stable]
  {
    if Stable in s {
      assert Fires(e, a, c, Stable);
      forall x: Suggestion ensures x in s <==> x in [Stable] {
        if x != Stable {
          assert !Fires(e, a, c, x);
        }
      }
      RankedUnique(s, [Stable], Rank);
    }
  }

  function OfStudentRecord(studentId: Id): EmotionRecord -> bool {
    (r: EmotionRecord) => r.userId == studentId
  }

  function OfStudentAlert(studentId: Id): Alert -> bool {
    (a: Alert) => a.studentId == studentId
  }

  function OfStudentConsultation(studentId: Id): ConsultationRecord -> bool {
    (c: ConsultationRecord) => c.studentId == studentId
  }

  /** The 5 newest emotion records, 3 newest alerts and 2 newest consultation
      records of one student (lines 11-21). */
  function NewestEmotions(db: Db, studentId: Id): seq<EmotionRecord>
    reads db
  {
    Take(SortNewestFirst(Filter(db.emotionRecords, OfStudentRecord(studentId)), RecordTime), 5)
  }

  function NewestAlerts(db: Db, studentId: Id): seq<Alert>
    reads db
  {
    Take(SortNewestFirst(Filter(db.alerts, OfStudentAlert(studentId)), AlertTime), 3)
  }

  function NewestConsultations(db: Db, studentId: Id): seq<ConsultationRecord>
    reads db
  {
    Take(SortNewestFirst(Filter(db.consultations, OfStudentConsultation(studentId)), ConsultationTime), 2)
  }

  /** generateInterventionSuggestions(studentId). */
  method GenerateInterventionSuggestions(db: Db, studentId: Id) returns (suggestions: seq<Suggestion>)
    ensures Suggested(NewestEmotions(db, studentId), NewestAlerts(db, studentId),
                      NewestConsultations(db, studentId), suggestions)
    ensures 1 <= |suggestions| <= 6
  {
    var recentEmotions := NewestEmotions(db, studentId);
    var recentAlerts := NewestAlerts(db, studentId);
    var consultationRecords := NewestConsultations(db, studentId);
    suggestions := Suggest(recentEmotions, recentAlerts, consultationRecords);
  }

  /** The lists the rules read are the student's own, newest first, and no longer
      than 5, 3 and 2. */
  lemma WindowsAreNewest(db: Db, studentId: Id)
    ensures |NewestEmotions(db, studentId)| <= 5 && NewestFirst(NewestEmotions(db, studentId), RecordTime)
    ensures forall r | r in NewestEmotions(db, studentId) :: r in db.emotionRecords && r.userId == studentId
    ensures |NewestAlerts(db, studentId)| <= 3 && NewestFirst(NewestAlerts(db, studentId), AlertTime)
    ensures forall a | a in NewestAlerts(db, studentId) :: a in db.alerts && a.studentId == studentId
    ensures |NewestConsultations(db, studentId)| <= 2
    ensures NewestFirst(NewestConsultations(db, studentId), ConsultationTime)
    ensures forall c | c in NewestConsultations(db, studentId) :: c in db.consultations && c.studentId == studentId
  {
    NewestWindow(db.emotionRecords, OfStudentRecord(studentId), RecordTime, 5);
    NewestWindow(db.alerts, OfStudentAlert(studentId), AlertTime, 3);
    NewestWindow(db.consultations, OfStudentConsultation(studentId), ConsultationTime, 2);
  }
}
