/** The enumerations of backend/src/types/index.ts, their string values, and the
    two orders on alert levels: the severity order the code means and the
    string order MongoDB actually applies to the stored values. */
module Types {
  import opened Wrappers

  /** A document's ObjectId, as the store hands them out. */
  type Id = nat

  datatype UserRole = Student | Teacher | Counselor | Admin

  datatype AlertLevel = Normal | Mild | Moderate | Severe

  datatype EmotionType = Happy | Sad | Angry | Anxious | Fearful | Surprised | Neutral

  datatype RecognitionType = TextRecognition | VoiceRecognition | ImageRecognition

  datatype AppointmentStatus = Pending | Confirmed | Completed | Cancelled

  datatype ConsultationEffect = Excellent | Good | Fair | Poor

  function RoleName(r: UserRole): string {
    match r
    case Student => "student"
    case Teacher => "teacher"
    case Counselor => "counselor"
    case Admin => "admin"
  }

  function LevelName(l: AlertLevel): string {
    match l
    case Normal => "normal"
    case Mild => "mild"
    case Moderate => "moderate"
    case Severe => "severe"
  }

  function EmotionName(e: EmotionType): string {
    match e
    case Happy => "happy"
    case Sad => "sad"
    case Angry => "angry"
    case Anxious => "anxious"
    case Fearful => "fearful"
    case Surprised => "surprised"
    case Neutral => "neutral"
  }

  function RecognitionName(t: RecognitionType): string {
    match t
    case TextRecognition => "text"
    case VoiceRecognition => "voice"
    case ImageRecognition => "image"
  }

  function StatusName(s: AppointmentStatus): string {
    match s
    case Pending => "pending"
    case Confirmed => "confirmed"
    case Completed => "completed"
    case Cancelled => "cancelled"
  }

  function EffectName(e: ConsultationEffect): string {
    match e
    case Excellent => "excellent"
    case Good => "good"
    case Fair => "fair"
    case Poor => "poor"
  }

  /** `Object.values(UserRole).includes(s)`, returning the member found. */
  function ParseRole(s: string): (r: Option<UserRole>)
    ensures r.Some? ==> RoleName(r.value) == s
    ensures r.None? ==> forall x: UserRole :: RoleName(x) != s
  {
    if s == "student" then Some(Student)
    else if s == "teacher" then Some(Teacher)
    else if s == "counselor" then Some(Counselor)
    else if s == "admin" then Some(Admin)
    else None
  }

  /** `Object.values(AlertLevel).includes(s)`, returning the member found. */
  function ParseLevel(s: string): (r: Option<AlertLevel>)
    ensures r.Some? ==> LevelName(r.value) == s
    ensures r.None? ==> forall x: AlertLevel :: LevelName(x) != s
  {
    if s == "normal" then Some(Normal)
    else if s == "mild" then Some(Mild)
    else if s == "moderate" then Some(Moderate)
    else if s == "severe" then Some(Severe)
    else None
  }

  /** `Object.values(RecognitionType).includes(s)`, returning the member found. */
  function ParseRecognition(s: string): (r: Option<RecognitionType>)
    ensures r.Some? ==> RecognitionName(r.value) == s
    ensures r.None? ==> forall x: RecognitionType :: RecognitionName(x) != s
  {
    if s == "text" then Some(TextRecognition)
    else if s == "voice" then Some(VoiceRecognition)
    else if s == "image" then Some(ImageRecognition)
    else None
  }

  /** `Object.values(AppointmentStatus).includes(s)`, returning the member found. */
  function ParseStatus(s: string): (r: Option<AppointmentStatus>)
    ensures r.Some? ==> StatusName(r.value) == s
    ensures r.None? ==> forall x: AppointmentStatus :: StatusName(x) != s
  {
    if s == "pending" then Some(Pending)
    else if s == "confirmed" then Some(Confirmed)
    else if s == "completed" then Some(Completed)
    else if s == "cancelled" then Some(Cancelled)
    else None
  }

  /** The enum check Mongoose applies to a ConsultationEffect field on save. */
  function ParseEffect(s: string): (r: Option<ConsultationEffect>)
    ensures r.Some? ==> EffectName(r.value) == s
    ensures r.None? ==> forall x: ConsultationEffect :: EffectName(x) != s
  {
    if s == "excellent" then Some(Excellent)
    else if s == "good" then Some(Good)
    else if s == "fair" then Some(Fair)
    else if s == "poor" then Some(Poor)
    else None
  }

  /** `Object.values(EmotionType)`: the seven emotions in declaration order. */
  const AllEmotions: seq<EmotionType> := [Happy, Sad, Angry, Anxious, Fearful, Surprised, Neutral]

  lemma AllEmotionsListsEveryEmotion(e: EmotionType)
    ensures e in AllEmotions
  {
  }

  /** Position of a level in the severity order normal < mild < moderate < severe. */
  function Severity(l: AlertLevel): nat {
    match l
    case Normal => 0
    case Mild => 1
    case Moderate => 2
    case Severe => 3
  }

  /** "Same level or higher": the severity order the alert rules are written for. */
  predicate LevelGe(a: AlertLevel, b: AlertLevel) {
    Severity(a) >= Severity(b)
  }

  lemma LevelGeIsTotalOrder(a: AlertLevel, b: AlertLevel, c: AlertLevel)
    ensures LevelGe(a, a)
    ensures LevelGe(a, b) || LevelGe(b, a)
    ensures LevelGe(a, b) && LevelGe(b, a) ==> a == b
    ensures LevelGe(a, b) && LevelGe(b, c) ==> LevelGe(a, c)
  {
  }

  /** Code-point order on strings, the order MongoDB's `$gte` uses for string fields
      holding ASCII text. */
  predicate StringLe(a: string, b: string) {
    if a == [] then true
    else if b == [] then false
    else if a[0] != b[0] then a[0] < b[0]
    else StringLe(a[1..], b[1..])
  }

  /** `level: { $gte: b }` on the stored string value, as the query is written. */
  predicate MongoLevelGe(a: AlertLevel, b: AlertLevel) {
    StringLe(LevelName(b), LevelName(a))
  }

  /** The string order sorts the levels as mild < moderate < normal < severe. */
  lemma MongoLevelOrder()
    ensures MongoLevelGe(Moderate, Mild) && !MongoLevelGe(Mild, Moderate)
    ensures MongoLevelGe(Normal, Moderate) && !MongoLevelGe(Moderate, Normal)
    ensures MongoLevelGe(Severe, Normal) && !MongoLevelGe(Normal, Severe)
  {
    assert LevelName(Moderate)[1..] == "oderate";
    assert LevelName(Mild)[1..] == "ild";
  }

  /** On mild, moderate and severe the two orders agree. */
  lemma LevelOrdersAgreeAboveNormal(a: AlertLevel, b: AlertLevel)
    requires a != Normal && b != Normal
    ensures MongoLevelGe(a, b) <==> LevelGe(a, b)
  {
    assert LevelName(Moderate)[1..] == "oderate";
    assert LevelName(Mild)[1..] == "ild";
  }

  /** They disagree exactly on `normal`: the string order puts it above mild and moderate. */
  lemma LevelOrdersDisagreeOnNormal()
    ensures MongoLevelGe(Normal, Mild) && !LevelGe(Normal, Mild)
    ensures MongoLevelGe(Normal, Moderate) && !LevelGe(Normal, Moderate)
    ensures !MongoLevelGe(Normal, Severe) && !LevelGe(Normal, Severe)
  {
    assert LevelName(Normal)[1..] == "ormal";
  }
}
