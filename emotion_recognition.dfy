/** The simulated recogniser of backend/src/services/emotionRecognitionService.ts.
    recognizeTextEmotion, recognizeVoiceEmotion and recognizeImageEmotion run
    one and the same allocation algorithm, modelled once as Simulate; each
    Math.random() is an explicit draw. recognizeEmotion dispatches on the type. */
module EmotionRecognition {
  import opened Wrappers
  import opened Types
  import Text

  /** Math.random() returns one of 2^53 equally spaced values in [0, 1): a draw
      `u` stands for u / 2^53. */
  const RandomScale: nat := 0x20_0000_0000_0000

  type Draw = u: nat | u < RandomScale

  /** Math.floor(Math.random() * n), computed exactly. */
  function ScaledFloor(u: Draw, n: nat): (r: nat)
    ensures r <= n
    ensures n > 0 ==> r < n
  {
    ScaledFloorBound(u, n);
    (u * n) / RandomScale
  }

  lemma ScaledFloorBound(u: Draw, n: nat)
    ensures (u * n) / RandomScale <= n
    ensures n > 0 ==> (u * n) / RandomScale < n
  {
    FractionFloorBound(u, RandomScale, n);
  }

  lemma {:induction false} MulMono(a: nat, b: nat, n: nat)
    requires a <= b
    ensures a * n <= b * n
  {
    if n > 0 {
      MulMono(a, b, n - 1);
      assert a * n == a * (n - 1) + a && b * n == b * (n - 1) + b;
    }
  }

  /** floor(u / scale * n) is below n when u < scale. */
  lemma FractionFloorBound(u: nat, scale: nat, n: nat)
    requires u < scale
    ensures (u * n) / scale <= n
    ensures n > 0 ==> (u * n) / scale < n
  {
    var x := u * n;
    var q := x / scale;
    MulMono(u + 1, scale, n);
    assert (u + 1) * n == x + n;
    assert scale * q <= x;
    if q >= n {
      MulMono(n, q, scale);
      assert n * scale == scale * n && q * scale == scale * q;
    }
  }

  /** `mockEmotionResults`: zero for each of the seven emotions. As a constant
      value it is copied, never changed. */
  const ZeroTemplate: map<EmotionType, int> :=
    map[Happy := 0, Sad := 0, Angry := 0, Anxious := 0, Fearful := 0, Surprised := 0, Neutral := 0]

  /** `emotions.filter(emotion => emotion !== e)`: the six other emotions in declaration order. */
  function Others(e: EmotionType): (o: seq<EmotionType>)
    ensures |o| == 6 && e !in o
    ensures forall i, j | 0 <= i < j < 6 :: o[i] != o[j]
  {
    match e
    case Happy => [Sad, Angry, Anxious, Fearful, Surprised, Neutral]
    case Sad => [Happy, Angry, Anxious, Fearful, Surprised, Neutral]
    case Angry => [Happy, Sad, Anxious, Fearful, Surprised, Neutral]
    case Anxious => [Happy, Sad, Angry, Fearful, Surprised, Neutral]
    case Fearful => [Happy, Sad, Angry, Anxious, Surprised, Neutral]
    case Surprised => [Happy, Sad, Angry, Anxious, Fearful, Neutral]
    case Neutral => [Happy, Sad, Angry, Anxious, Fearful, Surprised]
  }

  /** Every emotion but `e` is among the others. */
  lemma OthersListsTheRest(e: EmotionType, x: EmotionType)
    requires x != e
    ensures x in Others(e)
  {
    match x
    case Happy =>
    case Sad =>
    case Angry =>
    case Anxious =>
    case Fearful =>
    case Surprised =>
    case Neutral =>
  }

  lemma TemplateHasEveryEmotion(e: EmotionType)
    ensures e in ZeroTemplate && ZeroTemplate[e] == 0
  {
    match e
    case Happy =>
    case Sad =>
    case Angry =>
    case Anxious =>
    case Fearful =>
    case Surprised =>
    case Neutral =>
  }

  /** What is left of `start` after the loop has handed a share to the others,
      one per draw, each share floor(r * what is left). */
  function Remaining(ds: seq<Draw>, start: nat): (r: nat)
    ensures r <= start
  {
    if ds == [] then start
    else
      var before := Remaining(ds[..|ds| - 1], start);
      before - ScaledFloor(ds[|ds| - 1], before)
  }

  /** The share the loop gives the j-th other emotion. */
  function Share(ds: seq<Draw>, start: nat, j: nat): nat
    requires j < |ds|
  {
    ScaledFloor(ds[j], Remaining(ds[..j], start))
  }

  function SharesSum(ds: seq<Draw>, start: nat, n: nat): int
    requires n <= |ds|
  {
    if n == 0 then 0 else SharesSum(ds, start, n - 1) + Share(ds, start, n - 1)
  }

  /** The shares handed out and what is left always make up the starting amount. */
  lemma {:induction false} SharesAddUp(ds: seq<Draw>, start: nat, n: nat)
    requires n <= |ds|
    ensures SharesSum(ds, start, n) + Remaining(ds[..n], start) == start
  {
    if n == 0 {
      assert ds[..0] == [];
    } else {
      SharesAddUp(ds, start, n - 1);
      assert ds[..n][..n - 1] == ds[..n - 1];
    }
  }

  /** What a recogniser returns. */
  datatype Recognition = Recognition(emotion: EmotionType, score: int, additionalEmotions: map<EmotionType, int>)

  function Total(m: map<EmotionType, int>): int
    requires forall e: EmotionType :: e in m
  {
    m[Happy] + m[Sad] + m[Angry] + m[Anxious] + m[Fearful] + m[Surprised] + m[Neutral]
  }

  /** The promises of the recogniser: a score from 50 to 99 for the chosen
      emotion, an entry for every emotion, the chosen one holding the score,
      none negative, all seven summing to 100. */
  predicate WellFormed(r: Recognition) {
    50 <= r.score <= 99
    && (forall e: EmotionType :: e in r.additionalEmotions)
    && r.additionalEmotions[r.emotion] == r.score
    && (forall e: EmotionType :: r.additionalEmotions[e] >= 0)
    && Total(r.additionalEmotions) == 100
  }

  /** The result the eight draws determine: draw 0 picks the emotion, draw 1 the
      score, draws 2..7 the shares of the six others in order; the first other
      emotion also gets what is left. */
  predicate IsSimulation(draws: seq<Draw>, r: Recognition)
    requires |draws| == 8
  {
    var others := Others(r.emotion);
    var ds := draws[2..];
    var start := 100 - r.score;
    r.emotion == AllEmotions[ScaledFloor(draws[0], 7)]
    && r.score == ScaledFloor(draws[1], 50) + 50
    && r.additionalEmotions.Keys == ZeroTemplate.Keys
    && r.additionalEmotions[r.emotion] == r.score
    && start >= 0
    && forall j | 0 <= j < 6 ::
         r.additionalEmotions[others[j]] == Share(ds, start, j) + (if j == 0 then Remaining(ds, start) else 0)
  }

  lemma TotalSplits(m: map<EmotionType, int>, e: EmotionType)
    requires forall x: EmotionType :: x in m
    ensures var o := Others(e);
      Total(m) == m[e] + m[o[0]] + m[o[1]] + m[o[2]] + m[o[3]] + m[o[4]] + m[o[5]]
  {
  }

  /** The six others of a simulation receive exactly what the score leaves. */
  lemma OthersGetTheRest(draws: seq<Draw>, r: Recognition)
    requires |draws| == 8 && IsSimulation(draws, r)
    ensures var o := Others(r.emotion); var m := r.additionalEmotions;
      o[0] in m && o[1] in m && o[2] in m && o[3] in m && o[4] in m && o[5] in m
      && m[o[0]] + m[o[1]] + m[o[2]] + m[o[3]] + m[o[4]] + m[o[5]] == 100 - r.score
  {
    var o := Others(r.emotion);
    var ds := draws[2..];
    var start := 100 - r.score;
    var m := r.additionalEmotions;
    TemplateHasEveryEmotion(o[0]);
    TemplateHasEveryEmotion(o[1]);
    TemplateHasEveryEmotion(o[2]);
    TemplateHasEveryEmotion(o[3]);
    TemplateHasEveryEmotion(o[4]);
    TemplateHasEveryEmotion(o[5]);
    SharesAddUp(ds, start, 6);
    assert ds[..6] == ds;
    assert SharesSum(ds, start, 1) == Share(ds, start, 0);
    assert SharesSum(ds, start, 2) == SharesSum(ds, start, 1) + Share(ds, start, 1);
    assert SharesSum(ds, start, 3) == SharesSum(ds, start, 2) + Share(ds, start, 2);
    assert SharesSum(ds, start, 4) == SharesSum(ds, start, 3) + Share(ds, start, 3);
    assert SharesSum(ds, start, 5) == SharesSum(ds, start, 4) + Share(ds, start, 4);
    assert SharesSum(ds, start, 6) == SharesSum(ds, start, 5) + Share(ds, start, 5);
    assert m[o[0]] == Share(ds, start, 0) + Remaining(ds, start);
    assert m[o[1]] == Share(ds, start, 1);
    assert m[o[2]] == Share(ds, start, 2);
    assert m[o[3]] == Share(ds, start, 3);
    assert m[o[4]] == Share(ds, start, 4);
    assert m[o[5]] == Share(ds, start, 5);
  }

  lemma SimulationIsWellFormed(draws: seq<Draw>, r: Recognition)
    requires |draws| == 8 && IsSimulation(draws, r)
    ensures WellFormed(r)
  {
    var others := Others(r.emotion);
    var m := r.additionalEmotions;
    forall e: EmotionType ensures e in m {
      TemplateHasEveryEmotion(e);
    }
    OthersGetTheRest(draws, r);
    TotalSplits(m, r.emotion);
    forall e: EmotionType ensures m[e] >= 0 {
      if e != r.emotion {
        OthersListsTheRest(r.emotion, e);
        var j :| 0 <= j < 6 && others[j] == e;
      }
    }
  }

  /** The chosen emotion's entry is the largest: the others share at most 50. */
  lemma ChosenEmotionIsLargest(r: Recognition)
    requires WellFormed(r)
    ensures forall e: EmotionType :: r.additionalEmotions[e] <= r.additionalEmotions[r.emotion]
  {
    var m := r.additionalEmotions;
    forall e: EmotionType ensures m[e] <= m[r.emotion] {
      TotalSplits(m, r.emotion);
      if e != r.emotion {
        var o := Others(r.emotion);
        OthersListsTheRest(r.emotion, e);
        var j :| 0 <= j < 6 && o[j] == e;
      }
    }
  }

  /** One recogniser run: pick the emotion and its score, copy the template,
      then hand each other emotion floor(r * remaining) and give the rest to
      the first of them. */
  method Simulate(draws: seq<Draw>) returns (r: Recognition)
    requires |draws| == 8
    ensures IsSimulation(draws, r)
    ensures WellFormed(r)
  {
    var emotion := AllEmotions[ScaledFloor(draws[0], 7)];
    var score := ScaledFloor(draws[1], 50) + 50;
    var m := ZeroTemplate;
    TemplateHasEveryEmotion(emotion);
    m := m[emotion := score];
    var others := Others(emotion);
    forall j | 0 <= j < 6 ensures others[j] in m {
      TemplateHasEveryEmotion(others[j]);
    }
    var shares, remaining := HandOutShares(draws[2..], 100 - score, m, others);
    m := shares[others[0] := shares[others[0]] + remaining];
    r := Recognition(emotion, score, m);
    SharesMakeSimulation(draws, emotion, score, shares, remaining);
    SimulationIsWellFormed(draws, r);
  }

  /** The map the loop leaves, once the first other emotion gets the rest, is
      the simulation the draws determine. */
  lemma SharesMakeSimulation(draws: seq<Draw>, emotion: EmotionType, score: int,
                             shares: map<EmotionType, int>, remaining: nat)
    requires |draws| == 8
    requires emotion == AllEmotions[ScaledFloor(draws[0], 7)]
    requires score == ScaledFloor(draws[1], 50) + 50
    requires shares.Keys == ZeroTemplate.Keys && emotion in shares && shares[emotion] == score
    requires forall j | 0 <= j < 6 ::
      (Others(emotion)[j] in shares && shares[Others(emotion)[j]] == Share(draws[2..], 100 - score, j))
    requires remaining == Remaining(draws[2..][..6], 100 - score)
    ensures IsSimulation(draws, Recognition(emotion, score,
      shares[Others(emotion)[0] := shares[Others(emotion)[0]] + remaining]))
  {
    assert draws[2..][..6] == draws[2..];
    var others := Others(emotion);
    var m := shares[others[0] := shares[others[0]] + remaining];
    forall j | 0 <= j < 6
      ensures m[others[j]] == Share(draws[2..], 100 - score, j) + (if j == 0 then remaining else 0)
    {
      if j != 0 {
        assert others[j] != others[0];
      }
    }
  }

  /** The loop over the other emotions: each gets floor(r * remaining) of what
      is left, which shrinks by that share. */
  method HandOutShares(ds: seq<Draw>, start: nat, m0: map<EmotionType, int>, others: seq<EmotionType>)
    returns (m: map<EmotionType, int>, remaining: nat)
    requires |others| <= |ds|
    requires forall j | 0 <= j < |others| :: others[j] in m0
    requires forall i, j | 0 <= i < j < |others| :: others[i] != others[j]
    ensures m.Keys == m0.Keys
    ensures forall k | k in m0 && k !in others :: m[k] == m0[k]
    ensures forall j | 0 <= j < |others| :: m[others[j]] == Share(ds, start, j)
    ensures remaining == Remaining(ds[..|others|], start)
  {
    m := m0;
    remaining := start;
    var i := 0;
    assert ds[..0] == [];
    while i < |others|
      invariant 0 <= i <= |others|
      invariant remaining == Remaining(ds[..i], start)
      invariant SharesHanded(ds, start, m0, others, m, i)
    {
      var s := ScaledFloor(ds[i], remaining);
      assert s == Share(ds, start, i);
      RemainingStep(ds, start, i);
      HandOneShare(ds, start, m0, others, m, i);
      m := m[others[i] := s];
      remaining := remaining - s;
      i := i + 1;
    }
    assert others[..|others|] == others;
  }

  /** The loop's state after i shares: the first i others hold their shares and
      every emotion not yet reached keeps its starting entry. */
  predicate SharesHanded(ds: seq<Draw>, start: nat, m0: map<EmotionType, int>, others: seq<EmotionType>,
                         m: map<EmotionType, int>, i: nat)
    requires i <= |others| <= |ds|
  {
    && m.Keys == m0.Keys
    && (forall k | k in m0 && k !in others[..i] :: m[k] == m0[k])
    && (forall j | 0 <= j < i :: others[j] in m && m[others[j]] == Share(ds, start, j))
  }

  lemma HandOneShare(ds: seq<Draw>, start: nat, m0: map<EmotionType, int>, others: seq<EmotionType>,
                     m: map<EmotionType, int>, i: nat)
    requires i < |others| <= |ds|
    requires forall j | 0 <= j < |others| :: others[j] in m0
    requires forall a, b | 0 <= a < b < |others| :: others[a] != others[b]
    requires SharesHanded(ds, start, m0, others, m, i)
    ensures SharesHanded(ds, start, m0, others, m[others[i] := Share(ds, start, i)], i + 1)
  {
    var m' := m[others[i] := Share(ds, start, i)];
    assert others[i] in m0;
    assert m'.Keys == m0.Keys;
    forall k | k in m0 && k !in others[..i + 1] ensures m'[k] == m0[k] {
      assert others[..i + 1] == others[..i] + [others[i]];
      assert k != others[i] && k !in others[..i];
    }
    forall j | 0 <= j < i + 1 ensures m'[others[j]] == Share(ds, start, j) {
      if j < i {
        assert others[j] != others[i];
      }
    }
  }

  /** One more draw takes its share from what remains. */
  lemma RemainingStep(ds: seq<Draw>, start: nat, i: nat)
    requires i < |ds|
    ensures Remaining(ds[..i + 1], start) == Remaining(ds[..i], start) - Share(ds, start, i)
  {
    assert ds[..i + 1][..i] == ds[..i];
  }

  datatype RecognitionError = EmptyText | EmptyVoiceUrl | EmptyImageUrl | UnsupportedType

  datatype Outcome = Recognized(result: Recognition) | Failed(error: RecognitionError)

  /** recognizeEmotion(type, content, fileUrl): text needs content, voice and
      image need a file URL, any other type is refused. */
  method RecognizeEmotion(kind: string, content: Option<string>, fileUrl: Option<string>,
                          draws: seq<Draw>) returns (out: Outcome)
    requires |draws| == 8
    ensures ParseRecognition(kind).None? <==> out == Failed(UnsupportedType)
    ensures out == Failed(EmptyText) <==> kind == "text" && !Text.Present(content)
    ensures out == Failed(EmptyVoiceUrl) <==> kind == "voice" && !Text.Present(fileUrl)
    ensures out == Failed(EmptyImageUrl) <==> kind == "image" && !Text.Present(fileUrl)
    ensures out.Recognized? <==>
      (ParseRecognition(kind).Some?
       && (kind == "text" ==> Text.Present(content))
       && (kind == "voice" || kind == "image" ==> Text.Present(fileUrl)))
    ensures out.Recognized? ==> IsSimulation(draws, out.result) && WellFormed(out.result)
  {
    match ParseRecognition(kind) {
    case None =>
      return Failed(UnsupportedType);
    case Some(TextRecognition) =>
      if !Text.Present(content) {
        return Failed(EmptyText);
      }
    case Some(VoiceRecognition) =>
      if !Text.Present(fileUrl) {
        return Failed(EmptyVoiceUrl);
      }
    case Some(ImageRecognition) =>
      if !Text.Present(fileUrl) {
        return Failed(EmptyImageUrl);
      }
    }
    var r := Simulate(draws);
    out := Recognized(r);
  }
}
