/** The five item generators of the objective quiz. Each random draw is a
    parameter; the part of a generator after its draws (and after its
    rejection loop) is a function, and the generator with its loop is a
    method proved equal to that function applied to the draw the loop keeps. */
module Generators {
  import opened Wrappers
  import opened Items
  import opened Decimal
  import opened Sampling

  /** `v in range(lo, hi, 5)`. */
  predicate InRange5(v: int, lo: int, hi: int) {
    lo <= v < hi && (v - lo) % 5 == 0
  }

  /** A triangle with these three interior angles (in degrees) exists. */
  predicate IsTriangle(x: int, y: int, z: int) {
    x > 0 && y > 0 && z > 0 && x + y + z == 180
  }

  /** Python's `str(x) == "None"` for a value that is not `None`: never, for a number. */
  lemma NumberIsNotNone(i: int)
    ensures IntToString(i) != "None"
  {
    IntToStringRoundTrip(i);
    assert !IsDigit("None"[0]) && !IsDigit("None"[1..][0]);
    assert ParseInt("None") == None;
  }

  /** `[str(v) for v in ns]`. */
  function Spellings(ns: seq<int>): (ss: seq<string>)
    ensures |ss| == |ns|
  {
    seq(|ns|, k requires 0 <= k < |ns| => IntToString(ns[k]))
  }

  /** Each spelling parses back to its number. */
  lemma SpellingsParse(ns: seq<int>)
    ensures forall k :: 0 <= k < |ns| ==> ParseInt(Spellings(ns)[k]) == Some(ns[k])
  {
    forall k | 0 <= k < |ns| ensures ParseInt(Spellings(ns)[k]) == Some(ns[k]) {
      IntToStringRoundTrip(ns[k]);
    }
  }

  /** Different numbers spell different choices. */
  lemma SpellingsDistinct(ns: seq<int>)
    requires Distinct(ns)
    ensures Distinct(Spellings(ns))
  {
    var ss := Spellings(ns);
    forall i, j | 0 <= i < j < |ss| ensures ss[i] != ss[j] {
      if ss[i] == ss[j] {
        IntToStringInjective(ns[i], ns[j]);
      }
    }
  }

  /** A two-point multiple-choice item whose choices are `base` shuffled:
      when `base` lists distinct strings including the answer, so do the choices. */
  function ChoiceItem(id: string, topic: Topic, stem: string, base: seq<string>, answer: string,
                      swaps: seq<(nat, nat)>): (item: ObjItem)
    requires Distinct(base) && answer in base
    requires SwapsWithin(swaps, |base|)
    ensures item.topic == topic && item.stem == stem && item.kind == MCQ && item.points == 2
    ensures item.answer == answer
    ensures multiset(item.choices) == multiset(base)
    ensures item.answer in item.choices && |item.choices| == |base| && Distinct(item.choices)
  {
    ShuffledChoices(base, answer, swaps);
    ObjItem(id, topic, stem, Shuffle(base, swaps), answer, MCQ, 2)
  }

  /** The spellings of `n` and of `n` moved by three offsets: with three
      different non-zero offsets, four distinct strings, the first spelling
      `n`, each parsing back to its number. */
  function Numerals(n: int, d1: int, d2: int, d3: int): (base: seq<string>)
    requires d1 != 0 && d2 != 0 && d3 != 0 && d1 != d2 && d1 != d3 && d2 != d3
    ensures |base| == 4 && base[0] == IntToString(n) && Distinct(base)
    ensures forall k :: 0 <= k < 4 ==> ParseInt(base[k]) == Some([n, n + d1, n + d2, n + d3][k])
  {
    var ns := [n, n + d1, n + d2, n + d3];
    SpellingsDistinct(ns);
    SpellingsParse(ns);
    Spellings(ns)
  }

  /** A multiple-choice item whose answer is the number `n` among the
      shuffled `Numerals`: the answer parses back to `n`, is one of four
      distinct choices, and is not "None". */
  function NumericItem(id: string, topic: Topic, stem: string, n: int, d1: int, d2: int, d3: int,
                       swaps: seq<(nat, nat)>): (item: ObjItem)
    requires d1 != 0 && d2 != 0 && d3 != 0 && d1 != d2 && d1 != d3 && d2 != d3
    requires SwapsWithin(swaps, 4)
    ensures item.topic == topic && item.kind == MCQ && item.points == 2
    ensures ParseInt(item.answer) == Some(n) && item.answer != "None"
    ensures multiset(item.choices) == multiset(Numerals(n, d1, d2, d3))
    ensures item.answer in item.choices && |item.choices| == 4 && Distinct(item.choices)
  {
    IntToStringRoundTrip(n);
    NumberIsNotNone(n);
    var base := Numerals(n, d1, d2, d3);
    assert base[0] in base;
    ChoiceItem(id, topic, stem, base, IntToString(n), swaps)
  }

  // ---------------------------------------------------------------------------
  // gen_angle_sum_item

  /** Each of `a` and `b` is drawn from `range(20, 121, 5)`. */
  predicate AnglePairDrawn(p: (int, int)) {
    InRange5(p.0, 20, 121) && InRange5(p.1, 20, 121)
  }

  /** The loop `while a + b >= 170` re-draws until this holds. */
  predicate AnglePairAccepted(p: (int, int)) {
    p.0 + p.1 < 170
  }

  /** The item id `AS-a-b`. */
  function AngleSumId(a: int, b: int): string {
    "AS-" + IntToString(a) + "-" + IntToString(b)
  }

  /** The question text naming the two given angles. */
  function AngleSumStem(a: int, b: int): string {
    "삼각형의 두 내각이 " + IntToString(a) + "°, " + IntToString(b) + "°일 때, 나머지 각의 크기는?"
  }

  /** The item built from the kept pair `(a, b)`: the third angle and three
      near misses. After the loop `a + b <= 165`, so the answer parses back
      to the third angle of the triangle, which is at least 15 degrees, and
      is one of four distinct choices. */
  function AngleSumItem(a: int, b: int, swaps: seq<(nat, nat)>): (item: ObjItem)
    requires AnglePairDrawn((a, b)) && AnglePairAccepted((a, b))
    requires SwapsWithin(swaps, 4)
    ensures a + b <= 165 && IsTriangle(a, b, 180 - a - b) && 180 - a - b >= 15
    ensures item.topic == AngleSum && item.kind == MCQ && item.points == 2
    ensures ParseInt(item.answer) == Some(180 - a - b) && item.answer != "None"
    ensures var c := 180 - a - b;
      multiset(item.choices) == multiset(Spellings([c, c + 5, c - 5, c + 10]))
    ensures item.answer in item.choices && |item.choices| == 4 && Distinct(item.choices)
  {
    AnglePairSumBound(a, b);
    NumericItem(AngleSumId(a, b), AngleSum, AngleSumStem(a, b), 180 - a - b, 5, -5, 10, swaps)
  }

  /** Two multiples of 5 that add up to less than 170 add up to at most 165. */
  lemma AnglePairSumBound(a: int, b: int)
    requires AnglePairDrawn((a, b)) && AnglePairAccepted((a, b))
    ensures 40 <= a + b <= 165
  {
  }

  /** `gen_angle_sum_item`: the rejection loop, then the item. */
  method GenAngleSumItem(pairs: seq<(int, int)>, swaps: seq<(nat, nat)>) returns (item: ObjItem)
    requires forall p :: p in pairs ==> AnglePairDrawn(p)
    requires HasAccepted(pairs, AnglePairAccepted)
    requires SwapsWithin(swaps, 4)
    ensures var p := FirstAccepted(pairs, AnglePairAccepted); item == AngleSumItem(p.0, p.1, swaps)
  {
    var p := RejectionSample(pairs, AnglePairAccepted);
    item := AngleSumItem(p.0, p.1, swaps);
  }

  // ---------------------------------------------------------------------------
  // gen_exterior_angle_item

  /** The item id `EX-x-a`. */
  function ExteriorAngleId(x: int, a: int): string {
    "EX-" + IntToString(x) + "-" + IntToString(a)
  }

  /** The question text naming the exterior angle and one remote interior angle. */
  function ExteriorAngleStem(x: int, a: int): string {
    "삼각형의 한 외각이 " + IntToString(x) + "°이다. 원격 내각 중 하나가 "
      + IntToString(a) + "°일 때, 다른 원격 내각의 크기는?"
  }

  /** The item for exterior angle `x` and remote interior angle `a`. The
      answer parses back to `b = x - a`, which lies in 35..135 and with `a`
      and the supplement of `x` forms a triangle, and is one of four distinct choices. */
  function ExteriorAngleItem(x: int, a: int, swaps: seq<(nat, nat)>): (item: ObjItem)
    requires InRange5(x, 100, 160) && InRange5(a, 20, 70)
    requires SwapsWithin(swaps, 4)
    ensures 35 <= x - a <= 135 && IsTriangle(a, x - a, 180 - x)
    ensures item.topic == ExteriorAngle && item.kind == MCQ && item.points == 2
    ensures ParseInt(item.answer) == Some(x - a) && item.answer != "None"
    ensures var b := x - a;
      multiset(item.choices) == multiset(Spellings([b, b + 5, b - 10, b + 15]))
    ensures item.answer in item.choices && |item.choices| == 4 && Distinct(item.choices)
  {
    ExteriorDrawBounds(x, a);
    NumericItem(ExteriorAngleId(x, a), ExteriorAngle, ExteriorAngleStem(x, a), x - a, 5, -10, 15, swaps)
  }

  /** The exterior angle is at most 155 and the remote angle at least 20. */
  lemma ExteriorDrawBounds(x: int, a: int)
    requires InRange5(x, 100, 160) && InRange5(a, 20, 70)
    ensures 100 <= x <= 155 && 20 <= a <= 65
  {
  }

  // ---------------------------------------------------------------------------
  // gen_triangle_types_item

  const Equilateral: string := "정삼각형"
  const Isosceles: string := "이등변삼각형"
  const RightTriangle: string := "직각삼각형"
  const Scalene: string := "부등변삼각형"
  const Acute: string := "예각삼각형"
  const Obtuse: string := "둔각삼각형"

  /** The choices of the sides mode, before the shuffle. */
  const SideChoices: seq<string> := [Equilateral, Isosceles, RightTriangle, Scalene]

  /** The choices of the angle mode, before the shuffle. */
  const AngleModeChoices: seq<string> := [Acute, RightTriangle, Obtuse, Equilateral]

  /** The six labels are six different strings. */
  lemma LabelsDistinct()
    ensures Distinct(SideChoices) && Distinct(AngleModeChoices)
    ensures Obtuse != Acute && Obtuse != RightTriangle && Acute != RightTriangle
    ensures "None" !in SideChoices && "None" !in AngleModeChoices
  {
    assert Equilateral[0] != 'N' && Isosceles[0] != 'N' && RightTriangle[0] != 'N' && Scalene[0] != 'N';
    assert Acute[0] != 'N' && Obtuse[0] != 'N';
    assert Equilateral[0] != Isosceles[0] && Equilateral[0] != RightTriangle[0] && Equilateral[0] != Scalene[0];
    assert Isosceles[0] != RightTriangle[0] && Isosceles[0] != Scalene[0] && RightTriangle[0] != Scalene[0];
    assert Acute[0] != RightTriangle[0] && Acute[0] != Obtuse[0] && Acute[0] != Equilateral[0];
    assert RightTriangle[0] != Obtuse[0] && Obtuse[0] != Equilateral[0];
  }

  /** `sorted` on three numbers. */
  function Sort3(t: (int, int, int)): (r: (int, int, int))
    ensures r.0 <= r.1 <= r.2
    ensures multiset{r.0, r.1, r.2} == multiset{t.0, t.1, t.2}
  {
    var (x, y, z) := t;
    if x <= y then
      if y <= z then (x, y, z) else if x <= z then (x, z, y) else (z, x, y)
    else
      if x <= z then (y, x, z) else if y <= z then (y, z, x) else (z, y, x)
  }

  /** `random.sample(range(3, 12), 3)`: three distinct lengths from 3 to 11. */
  predicate SideSampleDrawn(t: (int, int, int)) {
    3 <= t.0 < 12 && 3 <= t.1 < 12 && 3 <= t.2 < 12
    && t.0 != t.1 && t.0 != t.2 && t.1 != t.2
  }

  /** The loop `while a + b <= c` on the sorted sample re-draws until this holds. */
  predicate SidesAccepted(t: (int, int, int)) {
    var s := Sort3(t);
    s.0 + s.1 > s.2
  }

  /** The classification by sides, for sides listed in increasing order. */
  function ClassifySides(a: int, b: int, c: int): string {
    if a == b && b == c then Equilateral
    else if a == b || b == c then Isosceles
    else Scalene
  }

  /** For sorted sides the label follows the number of distinct lengths. */
  lemma ClassifySidesByDistinctLengths(a: int, b: int, c: int)
    requires a <= b <= c
    ensures ClassifySides(a, b, c) == Equilateral <==> |{a, b, c}| == 1
    ensures ClassifySides(a, b, c) == Isosceles <==> |{a, b, c}| == 2
    ensures ClassifySides(a, b, c) == Scalene <==> |{a, b, c}| == 3
  {
    if a == b && b == c {
      assert {a, b, c} == {a};
    } else if a == b {
      assert {a, b, c} == {a, c};
    } else if b == c {
      assert {a, b, c} == {a, b};
    } else {
      assert a < b < c;
    }
  }

  /** The one angle the angle-mode stem gives is drawn from this list. */
  const AngleChoices: seq<int> := [30, 45, 60, 70, 80, 90, 100, 120]

  /** The classification by the one given angle. */
  function ClassifyAngle(A: int): string {
    if A == 90 then RightTriangle
    else if A > 90 then Obtuse
    else Acute
  }

  /** The textbook classification of a triangle by all three of its angles. */
  function KindByAngles(x: int, y: int, z: int): string {
    if x == 90 || y == 90 || z == 90 then RightTriangle
    else if x > 90 || y > 90 || z > 90 then Obtuse
    else Acute
  }

  /** The label from the given angle `A` agrees with the triangle's true kind
      exactly when `A` is not acute or both other angles are acute. */
  lemma ClassifyAngleAgreement(A: int, y: int, z: int)
    requires IsTriangle(A, y, z)
    ensures ClassifyAngle(A) == KindByAngles(A, y, z) <==> A >= 90 || (y < 90 && z < 90)
  {
    if A < 90 && !(y < 90 && z < 90) {
      assert KindByAngles(A, y, z) != Acute;
    }
  }

  /** The item for the sorted sides `a <= b <= c` kept by the loop: its
      answer is the classification by sides, one of four distinct choices. */
  function TriangleTypesBySides(a: int, b: int, c: int, serial: int, swaps: seq<(nat, nat)>): (item: ObjItem)
    requires SwapsWithin(swaps, 4)
    ensures item.topic == TriangleTypes && item.kind == MCQ && item.points == 2
    ensures item.answer == ClassifySides(a, b, c) && item.answer != "None"
    ensures multiset(item.choices) == multiset(SideChoices)
    ensures item.answer in item.choices && |item.choices| == 4 && Distinct(item.choices)
  {
    LabelsDistinct();
    assert ClassifySides(a, b, c) in SideChoices;
    ChoiceItem("TT-" + IntToString(serial), TriangleTypes,
      "세 변의 길이가 " + IntToString(a) + ", " + IntToString(b) + ", " + IntToString(c) + "인 삼각형의 분류는?",
      SideChoices, ClassifySides(a, b, c), swaps)
  }

  /** The item for the given angle `A`: right exactly at 90 degrees, obtuse
      exactly above, acute exactly below, and one of four distinct choices. */
  function TriangleTypesByAngle(A: int, serial: int, swaps: seq<(nat, nat)>): (item: ObjItem)
    requires SwapsWithin(swaps, 4)
    ensures item.topic == TriangleTypes && item.kind == MCQ && item.points == 2
    ensures item.answer == RightTriangle <==> A == 90
    ensures item.answer == Obtuse <==> A > 90
    ensures item.answer == Acute <==> A < 90
    ensures item.answer != "None"
    ensures multiset(item.choices) == multiset(AngleModeChoices)
    ensures item.answer in item.choices && |item.choices| == 4 && Distinct(item.choices)
  {
    LabelsDistinct();
    assert ClassifyAngle(A) in AngleModeChoices;
    ChoiceItem("TT-" + IntToString(serial), TriangleTypes,
      "어떤 삼각형의 한 각이 " + IntToString(A) + "°이다. 이 삼각형의 분류는?",
      AngleModeChoices, ClassifyAngle(A), swaps)
  }

  /** Sorting three distinct lengths gives a strictly increasing triple. */
  lemma SortedSampleIncreasing(t: (int, int, int))
    requires SideSampleDrawn(t)
    ensures Sort3(t).0 < Sort3(t).1 < Sort3(t).2
  {
    var s := Sort3(t);
    assert multiset{s.0, s.1, s.2} == multiset{t.0, t.1, t.2};
    assert multiset{t.0, t.1, t.2}[s.0] == 1 && multiset{t.0, t.1, t.2}[s.1] == 1;
  }

  /** The sides the loop keeps form a triangle with three different lengths,
      so the sides-mode answer is always scalene. */
  lemma TriangleTypesBySidesSound(samples: seq<(int, int, int)>, serial: int, swaps: seq<(nat, nat)>)
    requires forall t :: t in samples ==> SideSampleDrawn(t)
    requires HasAccepted(samples, SidesAccepted)
    requires SwapsWithin(swaps, 4)
    ensures var s := Sort3(FirstAccepted(samples, SidesAccepted));
      && s.0 < s.1 < s.2 && s.0 + s.1 > s.2
      && TriangleTypesBySides(s.0, s.1, s.2, serial, swaps).answer == Scalene
  {
    var t := FirstAccepted(samples, SidesAccepted);
    assert SideSampleDrawn(t);
    SortedSampleIncreasing(t);
  }

  /** `gen_triangle_types_item`: sides mode with its rejection loop, or angle mode. */
  method GenTriangleTypesItem(sidesMode: bool, samples: seq<(int, int, int)>, A: int, serial: int,
                              swaps: seq<(nat, nat)>) returns (item: ObjItem)
    requires sidesMode ==> HasAccepted(samples, SidesAccepted)
    requires SwapsWithin(swaps, 4)
    ensures sidesMode ==>
      var s := Sort3(FirstAccepted(samples, SidesAccepted));
      item == TriangleTypesBySides(s.0, s.1, s.2, serial, swaps)
    ensures !sidesMode ==> item == TriangleTypesByAngle(A, serial, swaps)
  {
    if sidesMode {
      var t := RejectionSample(samples, SidesAccepted);
      var s := Sort3(t);
      item := TriangleTypesBySides(s.0, s.1, s.2, serial, swaps);
    } else {
      item := TriangleTypesByAngle(A, serial, swaps);
    }
  }

  // ---------------------------------------------------------------------------
  // gen_congruence_item

  const CongruenceOptions: seq<string> := ["SSS", "SAS", "ASA", "AAS", "HL(직각삼각형)"]
  const CannotTell: string := "판단 불가"

  function CongruenceStem(pattern: string): string {
    if pattern == "SSS" then "두 삼각형에서 대응하는 세 변의 길이가 각각 같다. 합동 판단 근거는?"
    else if pattern == "SAS" then "두 변의 길이와 그 끼인각이 각각 같다. 합동 판단 근거는?"
    else if pattern == "ASA" then "두 각과 그 사이에 있지 않은 한 변이 각각 같다. 합동 판단 근거는?"
    else "두 각과 한 변이 각각 같다. 합동 판단 근거는?"
  }

  /** The answer for a pattern; `pick` is the extra draw of the last branch. */
  function CongruenceAnswer(pattern: string, pick: nat): string
    requires pick < 2
  {
    if pattern == "SSS" then "SSS"
    else if pattern == "SAS" then "SAS"
    else if pattern == "ASA" then "AAS"
    else ["ASA", "AAS"][pick]
  }

  /** The criteria that prove the congruence each pattern's stem describes:
      three sides; two sides and the included angle; two angles and a side
      not between them; two angles and an unspecified side. */
  function CriteriaForStem(k: nat): set<string>
    requires k < 4
  {
    [{"SSS"}, {"SAS"}, {"AAS"}, {"ASA", "AAS"}][k]
  }

  /** `gen_congruence_item` after its draws: pattern index `k` into the first
      four options, the tie-break `pick`, the id number `serial`. The answer
      is a criterion that proves what the stem describes, never HL, and one
      of five distinct choices. */
  function CongruenceItem(k: nat, pick: nat, serial: int, swaps: seq<(nat, nat)>): (item: ObjItem)
    requires k < 4 && pick < 2
    requires SwapsWithin(swaps, 5)
    ensures item.topic == Congruence && item.kind == MCQ && item.points == 2
    ensures item.answer in CriteriaForStem(k) && item.answer != CongruenceOptions[4] && item.answer != "None"
    ensures multiset(item.choices) == multiset(CongruenceOptions[..4] + [CannotTell])
    ensures item.answer in item.choices && |item.choices| == 5 && Distinct(item.choices)
  {
    var pattern := CongruenceOptions[k];
    CongruenceChoicesDistinct();
    CongruenceAnswerSound(k, pick);
    ChoiceItem("CG-" + IntToString(serial), Congruence, CongruenceStem(pattern),
      CongruenceOptions[..4] + [CannotTell], CongruenceAnswer(pattern, pick), swaps)
  }

  /** The five congruence choices are five different strings. */
  lemma CongruenceChoicesDistinct()
    ensures Distinct(CongruenceOptions[..4] + [CannotTell])
  {
    var base := CongruenceOptions[..4] + [CannotTell];
    assert base == ["SSS", "SAS", "ASA", "AAS", "판단 불가"];
    assert base[0][1] != base[1][1] && base[0][0] != base[2][0] && base[0][0] != base[3][0] && base[0][0] != base[4][0];
    assert base[1][0] != base[2][0] && base[1][0] != base[3][0] && base[1][0] != base[4][0];
    assert base[2][1] != base[3][1] && base[2][0] != base[4][0] && base[3][0] != base[4][0];
  }

  /** Pattern by pattern: the answer proves what the stem describes, is not
      HL, and is one of the four drawn criteria. */
  lemma CongruenceAnswerSound(k: nat, pick: nat)
    requires k < 4 && pick < 2
    ensures CongruenceAnswer(CongruenceOptions[k], pick) in CriteriaForStem(k)
    ensures CongruenceAnswer(CongruenceOptions[k], pick) in CongruenceOptions[..4] + [CannotTell]
    ensures CongruenceAnswer(CongruenceOptions[k], pick) != CongruenceOptions[4]
    ensures CongruenceAnswer(CongruenceOptions[k], pick) != "None"
  {
    var ans := CongruenceAnswer(CongruenceOptions[k], pick);
    assert "None"[0] != ans[0];
    assert "SAS"[1] != "SSS"[1] && "ASA"[0] != "SSS"[0] && "AAS"[0] != "SSS"[0];
    assert "ASA"[0] != "SAS"[0] && "AAS"[0] != "SAS"[0];
    assert "ASA"[1] != "AAS"[1];
    assert "HL(직각삼각형)"[0] != ans[0];
    assert CongruenceOptions[..4] == ["SSS", "SAS", "ASA", "AAS"];
  }

  /** For the last pattern the stored answer is decided by the draw alone:
      the same stem is keyed ASA or AAS. */
  lemma CongruenceLastPatternDependsOnDraw(serial: int, swaps: seq<(nat, nat)>)
    requires SwapsWithin(swaps, 5)
    ensures CongruenceItem(3, 0, serial, swaps).answer == "ASA"
    ensures CongruenceItem(3, 1, serial, swaps).answer == "AAS"
    ensures CongruenceItem(3, 0, serial, swaps).stem == CongruenceItem(3, 1, serial, swaps).stem
  {
    assert CongruenceOptions[3] == "AAS";
  }

  // ---------------------------------------------------------------------------
  // gen_similarity_item

  const SimilarityFirstAngles: seq<int> := [30, 40, 50, 60]
  const SimilaritySecondAngles: seq<int> := [40, 50, 60, 70]
  const SimilarByAA: string := "가능(AA)"

  /** The similarity choices, before the shuffle. */
  const SimilarityChoices: seq<string> := [SimilarByAA, "불가능", "가능(SSS)", "가능(SAS)"]

  /** The item for the two given angles: the answer is AA, one of four
      distinct choices. */
  function SimilarityItem(A: int, B: int, swaps: seq<(nat, nat)>): (item: ObjItem)
    requires SwapsWithin(swaps, 4)
    ensures item.topic == SimilarityBasic && item.kind == MCQ && item.points == 2
    ensures item.answer == SimilarByAA && item.answer != "None"
    ensures multiset(item.choices) == multiset(SimilarityChoices)
    ensures item.answer in item.choices && |item.choices| == 4 && Distinct(item.choices)
  {
    SimilarityChoicesDistinct();
    ChoiceItem("SIM-" + IntToString(A) + "-" + IntToString(B), SimilarityBasic,
      "두 삼각형의 두 각이 각각 " + IntToString(A) + "°, " + IntToString(B) + "°로 같다. 닮음 판단이 가능한가?",
      SimilarityChoices, SimilarByAA, swaps)
  }

  /** The two angles the similarity stem gives always leave a positive third
      angle, so both triangles exist and AA applies. */
  lemma SimilarityAnglesFormTriangle(A: int, B: int)
    requires A in SimilarityFirstAngles && B in SimilaritySecondAngles
    ensures IsTriangle(A, B, 180 - A - B) && 180 - A - B >= 50
  {
  }

  /** The four similarity choices are four different strings, the first being AA. */
  lemma SimilarityChoicesDistinct()
    ensures Distinct(SimilarityChoices) && SimilarByAA in SimilarityChoices && SimilarByAA != "None"
  {
    assert SimilarByAA[0] != "None"[0];
    var c := SimilarityChoices;
    assert c[0][0] != c[1][0] && c[0][3] != c[2][3] && c[0][3] != c[3][3];
    assert c[1][0] != c[2][0] && c[1][0] != c[3][0] && c[2][4] != c[3][4];
    assert c[0] == SimilarByAA;
  }

  // ---------------------------------------------------------------------------
  // GEN_FUNCS

  /** Every draw one generation step may consume; each generator reads its own fields. */
  datatype ItemDraw = ItemDraw(
    topicPick: nat,                        // index drawn by `random.choice(topic_keys)`
    anglePairs: seq<(int, int)>,           // successive `(a, b)` of gen_angle_sum_item
    exterior: int, remote: int,            // `x` and `a` of gen_exterior_angle_item
    sidesMode: bool,                       // `mode == "sides"`
    sideSamples: seq<(int, int, int)>,     // successive `random.sample(range(3, 12), 3)`
    givenAngle: int,                       // `A` of the angle mode
    pattern: nat, criterionPick: nat,      // gen_congruence_item's two choices
    simA: int, simB: int,                  // gen_similarity_item's two angles
    serial: int,                           // `random.randint(1000, 9999)` of TT and CG ids
    swaps: seq<(nat, nat)>)                // the shuffle of the choices

  /** `d` is an outcome the random module can produce for `t`'s generator
      (and its rejection loop stops within the draws given). */
  predicate Drawable(t: Topic, d: ItemDraw) {
    match t
    case AngleSum =>
      (forall p :: p in d.anglePairs ==> AnglePairDrawn(p))
      && HasAccepted(d.anglePairs, AnglePairAccepted) && SwapsWithin(d.swaps, 4)
    case ExteriorAngle =>
      InRange5(d.exterior, 100, 160) && InRange5(d.remote, 20, 70) && SwapsWithin(d.swaps, 4)
    case TriangleTypes =>
      (if d.sidesMode
       then (forall s :: s in d.sideSamples ==> SideSampleDrawn(s)) && HasAccepted(d.sideSamples, SidesAccepted)
       else d.givenAngle in AngleChoices)
      && 1000 <= d.serial <= 9999 && SwapsWithin(d.swaps, 4)
    case Congruence =>
      d.pattern < 4 && d.criterionPick < 2 && 1000 <= d.serial <= 9999 && SwapsWithin(d.swaps, 5)
    case SimilarityBasic =>
      d.simA in SimilarityFirstAngles && d.simB in SimilaritySecondAngles && SwapsWithin(d.swaps, 4)
  }

  /** `GEN_FUNCS[t]()` on the draws `d`. */
  function GenerateItem(t: Topic, d: ItemDraw): ObjItem
    requires Drawable(t, d)
  {
    match t
    case AngleSum =>
      var p := FirstAccepted(d.anglePairs, AnglePairAccepted);
      AngleSumItem(p.0, p.1, d.swaps)
    case ExteriorAngle => ExteriorAngleItem(d.exterior, d.remote, d.swaps)
    case TriangleTypes =>
      if d.sidesMode then
        var s := Sort3(FirstAccepted(d.sideSamples, SidesAccepted));
        TriangleTypesBySides(s.0, s.1, s.2, d.serial, d.swaps)
      else TriangleTypesByAngle(d.givenAngle, d.serial, d.swaps)
    case Congruence => CongruenceItem(d.pattern, d.criterionPick, d.serial, d.swaps)
    case SimilarityBasic => SimilarityItem(d.simA, d.simB, d.swaps)
  }

  /** The answer string a generated item stores. */
  predicate WellFormedItem(item: ObjItem) {
    && item.kind == MCQ && item.points == 2
    && item.answer in item.choices && Distinct(item.choices)
    && item.answer != "None"
  }

  /** Every generated item is a two-point multiple-choice item of its topic
      whose distinct choices contain its answer, and whose answer is never
      the string an unanswered item is graded with. */
  lemma GenerateItemSound(t: Topic, d: ItemDraw)
    requires Drawable(t, d)
    ensures GenerateItem(t, d).topic == t
    ensures WellFormedItem(GenerateItem(t, d))
  {
    match t
    case AngleSum =>
      var p := FirstAccepted(d.anglePairs, AnglePairAccepted);
      assert p in d.anglePairs;
      assert GenerateItem(t, d) == AngleSumItem(p.0, p.1, d.swaps);
    case ExteriorAngle =>
      assert GenerateItem(t, d) == ExteriorAngleItem(d.exterior, d.remote, d.swaps);
    case TriangleTypes =>
      if d.sidesMode {
        var s := Sort3(FirstAccepted(d.sideSamples, SidesAccepted));
        assert GenerateItem(t, d) == TriangleTypesBySides(s.0, s.1, s.2, d.serial, d.swaps);
      } else {
        assert GenerateItem(t, d) == TriangleTypesByAngle(d.givenAngle, d.serial, d.swaps);
      }
    case Congruence =>
      assert GenerateItem(t, d) == CongruenceItem(d.pattern, d.criterionPick, d.serial, d.swaps);
    case SimilarityBasic =>
      assert GenerateItem(t, d) == SimilarityItem(d.simA, d.simB, d.swaps);
  }

  /** One call `GEN_FUNCS[t]()`, running the generator's own loop. */
  method GenItem(t: Topic, d: ItemDraw) returns (item: ObjItem)
    requires Drawable(t, d)
    ensures item == GenerateItem(t, d)
    ensures item.topic == t && WellFormedItem(item)
  {
    match t {
      case AngleSum =>
        item := GenAngleSumItem(d.anglePairs, d.swaps);
      case ExteriorAngle =>
        item := ExteriorAngleItem(d.exterior, d.remote, d.swaps);
      case TriangleTypes =>
        item := GenTriangleTypesItem(d.sidesMode, d.sideSamples, d.givenAngle, d.serial, d.swaps);
      case Congruence =>
        item := CongruenceItem(d.pattern, d.criterionPick, d.serial, d.swaps);
      case SimilarityBasic =>
        item := SimilarityItem(d.simA, d.simB, d.swaps);
    }
    assert item == GenerateItem(t, d);
    GenerateItemSound(t, d);
  }
}
