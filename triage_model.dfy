/** A model of the rule-based triage engine `TriageModel`: the ordered list
    of severity levels, the feature-vector builder, the classifier that maps
    the mean symptom severity onto a level and derives a confidence score
    from the population variance, and the two guidance lookup tables.

    Scores are exact: sums are integers and the mean, variance and
    confidence are `real`s, where the source computes in floating point. */
module TriageModel {

  datatype Option<T> = None | Some(value: T)

  datatype Result<T, E> = Ok(value: T) | Err(error: E)

  /** A reported symptom. Only `severity` is read by the engine; the request
      schema types it as a plain integer and leaves its "1-5 scale"
      unenforced, so any integer can reach the engine. */
  datatype Symptom = Symptom(name: string, severity: int, description: Option<string>)

  /** What `predict` returns: a level name and a confidence score. */
  datatype Prediction = Prediction(severityLevel: string, confidenceScore: real)

  /** The mean is taken by dividing by the number of symptoms, which raises
      a division fault when there are none. */
  datatype PredictError = ZeroDivisionError

  // ---------------------------------------------------------------------
  // Severity levels, lowest first (set up once by the constructor)
  // ---------------------------------------------------------------------

  const SeverityLevels: seq<string> := ["Non-urgent", "Semi-urgent", "Urgent", "Critical"]

  /** The position of a level name in `SeverityLevels`, which orders the
      levels from Non-urgent (0) to Critical (3); None for any other string. */
  function LevelRank(level: string): (r: Option<nat>)
    ensures r.Some? <==> level in SeverityLevels
    ensures r.Some? ==> r.value < |SeverityLevels| && SeverityLevels[r.value] == level
  {
    if level == "Non-urgent" then Some(0)
    else if level == "Semi-urgent" then Some(1)
    else if level == "Urgent" then Some(2)
    else if level == "Critical" then Some(3)
    else None
  }

  /** The level names are pairwise distinct, so each index names exactly one
      level and ranking inverts indexing. */
  lemma {:induction false} LevelRankOfIndex(i: nat)
    requires i < |SeverityLevels|
    ensures LevelRank(SeverityLevels[i]) == Some(i)
  {
  }

  // ---------------------------------------------------------------------
  // Feature vector
  // ---------------------------------------------------------------------

  const GenderMap: map<string, int> := map["male" := 0, "female" := 1, "other" := 2]

  /** The code given to a gender string that is not a key of `GenderMap`. */
  const DefaultGenderCode: int := 2

  /** Number of symptom-severity slots in the feature vector. */
  const SymptomSlots: nat := 5

  function Min(a: int, b: int): int { if a <= b then a else b }

  function LowerChar(c: char): char
  {
    if 'A' <= c <= 'Z' then (c as int + 32) as char else c
  }

  /** Lower-cases the ASCII letters of a string. */
  function Lower(s: string): (r: string)
    ensures |r| == |s|
    ensures forall i :: 0 <= i < |s| ==> r[i] == LowerChar(s[i])
  {
    if s == [] then [] else [LowerChar(s[0])] + Lower(s[1..])
  }

  /** Lower-casing twice is lower-casing once. */
  lemma {:induction false} LowerIdempotent(s: string)
    ensures Lower(Lower(s)) == Lower(s)
  {
    var once := Lower(s);
    var twice := Lower(once);
    assert |twice| == |once|;
    forall i | 0 <= i < |once|
      ensures twice[i] == once[i]
    {
      assert once[i] == LowerChar(s[i]);
    }
  }

  /** The gender code: 0 for male, 1 for female, 2 for other and for every
      unrecognised string, all compared after lower-casing. */
  function GenderCode(gender: string): (code: int)
    ensures code == 0 <==> Lower(gender) == "male"
    ensures code == 1 <==> Lower(gender) == "female"
    ensures code == 2 <==> Lower(gender) != "male" && Lower(gender) != "female"
  {
    var key := Lower(gender);
    if key in GenderMap then GenderMap[key] else DefaultGenderCode
  }

  /** The gender code does not depend on letter case. */
  lemma {:induction false} GenderCodeCaseInsensitive(gender: string)
    ensures GenderCode(gender) == GenderCode(Lower(gender))
  {
    LowerIdempotent(gender);
  }

  function Severities(symptoms: seq<Symptom>): (xs: seq<int>)
    ensures |xs| == |symptoms|
    ensures forall i :: 0 <= i < |symptoms| ==> xs[i] == symptoms[i].severity
  {
    seq(|symptoms|, i requires 0 <= i < |symptoms| => symptoms[i].severity)
  }

  /** The feature vector: age, gender code, then the severities of the first
      five symptoms in order, padded with zeros to five slots. */
  function Features(symptoms: seq<Symptom>, patientAge: int, patientGender: string): (f: seq<int>)
    ensures |f| == 2 + SymptomSlots
    ensures f[0] == patientAge
    ensures f[1] == GenderCode(patientGender)
    ensures forall i :: 2 <= i < |f| ==>
              f[i] == (if i - 2 < |symptoms| then symptoms[i - 2].severity else 0)
  {
    var taken := Severities(symptoms[..Min(|symptoms|, SymptomSlots)]);
    [patientAge, GenderCode(patientGender)] + taken + seq(SymptomSlots - |taken|, _ => 0)
  }

  /** Symptoms after the fifth do not affect the feature vector. */
  lemma {:induction false} FeaturesIgnoreExtraSymptoms(symptoms: seq<Symptom>, patientAge: int, patientGender: string)
    ensures Features(symptoms, patientAge, patientGender)
         == Features(symptoms[..Min(|symptoms|, SymptomSlots)], patientAge, patientGender)
  {
    var f := Features(symptoms, patientAge, patientGender);
    var g := Features(symptoms[..Min(|symptoms|, SymptomSlots)], patientAge, patientGender);
    forall i | 0 <= i < |f|
      ensures f[i] == g[i]
    {
    }
  }

  /** Builds the feature vector by overwriting the slots of a zero-filled
      five-element buffer, one symptom at a time. */
  method PrepareFeatures(symptoms: seq<Symptom>, patientAge: int, patientGender: string)
    returns (features: seq<int>)
    ensures features == Features(symptoms, patientAge, patientGender)
  {
    features := [patientAge, GenderCode(patientGender)];
    var slots := new int[SymptomSlots](_ => 0);
    var taken := symptoms[..Min(|symptoms|, SymptomSlots)];
    for i := 0 to |taken|
      invariant forall j :: 0 <= j < i ==> slots[j] == taken[j].severity
      invariant forall j :: i <= j < SymptomSlots ==> slots[j] == 0
    {
      slots[i] := taken[i].severity;
    }
    features := features + slots[..];
    ghost var spec := Features(symptoms, patientAge, patientGender);
    forall i | 0 <= i < |spec|
      ensures features[i] == spec[i]
    {
      if 2 <= i {
        assert features[i] == slots[i - 2];
      }
    }
  }

  // ---------------------------------------------------------------------
  // Exact statistics over severities
  // ---------------------------------------------------------------------

  function Sum(xs: seq<int>): int
  {
    if xs == [] then 0 else xs[0] + Sum(xs[1..])
  }

  /** The arithmetic mean: the value that, times the count, gives the sum. */
  function Mean(xs: seq<int>): (r: real)
    requires |xs| > 0
    ensures r * |xs| as real == Sum(xs) as real
  {
    Sum(xs) as real / |xs| as real
  }

  function Square(x: real): real
  {
    x * x
  }

  /** The sum of the squared deviations of `xs` from `m`. */
  function SquaredDeviations(xs: seq<int>, m: real): real
  {
    if xs == [] then 0.0
    else Square(xs[0] as real - m) + SquaredDeviations(xs[1..], m)
  }

  /** Population variance: the mean squared deviation from the mean. */
  function Variance(xs: seq<int>): (r: real)
    requires |xs| > 0
    ensures r >= 0.0
  {
    SquaredDeviationsNonNegative(xs, Mean(xs));
    DivLe(0.0, SquaredDeviations(xs, Mean(xs)), |xs| as real);
    SquaredDeviations(xs, Mean(xs)) / |xs| as real
  }

  function SumSquares(xs: seq<int>): real
  {
    if xs == [] then 0.0 else Square(xs[0] as real) + SumSquares(xs[1..])
  }

  lemma {:induction false} SumUpdate(xs: seq<int>, k: nat, v: int)
    requires k < |xs|
    ensures Sum(xs[k := v]) == Sum(xs) - xs[k] + v
  {
    if k > 0 {
      SumUpdate(xs[1..], k - 1, v);
      assert xs[k := v][1..] == xs[1..][k - 1 := v];
    }
  }

  /** Values all equal to `c` sum (`s`) to `c` times their count (`n`). */
  lemma {:induction false} SumConstant(xs: seq<int>, c: real, s: real, n: real)
    requires forall i :: 0 <= i < |xs| ==> xs[i] as real == c
    requires s == Sum(xs) as real && n == |xs| as real
    ensures s == c * n
  {
    if xs != [] {
      var rest := xs[1..];
      assert forall i :: 0 <= i < |rest| ==> rest[i] as real == c by {
        forall i | 0 <= i < |rest| ensures rest[i] as real == c {
          assert rest[i] == xs[i + 1];
        }
      }
      var sr, nr := Sum(rest) as real, |rest| as real;
      SumConstant(rest, c, sr, nr);
      assert s == c + sr && n == nr + 1.0;
      Distribute(c, nr, 1.0);
    }
  }

  lemma {:induction false} SquaredDeviationsNonNegative(xs: seq<int>, m: real)
    ensures SquaredDeviations(xs, m) >= 0.0
  {
    if xs != [] {
      SquaredDeviationsNonNegative(xs[1..], m);
      SquareNonNegative(xs[0] as real - m);
    }
  }

  /** The squared deviations vanish exactly when every value equals `m`. */
  lemma {:induction false} SquaredDeviationsZero(xs: seq<int>, m: real)
    ensures SquaredDeviations(xs, m) == 0.0 <==> forall i :: 0 <= i < |xs| ==> xs[i] as real == m
  {
    if xs != [] {
      var rest := xs[1..];
      SquaredDeviationsZero(rest, m);
      SquaredDeviationsNonNegative(rest, m);
      var d := xs[0] as real - m;
      SquareNonNegative(d);
      if d != 0.0 {
        SquarePositive(d);
        assert SquaredDeviations(xs, m) > 0.0;
      }
      if SquaredDeviations(xs, m) == 0.0 {
        assert d == 0.0;
        forall i | 0 <= i < |xs| ensures xs[i] as real == m {
          if i > 0 {
            assert xs[i] == rest[i - 1];
          }
        }
      }
      if forall i :: 0 <= i < |xs| ==> xs[i] as real == m {
        assert forall i :: 0 <= i < |rest| ==> rest[i] == xs[i + 1];
        assert d == 0.0;
        SquareOfZero(d);
      }
    }
  }

  /** Expands the squared deviations from `m` (`d`) into the sum of
      squares (`q`), the sum (`s`) and the count (`n`). */
  lemma {:induction false} SquaredDeviationsExpand(xs: seq<int>, m: real, d: real, q: real, s: real, n: real)
    requires d == SquaredDeviations(xs, m) && q == SumSquares(xs)
    requires s == Sum(xs) as real && n == |xs| as real
    ensures d == q - 2.0 * m * s + n * m * m
  {
    if xs != [] {
      var rest := xs[1..];
      var dr, qr, sr, nr := SquaredDeviations(rest, m), SumSquares(rest), Sum(rest) as real, |rest| as real;
      SquaredDeviationsExpand(rest, m, dr, qr, sr, nr);
      ExpandStep(xs[0] as real, m, dr, qr, sr, nr, d, q, s, n);
    } else {
      ExpandEmpty(m, d, q, s, n);
    }
  }

  /** Summed over values in 1..5, x*x <= 6x - 5, that is (x-1)(5-x) >= 0. */
  lemma {:induction false} SumSquaresBounded(xs: seq<int>)
    requires forall i :: 0 <= i < |xs| ==> 1 <= xs[i] <= 5
    ensures SumSquares(xs) <= 6.0 * Sum(xs) as real - 5.0 * |xs| as real
  {
    if xs != [] {
      assert forall i :: 0 <= i < |xs[1..]| ==> 1 <= xs[1..][i] <= 5 by {
        forall i | 0 <= i < |xs[1..]| ensures 1 <= xs[1..][i] <= 5 {
          assert xs[1..][i] == xs[i + 1];
        }
      }
      SumSquaresBounded(xs[1..]);
      UnitRangeSquare(xs[0] as real);
    }
  }

  /** Values in 1..5 have population variance at most 4. */
  lemma VarianceAtMostFour(xs: seq<int>)
    requires |xs| > 0
    requires forall i :: 0 <= i < |xs| ==> 1 <= xs[i] <= 5
    ensures Variance(xs) <= 4.0
  {
    DeviationsAtMostFour(xs, Mean(xs), SquaredDeviations(xs, Mean(xs)), SumSquares(xs),
                         Sum(xs) as real, |xs| as real);
    DivLe(SquaredDeviations(xs, Mean(xs)), 4.0 * |xs| as real, |xs| as real);
    MulDiv(4.0, |xs| as real);
  }

  // The two lemmas below receive the sums they combine as named values `d`,
  // `q`, `s` and `n`, tied to the definitions by their preconditions, so that
  // the solver combines them as plain numbers.

  lemma DeviationsAtMostFour(xs: seq<int>, m: real, d: real, q: real, s: real, n: real)
    requires |xs| > 0
    requires forall i :: 0 <= i < |xs| ==> 1 <= xs[i] <= 5
    requires d == SquaredDeviations(xs, m) && q == SumSquares(xs)
    requires s == Sum(xs) as real && n == |xs| as real && m * n == s
    ensures d <= 4.0 * n
  {
    SquaredDeviationsExpand(xs, m, d, q, s, n);
    SquaresBounded(xs, q, s, n);
    BoundAlgebra(d, q, s, n, m);
  }

  lemma SquaresBounded(xs: seq<int>, q: real, s: real, n: real)
    requires forall i :: 0 <= i < |xs| ==> 1 <= xs[i] <= 5
    requires q == SumSquares(xs) && s == Sum(xs) as real && n == |xs| as real
    ensures q <= 6.0 * s - 5.0 * n
  {
    SumSquaresBounded(xs);
  }

  /** The population variance is 0 exactly when all values are equal. */
  lemma VarianceZeroIffUniform(xs: seq<int>)
    requires |xs| > 0
    ensures Variance(xs) == 0.0 <==> forall i, j :: 0 <= i < |xs| && 0 <= j < |xs| ==> xs[i] == xs[j]
  {
    DeviationsZeroIffUniform(xs, Mean(xs), SquaredDeviations(xs, Mean(xs)), Sum(xs) as real, |xs| as real);
  }

  lemma DeviationsZeroIffUniform(xs: seq<int>, m: real, d: real, s: real, n: real)
    requires |xs| > 0
    requires d == SquaredDeviations(xs, m)
    requires s == Sum(xs) as real && n == |xs| as real && m * n == s
    ensures d / n == 0.0 <==> forall i, j :: 0 <= i < |xs| && 0 <= j < |xs| ==> xs[i] == xs[j]
  {
    SquaredDeviationsZero(xs, m);
    DivZero(d, n);
    if forall i, j :: 0 <= i < |xs| && 0 <= j < |xs| ==> xs[i] == xs[j] {
      var c := xs[0] as real;
      assert forall i :: 0 <= i < |xs| ==> xs[i] as real == c;
      SumConstant(xs, c, s, n);
      MulCancel(m, c, n, s);
    }
  }

  // Real-arithmetic facts, each proved apart from the definitions above so
  // that the solver sees only the terms it needs.

  lemma SquarePositive(d: real)
    requires d != 0.0
    ensures Square(d) > 0.0
  {
    calc {
      Square(d);
    ==
      d * d;
    >
      0.0;
    }
  }

  lemma SquareNonNegative(d: real)
    ensures Square(d) >= 0.0
  {
    if d != 0.0 {
      SquarePositive(d);
    }
  }

  lemma SquareOfZero(d: real)
    requires d == 0.0
    ensures Square(d) == 0.0
  {
  }

  lemma PositiveProduct(a: real, b: real)
    requires a > 0.0 && b > 0.0
    ensures a * b > 0.0
  {
  }

  lemma ProductNonNegative(a: real, b: real)
    requires a >= 0.0 && b >= 0.0
    ensures a * b >= 0.0
  {
  }

  lemma Distribute(a: real, b: real, c: real)
    ensures a * (b + c) == a * b + a * c
  {
  }

  lemma MulCancel(a: real, b: real, n: real, s: real)
    requires n > 0.0 && a * n == s && b * n == s
    ensures a == b
  {
    assert (a - b) * n == 0.0;
    if a > b {
      PositiveProduct(a - b, n);
    } else if a < b {
      PositiveProduct(b - a, n);
    }
  }

  lemma DivLe(a: real, b: real, n: real)
    requires n > 0.0 && a <= b
    ensures a / n <= b / n
  {
  }

  lemma DivZero(a: real, n: real)
    requires n > 0.0
    ensures a / n == 0.0 <==> a == 0.0
  {
  }

  lemma ExpandEmpty(m: real, d: real, q: real, s: real, n: real)
    requires d == 0.0 && q == 0.0 && s == 0.0 && n == 0.0
    ensures d == q - 2.0 * m * s + n * m * m
  {
  }

  /** One step of the expansion: adding the value `x` to a sequence whose
      expansion is known (`dr`, `qr`, `sr`, `nr`) keeps the expansion. */
  lemma ExpandStep(x: real, m: real, dr: real, qr: real, sr: real, nr: real,
                   d: real, q: real, s: real, n: real)
    requires dr == qr - 2.0 * m * sr + nr * m * m
    requires d == Square(x - m) + dr && q == Square(x) + qr && s == x + sr && n == nr + 1.0
    ensures d == q - 2.0 * m * s + n * m * m
  {
    assert Square(x - m) == Square(x) - 2.0 * m * x + m * m;
    assert m * s == m * x + m * sr;
    assert n * m * m == nr * m * m + m * m;
  }

  lemma UnitRangeSquare(x: real)
    requires 1.0 <= x <= 5.0
    ensures Square(x) <= 6.0 * x - 5.0
  {
    ProductNonNegative(x - 1.0, 5.0 - x);
    assert (x - 1.0) * (5.0 - x) == 6.0 * x - 5.0 - Square(x);
  }

  /** With `m` the mean (m * n == s) and the squares bounded by 6s - 5n, the
      mean squared deviation is 4 - (m-3)^2 at most, so at most 4. */
  lemma BoundAlgebra(d: real, q: real, s: real, n: real, m: real)
    requires n > 0.0 && m * n == s
    requires d == q - 2.0 * m * s + n * m * m
    requires q <= 6.0 * s - 5.0 * n
    ensures d <= 4.0 * n
  {
    assert d == q - n * (m * m);
    assert d <= (6.0 * m - 5.0 - m * m) * n;
    SquareNonNegative(m - 3.0);
    assert Square(m - 3.0) == m * m - 6.0 * m + 9.0;
    assert (6.0 * m - 5.0 - m * m) * n <= 4.0 * n;
  }

  lemma MulDiv(a: real, n: real)
    requires n != 0.0
    ensures (a * n) / n == a
  {
  }

  // ---------------------------------------------------------------------
  // Classifier
  // ---------------------------------------------------------------------

  /** The threshold ladder: the first threshold the mean reaches, from the
      highest down, picks the level index. */
  function LevelIndex(avg: real): (idx: nat)
    ensures idx < |SeverityLevels|
    ensures idx == 3 <==> avg >= 4.5
    ensures idx == 2 <==> 3.5 <= avg < 4.5
    ensures idx == 1 <==> 2.5 <= avg < 3.5
    ensures idx == 0 <==> avg < 2.5
  {
    if avg >= 4.5 then 3
    else if avg >= 3.5 then 2
    else if avg >= 2.5 then 1
    else 0
  }

  /** One minus the population variance over 4, the largest variance of
      values in 1..5. */
  function Confidence(xs: seq<int>): (r: real)
    requires |xs| > 0
    ensures r <= 1.0
  {
    1.0 - Variance(xs) / 4.0
  }

  /** Classifies a list of symptoms. The age and gender only feed the feature
      vector, which the rule-based classification never reads. */
  function Predict(symptoms: seq<Symptom>, patientAge: int, patientGender: string)
    : (r: Result<Prediction, PredictError>)
    ensures r.Err? <==> symptoms == []
    ensures r.Ok? ==> r.value.severityLevel in SeverityLevels
  {
    if |symptoms| == 0 then Err(ZeroDivisionError)
    else
      var xs := Severities(symptoms);
      Ok(Prediction(SeverityLevels[LevelIndex(Mean(xs))], Confidence(xs)))
  }

  /** The classification depends on the symptoms alone. */
  lemma PredictIgnoresPatient(symptoms: seq<Symptom>, age1: int, gender1: string, age2: int, gender2: string)
    ensures Predict(symptoms, age1, gender1) == Predict(symptoms, age2, gender2)
  {
  }

  /** `a <= b` survives scaling both sides by a positive `n`. */
  lemma ScaleLe(a: real, b: real, n: real)
    requires n > 0.0
    ensures a <= b <==> a * n <= b * n
  {
    assert (b - a) * n == b * n - a * n;
    if a <= b {
      assert (b - a) * n >= 0.0;
    } else {
      assert (a - b) * n > 0.0;
    }
  }

  /** The mean reaches `t/2` exactly when twice the sum reaches `t` times the
      number of values. */
  lemma {:induction false} MeanReaches(xs: seq<int>, t: int)
    requires |xs| > 0
    ensures Mean(xs) >= t as real / 2.0 <==> 2 * Sum(xs) >= t * |xs|
  {
    var n := |xs| as real;
    ScaleLe(t as real / 2.0, Mean(xs), n);
    assert (t as real / 2.0) * n == (t * |xs|) as real / 2.0;
  }

  /** The level ladder, stated without division: with n symptoms whose
      severities sum to S, the level is Critical iff 2S >= 9n (mean >= 4.5),
      Urgent iff 7n <= 2S < 9n, Semi-urgent iff 5n <= 2S < 7n, and
      Non-urgent iff 2S < 5n. */
  lemma {:induction false} PredictLevelLadder(symptoms: seq<Symptom>, patientAge: int, patientGender: string)
    requires symptoms != []
    ensures var r := Predict(symptoms, patientAge, patientGender);
            var s, n := Sum(Severities(symptoms)), |symptoms|;
            r.Ok? &&
            (r.value.severityLevel == "Critical" <==> 2 * s >= 9 * n) &&
            (r.value.severityLevel == "Urgent" <==> 7 * n <= 2 * s < 9 * n) &&
            (r.value.severityLevel == "Semi-urgent" <==> 5 * n <= 2 * s < 7 * n) &&
            (r.value.severityLevel == "Non-urgent" <==> 2 * s < 5 * n)
  {
    var xs := Severities(symptoms);
    MeanReaches(xs, 9);
    MeanReaches(xs, 7);
    MeanReaches(xs, 5);
  }

  /** A larger sum over as many values gives a mean at least as large. */
  lemma MeanMonotone(xs: seq<int>, ys: seq<int>)
    requires 0 < |xs| == |ys|
    requires Sum(xs) <= Sum(ys)
    ensures Mean(xs) <= Mean(ys)
  {
    assert |ys| as real == |xs| as real;
    DivLe(Sum(xs) as real, Sum(ys) as real, |xs| as real);
  }

  /** The ladder is ordered: a higher mean never gets a lower level index. */
  lemma LevelIndexMonotone(a: real, b: real)
    requires a <= b
    ensures LevelIndex(a) <= LevelIndex(b)
  {
  }

  /** Raising one symptom's severity, all others fixed, never lowers the
      level. */
  lemma {:induction false} PredictMonotone(symptoms: seq<Symptom>, k: nat, v: int, patientAge: int, patientGender: string)
    requires k < |symptoms|
    requires symptoms[k].severity <= v
    ensures var before := Predict(symptoms, patientAge, patientGender);
            var after := Predict(symptoms[k := symptoms[k].(severity := v)], patientAge, patientGender);
            before.Ok? && after.Ok? &&
            LevelRank(after.value.severityLevel).Some? &&
            LevelRank(before.value.severityLevel).Some? &&
            LevelRank(before.value.severityLevel).value <= LevelRank(after.value.severityLevel).value
  {
    var raised := symptoms[k := symptoms[k].(severity := v)];
    var xs, ys := Severities(symptoms), Severities(raised);
    assert ys == xs[k := v];
    SumUpdate(xs, k, v);
    MeanMonotone(xs, ys);
    LevelIndexMonotone(Mean(xs), Mean(ys));
    LevelRankOfIndex(LevelIndex(Mean(xs)));
    LevelRankOfIndex(LevelIndex(Mean(ys)));
  }

  /** The confidence score never exceeds 1, whatever the severities. */
  lemma {:induction false} ConfidenceAtMostOne(symptoms: seq<Symptom>, patientAge: int, patientGender: string)
    requires symptoms != []
    ensures var r := Predict(symptoms, patientAge, patientGender);
            r.Ok? && r.value.confidenceScore <= 1.0
  {
  }

  /** With every severity on the 1..5 scale the confidence score is at least
      0, so it lies in [0, 1]. */
  lemma {:induction false} ConfidenceNonNegative(symptoms: seq<Symptom>, patientAge: int, patientGender: string)
    requires symptoms != []
    requires forall i :: 0 <= i < |symptoms| ==> 1 <= symptoms[i].severity <= 5
    ensures var r := Predict(symptoms, patientAge, patientGender);
            r.Ok? && 0.0 <= r.value.confidenceScore <= 1.0
  {
    var xs := Severities(symptoms);
    VarianceAtMostFour(xs);
  }

  /** The confidence score is exactly 1 iff all severities are equal. */
  lemma {:induction false} ConfidenceOneIffUniform(symptoms: seq<Symptom>, patientAge: int, patientGender: string)
    requires symptoms != []
    ensures var r := Predict(symptoms, patientAge, patientGender);
            r.Ok? &&
            (r.value.confidenceScore == 1.0 <==>
               forall i, j :: 0 <= i < |symptoms| && 0 <= j < |symptoms| ==>
                 symptoms[i].severity == symptoms[j].severity)
  {
    var xs := Severities(symptoms);
    VarianceZeroIffUniform(xs);
    assert Confidence(xs) == 1.0 <==> Variance(xs) == 0.0;
  }

  /** The bound 4 is reached: one symptom at 1 and one at 5 give confidence 0. */
  lemma {:induction false} ConfidenceZeroAttained(patientAge: int, patientGender: string)
    ensures var r := Predict([Symptom("a", 1, None), Symptom("b", 5, None)], patientAge, patientGender);
            r.Ok? && r.value.confidenceScore == 0.0
  {
    var xs := Severities([Symptom("a", 1, None), Symptom("b", 5, None)]);
    assert xs == [1, 5];
    assert Sum(xs) == 6;
    assert Mean(xs) == 3.0;
    assert SquaredDeviations(xs, 3.0) == 8.0;
  }

  /** Off the 1..5 scale the score can go below 0: severities 1 and 9 have
      variance 16 and get confidence -3. */
  lemma {:induction false} ConfidenceNegativeOffScale(patientAge: int, patientGender: string)
    ensures var r := Predict([Symptom("a", 1, None), Symptom("b", 9, None)], patientAge, patientGender);
            r.Ok? && r.value.confidenceScore == -3.0
  {
    var xs := Severities([Symptom("a", 1, None), Symptom("b", 9, None)]);
    assert xs == [1, 9];
    assert Sum(xs) == 10;
    assert Mean(xs) == 5.0;
    assert SquaredDeviations(xs, 5.0) == 32.0;
  }

  // ---------------------------------------------------------------------
  // Guidance tables
  // ---------------------------------------------------------------------

  const ActionsTable: map<string, seq<string>> := map[
    "Critical" := [
      "Immediate life support measures",
      "Prepare for emergency transport",
      "Alert receiving facility",
      "Continuous vital signs monitoring"],
    "Urgent" := [
      "Rapid assessment and stabilization",
      "Prepare for urgent transport",
      "Monitor vital signs every 5 minutes",
      "Establish IV access"],
    "Semi-urgent" := [
      "Comprehensive assessment",
      "Prepare for non-emergency transport",
      "Monitor vital signs every 15 minutes",
      "Provide comfort measures"],
    "Non-urgent" := [
      "Basic assessment",
      "Schedule routine transport",
      "Monitor vital signs every 30 minutes",
      "Provide basic care"]
  ]

  /** The ordered list of actions for a level; empty for any other string. */
  function RecommendedActions(level: string): (actions: seq<string>)
    ensures level in SeverityLevels <==> |actions| == 4
    ensures level !in SeverityLevels <==> actions == []
    ensures level == "Critical" ==> actions[0] == "Immediate life support measures"
  {
    if level in ActionsTable then ActionsTable[level] else []
  }

  const TimesTable: map<string, string> := map[
    "Critical" := "Immediate",
    "Urgent" := "Within 10 minutes",
    "Semi-urgent" := "Within 30 minutes",
    "Non-urgent" := "Within 1 hour"
  ]

  /** The time string used for a level the table does not know. */
  const DefaultTime: string := "Within 1 hour"

  /** The time-to-treatment target for a level. Each of the three higher
      levels has its own string; Non-urgent and every unrecognised string
      share "Within 1 hour". */
  function TimeToTreatment(level: string): (t: string)
    ensures t == "Immediate" <==> level == "Critical"
    ensures t == "Within 10 minutes" <==> level == "Urgent"
    ensures t == "Within 30 minutes" <==> level == "Semi-urgent"
    ensures t == "Within 1 hour" <==> level !in ["Critical", "Urgent", "Semi-urgent"]
  {
    if level in TimesTable then TimesTable[level] else DefaultTime
  }

  /** Every level `Predict` can return is a key of both guidance tables, so
      guidance for a prediction never falls back to a default. */
  lemma {:induction false} PredictionHasGuidance(symptoms: seq<Symptom>, patientAge: int, patientGender: string)
    requires symptoms != []
    ensures var r := Predict(symptoms, patientAge, patientGender);
            r.Ok? &&
            |RecommendedActions(r.value.severityLevel)| == 4 &&
            r.value.severityLevel in TimesTable
  {
  }
}
