/**
 * The NEP training-file writer (PQAnalysis/io/nep/nep_writer.py): how the
 * frames are split into training, test and validation portions, and the
 * checks made before one atomic system is written. File handles, the
 * random shuffling of frame indices and the text of the frames are not
 * part of this model.
 */
module NepWriter {

  import opened Common

  // ---------------------------------------------------------------------
  // Numbers

  /** `np.isclose(x, 0.0)` with numpy's default absolute tolerance 1e-8. */
  predicate IsCloseToZero(x: real)
  {
    -0.00000001 <= x <= 0.00000001
  }

  /** `int(np.ceil(x))`. */
  function Ceil(x: real): (c: int)
    ensures x <= c as real < x + 1.0
  {
    -((-x).Floor)
  }

  // ---------------------------------------------------------------------
  // The total_ratios argument

  /** Python's `float()` on a field: surrounding blanks are allowed. */
  function Float(field: string): Option<real>
  {
    ParseReal(Strip(field))
  }

  /** The train, test and validation weights given by `total_ratios`. */
  datatype Weights = Weights(train: real, test: real, validation: real)

  /**
   * `total_ratios.split(":")`: two fields are train and test with no
   * validation, three add validation; any other count is a NEPError, and a
   * field `float()` rejects is a ValueError.
   */
  function ParseWeights(totalRatios: string): (r: Result<Weights>)
    ensures |Split(totalRatios, ':')| !in {2, 3} <==> r == Err("NEPError")
    ensures r.Ok? ==> var f := Split(totalRatios, ':');
              && Float(f[0]) == Some(r.value.train) && Float(f[1]) == Some(r.value.test)
              && (|f| == 3 ==> Float(f[2]) == Some(r.value.validation))
              && (|f| == 2 ==> r.value.validation == 0.0)
    ensures r.Err? && |Split(totalRatios, ':')| in {2, 3} ==> r.error == "ValueError"
  {
    var f := Split(totalRatios, ':');
    if |f| == 2 then
      if Float(f[0]).None? || Float(f[1]).None? then Err("ValueError")
      else Ok(Weights(Float(f[0]).value, Float(f[1]).value, 0.0))
    else if |f| == 3 then
      if Float(f[0]).None? || Float(f[1]).None? || Float(f[2]).None? then Err("ValueError")
      else Ok(Weights(Float(f[0]).value, Float(f[1]).value, Float(f[2]).value))
    else Err("NEPError")
  }

  // ---------------------------------------------------------------------
  // _setup_frame_splitting_for_training

  /** The test and validation ratios the writer keeps. */
  datatype Ratios = Ratios(test: real, validation: real)

  /**
   * The checks after the ratios are known: a test ratio above 1 is a
   * NEPError, and so are validation frames without test frames.
   */
  function CheckRatios(test: real, validation: real): (r: Result<Ratios>)
    ensures r.Ok? <==> test <= 1.0 && (IsCloseToZero(test) ==> IsCloseToZero(validation))
    ensures r.Ok? ==> r.value == Ratios(test, validation)
    ensures r.Err? ==> r.error == "NEPError"
  {
    if test > 1.0 then Err("NEPError")
    else if IsCloseToZero(test) && !IsCloseToZero(validation) then Err("NEPError")
    else Ok(Ratios(test, validation))
  }

  /**
   * The weights as fractions of their sum; a zero sum is Python's
   * ZeroDivisionError.
   */
  function Fractions(w: Weights): (r: Result<(real, real)>)
    ensures r.Err? <==> w.train + w.test + w.validation == 0.0
    ensures r.Err? ==> r.error == "ZeroDivisionError"
  {
    var sum := w.train + w.test + w.validation;
    if sum == 0.0 then Err("ZeroDivisionError") else Ok((Share(w.test, sum), Share(w.validation, sum)))
  }

  /** `part / whole` as Python's true division. */
  function Share(part: real, whole: real): real
    requires whole != 0.0
  {
    part / whole
  }

  /** Each share times the sum of the weights gives back its weight. */
  lemma FractionsScale(w: Weights)
    requires Fractions(w).Ok?
    ensures Fractions(w).value.0 * (w.train + w.test + w.validation) == w.test
    ensures Fractions(w).value.1 * (w.train + w.test + w.validation) == w.validation
  {
  }

  /**
   * `_setup_frame_splitting_for_training` as written: without
   * `total_ratios` all three weights stay 0.0, so the ratios are 0.0 / 0.0.
   */
  function SplittingAsWritten(testRatio: real, totalRatios: Option<string>): Result<Ratios>
  {
    if !IsCloseToZero(testRatio) && totalRatios.Some? then Err("NEPError")
    else
      var weights := if totalRatios.None? then Ok(Weights(0.0, 0.0, 0.0)) else ParseWeights(totalRatios.value);
      match weights
      case Err(e) => Err(e)
      case Ok(w) =>
        match Fractions(w)
        case Err(e) => Err(e)
        case Ok(q) => CheckRatios(q.0, q.1)
  }

  /**
   * The setup as written fails for every call without `total_ratios`, which
   * is exactly how `write_from_files` calls it when only a test ratio is
   * given.
   */
  lemma SplittingAsWrittenRejectsTestRatio(testRatio: real)
    ensures SplittingAsWritten(testRatio, None) == Err("ZeroDivisionError")
  {
    assert Fractions(Weights(0.0, 0.0, 0.0)) == Err("ZeroDivisionError");
  }

  /**
   * The ratios before they are checked, with the evident intent: a test
   * ratio given on its own is used as it is, with no validation frames;
   * `total_ratios` gives each weight's share of their sum.
   */
  function Quotients(testRatio: real, totalRatios: Option<string>): (r: Result<(real, real)>)
    ensures !IsCloseToZero(testRatio) && totalRatios.Some? ==> r == Err("NEPError")
    ensures totalRatios.None? ==> r == Ok((testRatio, 0.0))
  {
    if !IsCloseToZero(testRatio) && totalRatios.Some? then Err("NEPError")
    else if totalRatios.None? then Ok((testRatio, 0.0))
    else
      match ParseWeights(totalRatios.value)
      case Err(e) => Err(e)
      case Ok(w) => Fractions(w)
  }

  /** `_setup_frame_splitting_for_training` with the evident intent. */
  function Splitting(testRatio: real, totalRatios: Option<string>): (r: Result<Ratios>)
    ensures !IsCloseToZero(testRatio) && totalRatios.Some? ==> r == Err("NEPError")
    ensures r.Ok? ==> r.value.test <= 1.0 && (IsCloseToZero(r.value.test) ==> IsCloseToZero(r.value.validation))
    ensures totalRatios.None? ==> (r.Ok? <==> testRatio <= 1.0)
    ensures totalRatios.None? && r.Ok? ==> r.value == Ratios(testRatio, 0.0)
  {
    match Quotients(testRatio, totalRatios)
    case Err(e) => Err(e)
    case Ok(q) => CheckRatios(q.0, q.1)
  }

  /** `total_ratios` with other than two or three fields is a NEPError. */
  lemma FieldCountChecked(testRatio: real, totalRatios: string)
    requires |Split(totalRatios, ':')| !in {2, 3}
    ensures Splitting(testRatio, Some(totalRatios)) == Err("NEPError")
  {
    assert ParseWeights(totalRatios) == Err("NEPError");
  }

  /** Given `total_ratios`, the corrected setup is the one as written. */
  lemma SplittingAgreesWithTotalRatios(testRatio: real, totalRatios: string)
    ensures Splitting(testRatio, Some(totalRatios)) == SplittingAsWritten(testRatio, Some(totalRatios))
  {
  }

  /**
   * With non-negative weights, the test and validation ratios are
   * fractions of the whole that leave the training fraction non-negative.
   */
  lemma RatiosAreFractions(testRatio: real, totalRatios: string)
    requires Splitting(testRatio, Some(totalRatios)).Ok?
    requires ParseWeights(totalRatios).Ok?
    requires var w := ParseWeights(totalRatios).value; w.train >= 0.0 && w.test >= 0.0 && w.validation >= 0.0
    ensures var q := Splitting(testRatio, Some(totalRatios)).value;
            0.0 <= q.test && 0.0 <= q.validation && q.test + q.validation <= 1.0
  {
    var w := ParseWeights(totalRatios).value;
    assert Quotients(testRatio, Some(totalRatios)) == Fractions(w);
    FractionsBounded(w);
  }

  /** Non-negative weights give shares in [0, 1] that add up to at most 1. */
  lemma FractionsBounded(w: Weights)
    requires w.train >= 0.0 && w.test >= 0.0 && w.validation >= 0.0
    requires Fractions(w).Ok?
    ensures var q := Fractions(w).value; 0.0 <= q.0 && 0.0 <= q.1 && q.0 + q.1 <= 1.0
  {
    var q := Fractions(w).value;
    var sum := w.train + w.test + w.validation;
    FractionsScale(w);
    FractionBounds(w.test, sum, q.0);
    FractionBounds(w.validation, sum, q.1);
    FractionBounds(w.test + w.validation, sum, q.0 + q.1);
  }

  /** A part of a positive whole, divided by it, lies in [0, 1]. */
  lemma FractionBounds(part: real, sum: real, q: real)
    requires 0.0 <= part <= sum && sum > 0.0 && q * sum == part
    ensures 0.0 <= q <= 1.0
  {
  }

  /** "3:1" gives a test ratio of one quarter and no validation frames. */
  lemma ThreeToOneExample(ratios: string)
    requires ratios == "3:1"
    ensures Splitting(0.0, Some(ratios)) == Ok(Ratios(0.25, 0.0))
  {
    var w := Weights(3.0, 1.0, 0.0);
    ThreeToOneWeights(ratios);
    assert Quotients(0.0, Some(ratios)) == Fractions(w);
    var sum := w.train + w.test + w.validation;
    assert sum == 4.0;
    assert Fractions(w) == Ok((Share(1.0, sum), Share(0.0, sum)));
    assert Share(1.0, sum) == 0.25 && Share(0.0, sum) == 0.0;
    assert !IsCloseToZero(0.25);
  }

  /** "3:1" weighs training 3 and test 1. */
  lemma ThreeToOneWeights(ratios: string)
    requires ratios == "3:1"
    ensures ParseWeights(ratios) == Ok(Weights(3.0, 1.0, 0.0))
  {
    ThreeToOneFields(ratios);
    SingleDigitFloat('3');
    SingleDigitFloat('1');
    assert ['3'] == "3" && ['1'] == "1";
  }

  /** "3:1" splits into "3" and "1". */
  lemma ThreeToOneFields(ratios: string)
    requires ratios == "3:1"
    ensures Split(ratios, ':') == ["3", "1"]
  {
    assert Find("1", ':') == 1 by {
      assert Find("", ':') == 0;
    }
    assert Split("1", ':') == ["1"];
    assert Find(ratios, ':') == 1 by {
      assert ratios[1..] == ":1";
      assert Find(":1", ':') == 0;
    }
    assert ratios[..1] == "3" && ratios[2..] == "1";
  }

  /** One digit reads as its value. */
  lemma SingleDigitFloat(d: char)
    requires IsDigit(d)
    ensures Float([d]) == Some(DigitValue(d) as real)
  {
    var s := [d];
    assert !IsSpace(d);
    assert Strip(s) == s;
    assert s[1..] == [];
    assert Unsigned(s, 0, 0, 0, false, false) == Unsigned([], DigitValue(d), 0, 0, false, true);
  }

  // ---------------------------------------------------------------------
  // The writer's state

  /** The checks `write_from_atomic_system` makes of one system. */
  datatype SystemData = SystemData(hasPos: bool, hasEnergy: bool, hasForces: bool, hasStress: bool, hasVirial: bool)

  /**
   * `write_from_atomic_system`: without a file nothing is written (false);
   * otherwise positions and an energy are required, forces, stress or
   * virial when asked for, and stress and virial are never both asked
   * for; then the frame is written (true).
   */
  function WriteGuard(hasFile: bool, s: SystemData, useForces: bool, useStress: bool, useVirial: bool): (r: Result<bool>)
    ensures r == Ok(false) <==> !hasFile
    ensures r.Err? <==> hasFile && (!s.hasPos || !s.hasEnergy || (useForces && !s.hasForces) || (useStress && useVirial)
                                    || (useStress && !s.hasStress) || (useVirial && !s.hasVirial))
    ensures r.Err? ==> r.error == "NEPError"
  {
    if !hasFile then Ok(false)
    else if !s.hasPos then Err("NEPError")
    else if !s.hasEnergy then Err("NEPError")
    else if useForces && !s.hasForces then Err("NEPError")
    else if useStress && useVirial then Err("NEPError")
    else if useStress && !s.hasStress then Err("NEPError")
    else if useVirial && !s.hasVirial then Err("NEPError")
    else Ok(true)
  }

  /** Asking for both stress and virial fails for every system, even a complete one. */
  lemma StressAndVirialExclusive(s: SystemData, useForces: bool)
    ensures WriteGuard(true, s, useForces, true, true) == Err("NEPError")
  {
  }

  /** The train, test and validation frame counts. */
  datatype Portions = Portions(train: int, test: int, validation: int)

  class Writer {
    /** The output file name, fixed at construction. */
    const filename: Option<string>
    var nTrainFrames: nat
    var nTestFrames: nat
    var nValidationFrames: nat
    var testRatio: real
    var validationRatio: real
    /** The `_train` and `_test` files are open. */
    var splitFiles: bool
    /** The `_validation` and `_validation.ref` files are open. */
    var validationFiles: bool

    /** `__init__`: no frames counted, both ratios 0.0 and no split files. */
    constructor (filename: Option<string>)
      ensures this.filename == filename
      ensures nTrainFrames == 0 && nTestFrames == 0 && nValidationFrames == 0
      ensures testRatio == 0.0 && validationRatio == 0.0
      ensures !splitFiles && !validationFiles
    {
      this.filename := filename;
      nTrainFrames, nTestFrames, nValidationFrames := 0, 0, 0;
      testRatio, validationRatio := 0.0, 0.0;
      splitFiles, validationFiles := false, false;
    }

    /**
     * `_setup_frame_splitting_for_training`, corrected as in `Splitting`:
     * the ratios are stored, and the test files are opened when the test
     * ratio is not 0, the validation files when the validation ratio is
     * not 0. A ratio check that fails leaves the ratios it computed stored;
     * the frame counters are untouched.
     */
    method SetupFrameSplitting(test: real, totalRatios: Option<string>) returns (r: Result<()>)
      modifies this`testRatio, this`validationRatio, this`splitFiles, this`validationFiles
      ensures var spec := Splitting(test, totalRatios);
              && (r.Ok? <==> spec.Ok?) && (r.Err? ==> r.error == spec.error)
              && (r.Ok? ==> && testRatio == spec.value.test && validationRatio == spec.value.validation
                            && splitFiles == !IsCloseToZero(spec.value.test)
                            && validationFiles == !IsCloseToZero(spec.value.validation))
    {
      var q := Quotients(test, totalRatios);
      if q.Err? {
        assert Splitting(test, totalRatios) == Err(q.error);
        return Err(q.error);
      }
      var (t, v) := q.value;
      testRatio, validationRatio := t, v;
      var checked := CheckRatios(t, v);
      assert Splitting(test, totalRatios) == checked;
      if checked.Err? {
        return Err(checked.error);
      }
      splitFiles := !IsCloseToZero(t);
      validationFiles := !IsCloseToZero(v);
      return Ok(());
    }

    /**
     * The start of `write_from_files`: splitting needs an output file name;
     * the splitting is set up when a test ratio or `total_ratios` is given,
     * and the frame counters start from 0.
     */
    method StartWriting(test: real, totalRatios: Option<string>) returns (r: Result<()>)
      modifies this
      ensures var splitting := !IsCloseToZero(test) || totalRatios.Some?;
              && (splitting && filename.None? ==> r == Err("NEPError"))
              && (splitting && filename.Some? ==> (r.Ok? <==> Splitting(test, totalRatios).Ok?))
              && (!splitting ==> r.Ok? && testRatio == old(testRatio) && validationRatio == old(validationRatio))
      ensures r.Ok? ==> nTrainFrames == 0 && nTestFrames == 0 && nValidationFrames == 0
    {
      if !IsCloseToZero(test) || totalRatios.Some? {
        if filename.None? {
          return Err("NEPError");
        }
        r := SetupFrameSplitting(test, totalRatios);
        if r.Err? {
          return r;
        }
      }
      nTrainFrames, nTestFrames, nValidationFrames := 0, 0, 0;
      return Ok(());
    }

    /**
     * `_get_effective_training_portions`: over all frames so far and the
     * new ones, the test and validation frames are the ratios' shares
     * rounded up, and training gets the rest.
     */
    function EffectivePortions(nFrames: nat, test: real, validation: real): (r: Portions)
      reads this
      ensures r.train + r.test + r.validation == nFrames + nTrainFrames + nTestFrames + nValidationFrames
      ensures var total := (nFrames + nTrainFrames + nTestFrames + nValidationFrames) as real;
              && total * test <= r.test as real < total * test + 1.0
              && total * validation <= r.validation as real < total * validation + 1.0
    {
      var total := nFrames + nTrainFrames + nTestFrames + nValidationFrames;
      var maxTest := Ceil(total as real * test);
      var maxValidation := Ceil(total as real * validation);
      Portions(total - maxTest - maxValidation, maxTest, maxValidation)
    }
  }

  /**
   * Rounding both shares up can leave training with fewer than no frames:
   * one frame split half test, half validation.
   */
  lemma NegativeTrainingPortion(w: Writer)
    requires w.nTrainFrames == 0 && w.nTestFrames == 0 && w.nValidationFrames == 0
    ensures w.EffectivePortions(1, 0.5, 0.5) == Portions(-1, 1, 1)
  {
    var p := w.EffectivePortions(1, 0.5, 0.5);
    assert p.test == 1 && p.validation == 1;
  }
}
