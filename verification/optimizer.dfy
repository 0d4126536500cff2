/** The 'auto' compression optimiser every item runs per field: three trial
    runs in the order none, run_length, lz77, where a trial replaces the best
    so far only when its size is strictly smaller. */
module Optimizer {
  import opened Common
  import opened Util

  /** The order in which the candidates are tried. */
  const Candidates: seq<Compression> := [Uncompressed, RunLength, Lz77]

  /** The position of a resolved setting in the trial order. */
  function Rank(c: Compression): (k: nat)
    requires c != Auto
    ensures k < |Candidates| && Candidates[k] == c
  {
    match c
    case Uncompressed => 0
    case RunLength => 1
    case Lz77 => 2
  }

  /** A finished trial: the setting tried and the total size grit reported. */
  datatype Trial = Trial(compression: Compression, size: int)

  /** One `__test_*_compression` step: the new trial wins when there is no
      best yet or when it is strictly smaller; on a tie the earlier one stays. */
  function Keep(best: Option<Trial>, candidate: Trial): (r: Trial)
    ensures r == candidate || (best.Some? && r == best.value)
    ensures r.size <= candidate.size
    ensures best.Some? ==> r.size <= best.value.size
    ensures best.Some? && candidate.size == best.value.size ==> r == best.value
  {
    if best.None? || candidate.size < best.value.size then candidate else best.value
  }

  /** The setting `process` uses for one field: an explicit setting as it is;
      'auto' the winner of the three trials, where `trial` is the size of a
      run with that field set to the candidate. A failed trial aborts the
      choice with its error. */
  function Choose(setting: Compression, trial: Compression -> Result<int>): (r: Result<Compression>)
    ensures setting != Auto ==> r == Ok(setting)
    ensures r.Ok? ==> r.value != Auto
  {
    if setting != Auto then Ok(setting)
    else
      var none :- trial(Uncompressed);
      var runLength :- trial(RunLength);
      var lz77 :- trial(Lz77);
      var best := Keep(Some(Keep(Some(Keep(None, Trial(Uncompressed, none))), Trial(RunLength, runLength))), Trial(Lz77, lz77));
      Ok(best.compression)
  }

  /** 'auto' settles on a candidate whose trial is no larger than any other,
      and strictly smaller than every candidate tried before it. */
  lemma {:induction false} ChooseIsSmallest(trial: Compression -> Result<int>)
    requires Choose(Auto, trial).Ok?
    ensures var chosen := Choose(Auto, trial).value;
            trial(chosen).Ok? &&
            (forall c | c in Candidates :: trial(c).Ok? && trial(chosen).value <= trial(c).value) &&
            (forall c | c in Candidates && Rank(c) < Rank(chosen) :: trial(chosen).value < trial(c).value)
  {
    assert Candidates == [Uncompressed, RunLength, Lz77];
  }

  /** 'auto' fails exactly when a trial fails, with the error of the first
      failing one. */
  lemma {:induction false} ChooseFailsOnFirstFailure(trial: Compression -> Result<int>)
    ensures Choose(Auto, trial).Err? <==> exists c | c in Candidates :: trial(c).Err?
    ensures Choose(Auto, trial).Err? ==>
              exists k | 0 <= k < |Candidates| :: trial(Candidates[k]) == Err(Choose(Auto, trial).error) &&
                forall j | 0 <= j < k :: trial(Candidates[j]).Ok?
  {
    assert Candidates[0] == Uncompressed && Candidates[1] == RunLength && Candidates[2] == Lz77;
  }

  /** The reassignment chain of `process` for one field. */
  method Optimise(setting: Compression, trial: Compression -> Result<int>) returns (r: Result<Compression>)
    ensures r == Choose(setting, trial)
  {
    if setting != Auto {
      return Ok(setting);
    }
    var size := trial(Uncompressed);
    if size.Err? {
      return Err(size.error);
    }
    var best := Keep(None, Trial(Uncompressed, size.value));
    size := trial(RunLength);
    if size.Err? {
      return Err(size.error);
    }
    best := Keep(Some(best), Trial(RunLength, size.value));
    size := trial(Lz77);
    if size.Err? {
      return Err(size.error);
    }
    best := Keep(Some(best), Trial(Lz77, size.value));
    return Ok(best.compression);
  }

  /** Equal sizes everywhere keep the first candidate, 'none'. */
  lemma ChooseTieKeepsNone(trial: Compression -> Result<int>, size: int)
    requires forall c | c in Candidates :: trial(c) == Ok(size)
    ensures Choose(Auto, trial) == Ok(Uncompressed)
  {
  }
}
