/** The progress bar of the plan display: ten cells, `floor(percentage / 10)`
    of them filled. */
module Display {
  import opened Wrappers
  import opened Text

  /** `"█".repeat(f) + "░".repeat(10 - f)` with `f = Math.floor(percentage / 10)`;
      `repeat` throws a `RangeError` (None) on a negative count. */
  function ProgressBar(percentage: int): (bar: Option<string>)
    ensures bar.None? <==> percentage < 0 || percentage >= 110
    ensures bar.Some? ==> |bar.value| == 10
    ensures bar.Some? ==> forall i :: 0 <= i < 10 ==> (bar.value[i] == '█' <==> i < percentage / 10)
    ensures bar.Some? ==> forall i :: 0 <= i < 10 ==> (bar.value[i] == '░' <==> i >= percentage / 10)
  {
    var filled := percentage / 10;
    if filled < 0 || 10 - filled < 0 then None
    else Some(Repeat('█', filled) + Repeat('░', 10 - filled))
  }

  /** A percentage in range always renders, with `p / 10` filled cells: none
      at 0 and all ten at 100. */
  lemma ProgressBarOfPercentage(percentage: int)
    requires 0 <= percentage <= 100
    ensures ProgressBar(percentage).Some?
    ensures percentage == 0 ==> ProgressBar(percentage).value == Repeat('░', 10)
    ensures percentage == 100 ==> ProgressBar(percentage).value == Repeat('█', 10)
  {
    var bar := ProgressBar(percentage).value;
    if percentage == 0 {
      assert bar == Repeat('░', 10);
    }
    if percentage == 100 {
      assert bar == Repeat('█', 10);
    }
  }
}
