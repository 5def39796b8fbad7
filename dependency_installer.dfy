/**
 * DependencyInstaller.run of autoplay/core/dependency_installer.py (repeated
 * in text-to-video.py): pip-installs nine packages in a fixed order,
 * reporting progress after each, and announces finished only when all of them
 * installed. pip itself is an input: whether each install call succeeds.
 */
module Installer {
  import opened Estimates

  const Dependencies: seq<string> := [
    "torch",
    "torchvision",
    "torchaudio",
    "transformers",
    "diffusers>=0.30.0",
    "accelerate",
    "moviepy",
    "opencv-python",
    "sentencepiece"
  ]

  /** The index of the first install that fails, or the number of installs when none does. */
  function FirstFailure(succeeds: seq<bool>): (k: nat)
    ensures k <= |succeeds|
    ensures forall i :: 0 <= i < k ==> succeeds[i]
    ensures k < |succeeds| ==> !succeeds[k]
    decreases |succeeds|
  {
    if succeeds == [] || !succeeds[0] then 0 else 1 + FirstFailure(succeeds[1..])
  }

  /**
   * One run of the installer thread. `succeeds[i]` says whether the pip call
   * for Dependencies[i] returns normally. Returns the packages pip was asked to
   * install, the progress values emitted, and whether finished was emitted.
   */
  method Run(succeeds: seq<bool>) returns (attempted: seq<string>, progress: seq<int>, finished: bool)
    requires |succeeds| == |Dependencies|
    ensures FirstFailure(succeeds) < |Dependencies| ==> attempted == Dependencies[..FirstFailure(succeeds) + 1]
    ensures FirstFailure(succeeds) == |Dependencies| ==> attempted == Dependencies
    ensures |progress| == FirstFailure(succeeds)
    ensures forall i :: 0 <= i < |progress| <= |Dependencies| ==> progress[i] == Percent(i + 1, |Dependencies|)
    ensures finished <==> forall i :: 0 <= i < |succeeds| ==> succeeds[i]
    ensures forall i, j :: 0 <= i < j < |progress| ==> progress[i] < progress[j]
    ensures finished ==> |progress| == |Dependencies| && progress[|progress| - 1] == 100
  {
    var total := |Dependencies|;
    attempted, progress, finished := [], [], false;
    var i := 0;
    while i < total
      invariant 0 <= i <= total
      invariant forall j :: 0 <= j < i ==> succeeds[j]
      invariant attempted == Dependencies[..i]
      invariant |progress| == i
      invariant forall j :: 0 <= j < i ==> progress[j] == Percent(j + 1, total)
    {
      attempted := attempted + [Dependencies[i]];
      if !succeeds[i] {
        // CalledProcessError: logged, the loop stops and finished is not emitted
        assert attempted == Dependencies[..i + 1];
        assert FirstFailure(succeeds) == i;
        ProgressIncreasing(progress, total);
        return;
      }
      progress := progress + [Percent(i + 1, total)];
      assert attempted == Dependencies[..i + 1];
      i := i + 1;
    }
    assert FirstFailure(succeeds) == total;
    ProgressIncreasing(progress, total);
    finished := true;
  }

  /** Progress values of the first installs, one per install, rise strictly. */
  lemma ProgressIncreasing(progress: seq<int>, total: nat)
    requires |progress| <= total <= 100
    requires forall j :: 0 <= j < |progress| ==> progress[j] == Percent(j + 1, total)
    ensures forall a, b :: 0 <= a < b < |progress| ==> progress[a] < progress[b]
  {
    forall a, b | 0 <= a < b < |progress| ensures progress[a] < progress[b] {
      PercentStrictlyIncreasing(a + 1, b + 1, total);
    }
  }
}
