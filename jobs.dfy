/**
 * The render job record that a prompt panel queues and a main window hands to
 * a video generator, and the ranges its numeric fields come from.
 */
module Jobs {

  /** The dictionary PromptPanel.add_to_queue builds for one request. */
  datatype Job = Job(
    panelId: nat,
    projectName: string,
    text: string,
    inferenceSteps: int,
    guidanceScale: int,
    numFrames: int,
    sequenceNumber: nat,
    numVideos: nat)

  /** The ranges the panel's spin boxes and slider allow. */
  predicate InWidgetRanges(steps: int, guidance: int, frames: int, videos: int) {
    && 1 <= steps <= 100
    && 1 <= guidance <= 20
    && 1 <= frames <= 100
    && 1 <= videos <= 10
  }

  /** What every job a panel accepts satisfies. */
  predicate WellFormed(j: Job) {
    && j.projectName != ""
    && j.text != ""
    && InWidgetRanges(j.inferenceSteps, j.guidanceScale, j.numFrames, j.numVideos)
    && j.sequenceNumber >= 1
  }

  /** The lists in order, one after another (what repeated list.extend builds). */
  function Flatten<T>(qs: seq<seq<T>>): (all: seq<T>)
    ensures qs != [] ==> |all| >= |qs[0]| && all[..|qs[0]|] == qs[0]
    decreases |qs|
  {
    if qs == [] then [] else qs[0] + Flatten(qs[1..])
  }

  /** Appending one more list at the end appends its items at the end. */
  lemma {:induction false} FlattenSnoc<T>(qs: seq<seq<T>>, q: seq<T>)
    ensures Flatten(qs + [q]) == Flatten(qs) + q
    decreases |qs|
  {
    if qs == [] {
      assert [] + [q] == [q];
    } else {
      assert (qs + [q])[1..] == qs[1..] + [q];
      FlattenSnoc(qs[1..], q);
    }
  }

  lemma AppendAssoc<T>(a: seq<T>, b: seq<T>, c: seq<T>)
    ensures (a + b) + c == a + (b + c)
  {
  }

  /** The lists up to position i + 1 are those up to i followed by list i. */
  lemma FlattenPrefix<T>(qs: seq<seq<T>>, i: nat)
    requires i < |qs|
    ensures Flatten(qs[..i + 1]) == Flatten(qs[..i]) + qs[i]
  {
    assert qs[..i + 1] == qs[..i] + [qs[i]];
    FlattenSnoc(qs[..i], qs[i]);
  }

  /** Every item of the flattened list comes from one of the lists, and keeps its properties. */
  lemma {:induction false} FlattenAll(qs: seq<seq<Job>>)
    requires forall i, k :: 0 <= i < |qs| && 0 <= k < |qs[i]| ==> WellFormed(qs[i][k])
    ensures forall k :: 0 <= k < |Flatten(qs)| ==> WellFormed(Flatten(qs)[k])
    decreases |qs|
  {
    if qs != [] {
      FlattenAll(qs[1..]);
      var f := Flatten(qs);
      forall k | 0 <= k < |f| ensures WellFormed(f[k]) {
        if k >= |qs[0]| {
          assert f[k] == Flatten(qs[1..])[k - |qs[0]|];
        }
      }
    }
  }
}
