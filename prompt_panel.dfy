/**
 * One input panel of autoplay/ui/prompt_panel.py (the same class is repeated
 * in text-to-video.py): it validates a request, numbers it with its own
 * sequence counter and keeps it in its own render queue until the main window
 * gathers it.
 */
module Panels {
  import opened Wrappers
  import opened Text
  import opened Jobs

  /** The queue list entry f"{project_name}_{sequence}". */
  function ListLabel(projectName: string, sequence: nat): (entry: string)
    ensures |entry| > |projectName| + 1 && entry[..|projectName| + 1] == projectName + "_"
    ensures entry[|projectName| + 1..] == NatToString(sequence)
  {
    projectName + "_" + NatToString(sequence)
  }

  /** The guidance label text f"{value}.0" for a slider position. */
  function GuidanceText(value: nat): (text: string)
    ensures |text| >= 3 && IsDigit(text[0]) && text[|text| - 2..] == ".0"
  {
    NatToString(value) + ".0"
  }

  /** The guidance label shows the slider position: reading its number back gives the value, then ".0". */
  lemma GuidanceTextReadsBack(value: nat)
    ensures ParseNat(GuidanceText(value)) == Some((value, ".0"))
  {
    ParseNatToString(value, ".0");
  }

  /** Two list entries of one project differ exactly when their sequence numbers differ. */
  lemma ListLabelsDistinct(projectName: string, s: nat, t: nat)
    ensures ListLabel(projectName, s) == ListLabel(projectName, t) <==> s == t
  {
    if ListLabel(projectName, s) == ListLabel(projectName, t) {
      var prefix := |projectName| + 1;
      assert ListLabel(projectName, s)[prefix..] == NatToString(s);
      assert ListLabel(projectName, t)[prefix..] == NatToString(t);
      NatToStringInjective(s, t);
    }
  }

  /**
   * The jobs waiting in a panel's queue are the newest ones it accepted:
   * their sequence numbers run consecutively up to the counter.
   */
  ghost predicate Consecutive(q: seq<Job>, last: nat) {
    && |q| <= last
    && forall i :: 0 <= i < |q| ==> q[i].sequenceNumber == last - |q| + 1 + i
  }

  /** Queued sequence numbers are positive, strictly increasing and at most the counter. */
  lemma ConsecutiveIncreasing(q: seq<Job>, last: nat)
    requires Consecutive(q, last)
    ensures forall i :: 0 <= i < |q| ==> 1 <= q[i].sequenceNumber <= last
    ensures forall i, j :: 0 <= i < j < |q| ==> q[i].sequenceNumber < q[j].sequenceNumber
  {
  }

  /** Accepting one more job keeps the numbering consecutive. */
  lemma ConsecutiveSnoc(q: seq<Job>, last: nat, j: Job)
    requires Consecutive(q, last) && j.sequenceNumber == last + 1
    ensures Consecutive(q + [j], last + 1)
  {
  }

  /** A panel whose queue and list were just cleared is consistent, whatever its counter. */
  lemma EmptiedPanelValid(p: PromptPanel)
    requires p.renderQueue == [] && p.queueList == []
    ensures p.Valid()
  {
  }

  class PromptPanel {
    const panelId: nat
    var renderQueue: seq<Job>
    var currentSequence: nat
    /** The texts shown in the panel's queue list widget. */
    var queueList: seq<string>
    var guidanceLabel: string

    ghost predicate Valid()
      reads this
    {
      && Consecutive(renderQueue, currentSequence)
      && |queueList| == |renderQueue|
      && forall i :: 0 <= i < |renderQueue| ==>
           && renderQueue[i].panelId == panelId
           && WellFormed(renderQueue[i])
           && queueList[i] == ListLabel(renderQueue[i].projectName, renderQueue[i].sequenceNumber)
    }

    constructor (id: nat)
      ensures Valid()
      ensures panelId == id && renderQueue == [] && queueList == [] && currentSequence == 0
      ensures guidanceLabel == GuidanceText(7)
    {
      panelId := id;
      renderQueue := [];
      currentSequence := 0;
      queueList := [];
      guidanceLabel := "7.0";
    }

    /** The slider's valueChanged handler. */
    method UpdateGuidanceLabel(value: nat)
      requires 1 <= value <= 20
      modifies this
      ensures guidanceLabel == GuidanceText(value)
      ensures renderQueue == old(renderQueue) && queueList == old(queueList)
      ensures currentSequence == old(currentSequence)
    {
      guidanceLabel := NatToString(value) + ".0";
    }

    /**
     * The "Add to Queue" handler, given what the widgets hold. A request with
     * an empty project name or prompt is refused with no change; otherwise the
     * counter advances and the job, numbered with it, joins the end of the queue.
     */
    method AddToQueue(projectName: string, text: string, steps: int, guidance: int, frames: int, videos: nat)
      returns (accepted: bool)
      requires Valid()
      requires InWidgetRanges(steps, guidance, frames, videos)
      modifies this
      ensures Valid()
      ensures accepted <==> projectName != "" && text != ""
      ensures !accepted ==>
        && renderQueue == old(renderQueue) && queueList == old(queueList)
        && currentSequence == old(currentSequence)
      ensures accepted ==>
        && currentSequence == old(currentSequence) + 1
        && renderQueue == old(renderQueue)
             + [Job(panelId, projectName, text, steps, guidance, frames, currentSequence, videos)]
        && queueList == old(queueList) + [ListLabel(projectName, currentSequence)]
      ensures guidanceLabel == old(guidanceLabel)
    {
      if projectName == "" || text == "" {
        return false;
      }
      currentSequence := currentSequence + 1;
      var item := Job(panelId, projectName, text, steps, guidance, frames, currentSequence, videos);
      ConsecutiveSnoc(renderQueue, currentSequence - 1, item);
      renderQueue := renderQueue + [item];
      queueList := queueList + [projectName + "_" + NatToString(currentSequence)];
      accepted := true;
    }
  }
}
