/**
 * What the three main windows share: the hand-off of a queued job to a new
 * VideoGenerator, the panel queues they gather, and how many times a
 * generator's signals call back into start_next_render.
 */
module RenderChain {
  import opened Wrappers
  import opened Jobs
  import opened Panels
  import opened Generation

  /** The VideoGenerator arguments start_next_render takes from a job and the window. */
  function ToRequest(job: Job, outputDir: string): (r: Request)
    ensures WellFormed(job) ==> r.projectName != "" && r.sequenceNumber >= 1 && 1 <= r.numVideos <= 10
    ensures r.outputDir == outputDir
  {
    Request(job.text, job.inferenceSteps, job.guidanceScale, job.numFrames,
            job.projectName, job.sequenceNumber, outputDir, job.numVideos)
  }

  /** The render queue of every panel, in panel order. */
  ghost function QueuesOf(ps: seq<PromptPanel>): (qs: seq<seq<Job>>)
    reads ps
    ensures |qs| == |ps|
    ensures forall i :: 0 <= i < |ps| ==> qs[i] == ps[i].renderQueue
  {
    seq(|ps|, i requires 0 <= i < |ps| reads ps => ps[i].renderQueue)
  }

  /** What the time-estimate label says: "N/A", or the generator's last estimate. */
  datatype Eta = NotAvailable | Remaining(seconds: real)

  /**
   * The signals of a run that reach a main-window slot ending in
   * start_next_render: in autoplay both video_generated (through show_video)
   * and finished do; in cineboard and text-to-video.py video_generated only
   * opens a player, whose closing calls start_next_render later.
   */
  function RenderTriggers(effects: seq<Effect>): nat {
    |VideoPaths(effects)| + |Collect(effects, FinishOf)|
  }

  /**
   * A run whose every video completes sends video_generated once per video
   * and then finished, so autoplay's window, which answers both with
   * start_next_render, dequeues numVideos + 1 further jobs; a run that stops
   * early sends one trigger per completed video and no finished.
   */
  lemma RunTriggers(v: Variant, req: Request, loaded: bool, attempts: seq<Attempt>)
    requires req.numVideos <= |attempts|
    ensures var all := loaded && forall i :: 0 <= i < req.numVideos ==> Completes(v, attempts[i]);
      RenderTriggers(Trace(v, req, loaded, attempts))
      == CompletedCount(v, req, loaded, attempts) + (if all then 1 else 0)
  {
    var t := Trace(v, req, loaded, attempts);
    TraceContents(v, req, loaded, attempts);
    if loaded {
      FinishFrom(v, req, attempts, 0);
    }
  }

  /** In particular a job of k videos that all complete triggers k + 1 dequeues. */
  lemma CompletedJobTriggers(v: Variant, req: Request, attempts: seq<Attempt>)
    requires req.numVideos <= |attempts|
    requires forall i :: 0 <= i < req.numVideos ==> Completes(v, attempts[i])
    ensures RenderTriggers(Trace(v, req, true, attempts)) == req.numVideos + 1
  {
    RunTriggers(v, req, true, attempts);
  }
}
