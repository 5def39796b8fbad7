/**
 * The main window of text-to-video.py: the single-file predecessor of the
 * two applications. It keeps its own render list instead of a QueueManager,
 * removes panels with a guarded remove_panel, and, like cineboard, starts
 * the next render when a player window finishes.
 */
module ScriptWindow {
  import opened Wrappers
  import opened Jobs
  import opened Panels
  import opened Generation
  import opened RenderChain

  class MainWindow {
    /** self.panels: panel i was built as PromptPanel(i). */
    var panels: seq<PromptPanel>
    var outputDir: string
    /** self.render_queue: the jobs gathered from the panels, oldest first. */
    var renderQueue: seq<Job>
    /**
     * The progress bar's value: the last value it accepted (range 0 to 100),
     * or -1, the reset state a new QProgressBar starts in.
     */
    var progressValue: int
    var eta: Eta
    /** How many DependencyInstaller threads process_all_queues has started. */
    var installsStarted: nat
    /** The request of the last VideoGenerator built, if any. */
    var generator: Option<Request>
    /** Every request a generator was built for, in order. */
    ghost var rendersStarted: seq<Request>
    /** The paths of the VideoPlayer windows show_video opened, in order. */
    var openPlayers: seq<string>

    ghost predicate Valid()
      reads this, panels
    {
      && (forall i :: 0 <= i < |panels| ==> panels[i].panelId == i && panels[i].Valid())
      && (forall k :: 0 <= k < |renderQueue| ==> WellFormed(renderQueue[k]))
    }

    /** init_ui: one empty panel, an empty queue, no output directory. */
    constructor ()
      ensures Valid()
      ensures |panels| == 1 && panels[0].renderQueue == []
      ensures outputDir == "" && renderQueue == [] && openPlayers == []
      ensures eta == NotAvailable && generator == None && installsStarted == 0 && progressValue == -1
    {
      var p := new PromptPanel(0);
      panels := [p];
      outputDir := "";
      renderQueue := [];
      progressValue := -1;
      eta := NotAvailable;
      installsStarted := 0;
      generator := None;
      rendersStarted := [];
      openPlayers := [];
    }

    /** add_panel: a new empty panel numbered with the current panel count joins the end. */
    method AddPanel()
      requires Valid()
      modifies this
      ensures Valid()
      ensures |panels| == |old(panels)| + 1 && panels[..|old(panels)|] == old(panels)
      ensures fresh(panels[|panels| - 1]) && panels[|panels| - 1].renderQueue == []
      ensures outputDir == old(outputDir) && generator == old(generator)
    {
      var p := new PromptPanel(|panels|);
      panels := panels + [p];
    }

    /** remove_panel: pops the last panel, if there is one. */
    method RemovePanel()
      requires Valid()
      modifies this
      ensures Valid()
      ensures old(panels) == [] ==> panels == []
      ensures old(panels) != [] ==> panels == old(panels)[..|old(panels)| - 1]
      ensures outputDir == old(outputDir) && generator == old(generator)
    {
      if panels != [] {
        panels := panels[..|panels| - 1];
      }
    }

    /**
     * update_panel_count: grows the row with new empty panels or removes
     * panels from its end; since remove_panel does nothing on an empty row,
     * a negative count leaves no panels and raises nothing.
     */
    method UpdatePanelCount(count: int)
      requires Valid()
      modifies this
      ensures Valid()
      ensures |panels| == if count > 0 then count else 0
      ensures count <= |old(panels)| ==> panels == old(panels)[..|panels|]
      ensures count > |old(panels)| ==>
        && panels[..|old(panels)|] == old(panels)
        && forall i :: |old(panels)| <= i < count ==> fresh(panels[i]) && panels[i].renderQueue == []
      ensures outputDir == old(outputDir) && generator == old(generator)
    {
      var current := |panels|;
      if count > current {
        var n := 0;
        while n < count - current
          invariant 0 <= n <= count - current
          invariant Valid()
          invariant |panels| == current + n && panels[..current] == old(panels)
          invariant forall i :: current <= i < |panels| ==> fresh(panels[i]) && panels[i].renderQueue == []
          invariant outputDir == old(outputDir) && generator == old(generator)
        {
          AddPanel();
          n := n + 1;
        }
      } else if count < current {
        var n := 0;
        while n < current - count
          invariant 0 <= n <= current - count
          invariant |panels| == if current - n > 0 then current - n else 0
          invariant panels == old(panels)[..|panels|]
          invariant Valid()
          invariant outputDir == old(outputDir) && generator == old(generator)
        {
          RemovePanel();
          n := n + 1;
        }
      }
    }

    /** select_output_directory: the dialog's answer, "" when it was cancelled. */
    method SelectOutputDirectory(chosen: string)
      modifies this
      ensures outputDir == chosen && panels == old(panels) && generator == old(generator)
    {
      outputDir := chosen;
    }

    /**
     * process_all_queues: without an output directory nothing changes.
     * Otherwise the shared queue is cleared and refilled with every panel's
     * jobs, panel by panel and in each panel's order, the panels' queues and
     * lists are emptied, and the dependency installer starts when there is
     * anything to render.
     */
    method ProcessAllQueues() returns (started: bool)
      requires Valid()
      modifies this, panels
      ensures Valid()
      ensures panels == old(panels)
      ensures started <==> outputDir != "" && renderQueue != []
      ensures installsStarted == old(installsStarted) + (if started then 1 else 0)
      ensures outputDir == "" ==>
        && renderQueue == old(renderQueue)
        && forall i :: 0 <= i < |panels| ==>
             panels[i].renderQueue == old(panels[i].renderQueue) && panels[i].queueList == old(panels[i].queueList)
      ensures forall i :: 0 <= i < |panels| ==>
        panels[i].currentSequence == old(panels[i].currentSequence) && panels[i].guidanceLabel == old(panels[i].guidanceLabel)
      ensures outputDir != "" ==>
        && renderQueue == Flatten(old(QueuesOf(panels)))
        && forall i :: 0 <= i < |panels| ==> panels[i].renderQueue == [] && panels[i].queueList == []
      ensures generator == old(generator) && rendersStarted == old(rendersStarted)
    {
      if outputDir == "" {
        return false;
      }
      GatherQueues();
      started := renderQueue != [];
      if started {
        InstallDependencies();
      }
    }

    /**
     * The gathering part of process_all_queues: the render list is rebuilt
     * from every panel's jobs, panel by panel and in each panel's order, and
     * every panel's queue and list are emptied.
     */
    method GatherQueues()
      requires Valid()
      modifies this, panels
      ensures Valid()
      ensures renderQueue == Flatten(old(QueuesOf(panels)))
      ensures forall i :: 0 <= i < |panels| ==> panels[i].renderQueue == [] && panels[i].queueList == []
      ensures panels == old(panels) && outputDir == old(outputDir) && installsStarted == old(installsStarted)
      ensures forall i :: 0 <= i < |panels| ==>
        panels[i].currentSequence == old(panels[i].currentSequence) && panels[i].guidanceLabel == old(panels[i].guidanceLabel)
      ensures generator == old(generator) && rendersStarted == old(rendersStarted)
    {
      ghost var qs := QueuesOf(panels);
      var gathered := CollectQueues(panels);
      renderQueue := gathered;
      FlattenAll(qs);
    }

    /**
     * The loop of process_all_queues: every panel's jobs, panel by panel and
     * in each panel's order, extend one list, and each panel is emptied.
     */
    static method CollectQueues(ps: seq<PromptPanel>) returns (gathered: seq<Job>)
      requires forall k :: 0 <= k < |ps| ==> ps[k].panelId == k
      modifies ps
      ensures gathered == Flatten(old(QueuesOf(ps)))
      ensures forall k :: 0 <= k < |ps| ==> ps[k].renderQueue == [] && ps[k].queueList == [] && ps[k].Valid()
      ensures forall k :: 0 <= k < |ps| ==>
        ps[k].currentSequence == old(ps[k].currentSequence) && ps[k].guidanceLabel == old(ps[k].guidanceLabel)
    {
      ghost var qs := QueuesOf(ps);
      gathered := [];
      var i := 0;
      while i < |ps|
        invariant 0 <= i <= |ps|
        invariant gathered == Flatten(qs[..i])
        invariant forall k :: 0 <= k < i ==> ps[k].renderQueue == [] && ps[k].queueList == []
        invariant forall k :: i <= k < |ps| ==> ps[k].renderQueue == qs[k]
        invariant forall k :: 0 <= k < |ps| ==>
          ps[k].currentSequence == old(ps[k].currentSequence) && ps[k].guidanceLabel == old(ps[k].guidanceLabel)
      {
        var q := TakePanelQueue(ps[i]);
        gathered := gathered + q;
        FlattenPrefix(qs, i);
        i := i + 1;
      }
      assert qs[..i] == qs;
      forall k | 0 <= k < |ps| ensures ps[k].Valid() {
        EmptiedPanelValid(ps[k]);
      }
    }

    /**
     * One turn of process_all_queues' loop: the panel's jobs are handed over
     * in their order, and the panel's queue and list are cleared.
     */
    static method TakePanelQueue(p: PromptPanel) returns (q: seq<Job>)
      modifies p
      ensures p.Valid()
      ensures p.currentSequence == old(p.currentSequence) && p.guidanceLabel == old(p.guidanceLabel)
      ensures q == old(p.renderQueue) && p.renderQueue == [] && p.queueList == []
    {
      q := p.renderQueue;
      p.renderQueue := [];
      p.queueList := [];
    }

    /** install_dependencies: starts a DependencyInstaller thread. */
    method InstallDependencies()
      modifies this
      ensures installsStarted == old(installsStarted) + 1
      ensures panels == old(panels) && outputDir == old(outputDir)
      ensures generator == old(generator) && rendersStarted == old(rendersStarted)
      ensures renderQueue == old(renderQueue)
    {
      installsStarted := installsStarted + 1;
    }

    /**
     * start_next_render: with an empty render list nothing happens; otherwise
     * list.pop(0) takes the oldest job and a generator is built for it,
     * writing into the current output directory.
     */
    method StartNextRender()
      requires Valid()
      modifies this
      ensures Valid()
      ensures old(renderQueue) == [] ==>
        && renderQueue == [] && generator == old(generator) && rendersStarted == old(rendersStarted)
      ensures old(renderQueue) != [] ==>
        && renderQueue == old(renderQueue)[1..]
        && generator == Some(ToRequest(old(renderQueue)[0], outputDir))
        && rendersStarted == old(rendersStarted) + [generator.value]
      ensures panels == old(panels) && outputDir == old(outputDir)
      ensures progressValue == old(progressValue) && eta == old(eta)
      ensures installsStarted == old(installsStarted) && openPlayers == old(openPlayers)
    {
      if renderQueue == [] {
        return;
      }
      var item := renderQueue[0];
      renderQueue := renderQueue[1..];
      var request := ToRequest(item, outputDir);
      generator := Some(request);
      rendersStarted := rendersStarted + [request];
    }

    /** on_dependencies_installed: the installer's finished signal starts the first render. */
    method OnDependenciesInstalled()
      requires Valid()
      modifies this
      ensures Valid()
      ensures old(renderQueue) != [] ==>
        generator == Some(ToRequest(old(renderQueue)[0], outputDir))
      ensures old(renderQueue) == [] ==> generator == old(generator)
    {
      StartNextRender();
    }

    /** progress_bar.setValue: a value outside the bar's range 0..100 is ignored. */
    method SetProgress(value: int)
      modifies this
      ensures progressValue == if 0 <= value <= 100 then value else old(progressValue)
      ensures panels == old(panels) && generator == old(generator) && eta == old(eta)
    {
      if 0 <= value <= 100 {
        progressValue := value;
      }
    }

    /** update_time_estimate: the label shows the generator's latest estimate. */
    method UpdateTimeEstimate(remaining: real)
      modifies this
      ensures eta == Remaining(remaining)
      ensures panels == old(panels) && generator == old(generator) && progressValue == old(progressValue)
    {
      eta := Remaining(remaining);
    }

    /**
     * on_video_generated, the generator's finished slot: the bar goes back to
     * 0, the estimate to "N/A", and the next job starts.
     */
    method OnVideoGenerated()
      requires Valid()
      modifies this
      ensures Valid()
      ensures progressValue == 0 && eta == NotAvailable
      ensures old(renderQueue) != [] ==>
        && renderQueue == old(renderQueue)[1..]
        && generator == Some(ToRequest(old(renderQueue)[0], outputDir))
      ensures old(renderQueue) == [] ==> renderQueue == [] && generator == old(generator)
    {
      progressValue := 0;
      eta := NotAvailable;
      StartNextRender();
    }

    /**
     * show_video, the video_generated slot: opens a player window for the
     * video; nothing else changes until that player finishes.
     */
    method ShowVideo(path: string)
      modifies this
      ensures openPlayers == old(openPlayers) + [path]
      ensures panels == old(panels) && generator == old(generator) && outputDir == old(outputDir)
    {
      openPlayers := openPlayers + [path];
    }

    /** A player's finished signal, connected to start_next_render. */
    method OnPlayerFinished()
      requires Valid()
      modifies this
      ensures Valid()
      ensures old(renderQueue) != [] ==>
        && renderQueue == old(renderQueue)[1..]
        && generator == Some(ToRequest(old(renderQueue)[0], outputDir))
      ensures old(renderQueue) == [] ==> renderQueue == [] && generator == old(generator)
    {
      StartNextRender();
    }
  }
}
