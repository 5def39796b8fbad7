/**
 * The main window of cineboard/ui/main_window.py: the same panels, shared
 * QueueManager and render slots as the autoplay window, except that a new
 * video opens a player window whose closing starts the next render, and
 * that shrinking the panel row fails.
 */
module CineboardWindow {
  import opened Wrappers
  import opened Jobs
  import opened Panels
  import opened QueueManagement
  import opened Generation
  import opened RenderChain

  class MainWindow {
    /** self.panels: panel i was built as PromptPanel(i). */
    var panels: seq<PromptPanel>
    var outputDir: string
    const queueManager: QueueManager<Job>
    /**
     * The progress bar's value: the last value it accepted (range 0 to 100),
     * or -1, the reset state a new QProgressBar starts in.
     */
    var progressValue: int
    var eta: Eta
    /** How many DependencyInstaller threads process_all_queues has started. */
    var installsStarted: nat
    /** The request of the last VideoGenerator built, if any. */
    var generator: Option<Request>
    /** Every request a generator was built for, in order. */
    ghost var rendersStarted: seq<Request>
    /** The paths of the VideoPlayer windows show_video opened, in order. */
    var openPlayers: seq<string>

    ghost predicate Valid()
      reads this, panels, queueManager
    {
      && (forall i :: 0 <= i < |panels| ==> panels[i].panelId == i && panels[i].Valid())
      && (forall k :: 0 <= k < |queueManager.queue| ==> WellFormed(queueManager.queue[k]))
    }

    /** init_ui: one empty panel, an empty queue, no output directory. */
    constructor ()
      ensures Valid()
      ensures |panels| == 1 && panels[0].renderQueue == []
      ensures outputDir == "" && queueManager.queue == [] && openPlayers == []
      ensures eta == NotAvailable && generator == None && installsStarted == 0 && progressValue == -1
    {
      var p := new PromptPanel(0);
      panels := [p];
      outputDir := "";
      queueManager := new QueueManager();
      progressValue := -1;
      eta := NotAvailable;
      installsStarted := 0;
      generator := None;
      rendersStarted := [];
      openPlayers := [];
    }

    /** add_panel: a new empty panel numbered with the current panel count joins the end. */
    method AddPanel()
      requires Valid()
      modifies this
      ensures Valid()
      ensures |panels| == |old(panels)| + 1 && panels[..|old(panels)|] == old(panels)
      ensures fresh(panels[|panels| - 1]) && panels[|panels| - 1].renderQueue == []
      ensures outputDir == old(outputDir) && generator == old(generator)
    {
      var p := new PromptPanel(|panels|);
      panels := panels + [p];
    }

    /**
     * update_panel_count: grows the row with new empty panels. Shrinking it
     * calls remove_panel, which the window does not define: the slot raises
     * AttributeError before any panel is removed (ok is false).
     */
    method UpdatePanelCount(count: int) returns (ok: bool)
      requires Valid()
      modifies this
      ensures Valid()
      ensures ok <==> count >= |old(panels)|
      ensures count <= |old(panels)| ==> panels == old(panels)
      ensures count > |old(panels)| ==>
        && |panels| == count && panels[..|old(panels)|] == old(panels)
        && forall i :: |old(panels)| <= i < count ==> fresh(panels[i]) && panels[i].renderQueue == []
      ensures outputDir == old(outputDir) && generator == old(generator)
    {
      var current := |panels|;
      if count > current {
        var n := 0;
        while n < count - current
          invariant 0 <= n <= count - current
          invariant Valid()
          invariant |panels| == current + n && panels[..current] == old(panels)
          invariant forall i :: current <= i < |panels| ==> fresh(panels[i]) && panels[i].renderQueue == []
          invariant outputDir == old(outputDir) && generator == old(generator)
        {
          AddPanel();
          n := n + 1;
        }
      } else if count < current {
        // self.remove_panel() raises AttributeError
        return false;
      }
      ok := true;
    }

    /** select_output_directory: the dialog's answer, "" when it was cancelled. */
    method SelectOutputDirectory(chosen: string)
      modifies this
      ensures outputDir == chosen && panels == old(panels) && generator == old(generator)
    {
      outputDir := chosen;
    }

    /**
     * process_all_queues: without an output directory nothing changes.
     * Otherwise the shared queue is cleared and refilled with every panel's
     * jobs, panel by panel and in each panel's order, the panels' queues and
     * lists are emptied, and the dependency installer starts when there is
     * anything to render.
     */
    method ProcessAllQueues() returns (started: bool)
      requires Valid()
      modifies this, queueManager, panels
      ensures Valid()
      ensures panels == old(panels)
      ensures started <==> outputDir != "" && queueManager.queue != []
      ensures installsStarted == old(installsStarted) + (if started then 1 else 0)
      ensures outputDir == "" ==>
        && queueManager.queue == old(queueManager.queue)
        && forall i :: 0 <= i < |panels| ==>
             panels[i].renderQueue == old(panels[i].renderQueue) && panels[i].queueList == old(panels[i].queueList)
      ensures forall i :: 0 <= i < |panels| ==>
        panels[i].currentSequence == old(panels[i].currentSequence) && panels[i].guidanceLabel == old(panels[i].guidanceLabel)
      ensures outputDir != "" ==>
        && queueManager.queue == Flatten(old(QueuesOf(panels)))
        && forall i :: 0 <= i < |panels| ==> panels[i].renderQueue == [] && panels[i].queueList == []
      ensures generator == old(generator) && rendersStarted == old(rendersStarted)
    {
      if outputDir == "" {
        return false;
      }
      GatherQueues();
      started := queueManager.HasItems();
      if started {
        InstallDependencies();
      }
    }

    /**
     * The gathering part of process_all_queues: the shared queue is cleared
     * and refilled with every panel's jobs, panel by panel and in each
     * panel's order, and every panel's queue and list are emptied.
     */
    method GatherQueues()
      requires Valid()
      modifies queueManager, panels
      ensures Valid()
      ensures queueManager.queue == Flatten(old(QueuesOf(panels)))
      ensures forall i :: 0 <= i < |panels| ==> panels[i].renderQueue == [] && panels[i].queueList == []
      ensures forall i :: 0 <= i < |panels| ==>
        panels[i].currentSequence == old(panels[i].currentSequence) && panels[i].guidanceLabel == old(panels[i].guidanceLabel)
    {
      ghost var qs := QueuesOf(panels);
      queueManager.ClearQueue();
      CollectInto(queueManager, panels);
      assert [] + Flatten(qs) == Flatten(qs);
      FlattenAll(qs);
    }

    /**
     * The loop of process_all_queues: every panel's jobs, panel by panel and
     * in each panel's order, join the end of the queue, and each panel is emptied.
     */
    static method CollectInto(qm: QueueManager<Job>, ps: seq<PromptPanel>)
      requires forall k :: 0 <= k < |ps| ==> ps[k].panelId == k
      modifies qm, ps
      ensures qm.queue == old(qm.queue) + Flatten(old(QueuesOf(ps)))
      ensures forall k :: 0 <= k < |ps| ==> ps[k].renderQueue == [] && ps[k].queueList == [] && ps[k].Valid()
      ensures forall k :: 0 <= k < |ps| ==>
        ps[k].currentSequence == old(ps[k].currentSequence) && ps[k].guidanceLabel == old(ps[k].guidanceLabel)
    {
      ghost var qs := QueuesOf(ps);
      ghost var start := qm.queue;
      var i := 0;
      while i < |ps|
        invariant 0 <= i <= |ps|
        invariant qm.queue == start + Flatten(qs[..i])
        invariant forall k :: 0 <= k < i ==> ps[k].renderQueue == [] && ps[k].queueList == []
        invariant forall k :: i <= k < |ps| ==> ps[k].renderQueue == qs[k]
        invariant forall k :: 0 <= k < |ps| ==>
          ps[k].currentSequence == old(ps[k].currentSequence) && ps[k].guidanceLabel == old(ps[k].guidanceLabel)
      {
        TakePanelQueue(qm, ps[i]);
        FlattenPrefix(qs, i);
        AppendAssoc(start, Flatten(qs[..i]), qs[i]);
        i := i + 1;
      }
      assert qs[..i] == qs;
      forall k | 0 <= k < |ps| ensures ps[k].Valid() {
        EmptiedPanelValid(ps[k]);
      }
    }

    /**
     * One turn of process_all_queues' loop: the panel's jobs join the end of
     * the queue in their order, and the panel's queue and list are cleared.
     */
    static method TakePanelQueue(qm: QueueManager<Job>, p: PromptPanel)
      modifies qm, p
      ensures p.Valid()
      ensures p.currentSequence == old(p.currentSequence) && p.guidanceLabel == old(p.guidanceLabel)
      ensures qm.queue == old(qm.queue) + old(p.renderQueue)
      ensures p.renderQueue == [] && p.queueList == []
    {
      var j := 0;
      while j < |p.renderQueue|
        invariant 0 <= j <= |p.renderQueue|
        invariant qm.queue == old(qm.queue) + p.renderQueue[..j]
        modifies qm
      {
        qm.AddToQueue(p.renderQueue[j]);
        j := j + 1;
      }
      assert p.renderQueue[..j] == p.renderQueue;
      p.renderQueue := [];
      p.queueList := [];
    }

    /** install_dependencies: starts a DependencyInstaller thread. */
    method InstallDependencies()
      modifies this
      ensures installsStarted == old(installsStarted) + 1
      ensures panels == old(panels) && outputDir == old(outputDir)
      ensures generator == old(generator) && rendersStarted == old(rendersStarted)
    {
      installsStarted := installsStarted + 1;
    }

    /**
     * start_next_render: with an empty queue nothing happens; otherwise the
     * oldest job leaves the queue and a generator is built for it, writing
     * into the current output directory.
     */
    method StartNextRender()
      requires Valid()
      modifies this, queueManager
      ensures Valid()
      ensures old(queueManager.queue) == [] ==>
        && queueManager.queue == [] && generator == old(generator) && rendersStarted == old(rendersStarted)
      ensures old(queueManager.queue) != [] ==>
        && queueManager.queue == old(queueManager.queue)[1..]
        && generator == Some(ToRequest(old(queueManager.queue)[0], outputDir))
        && rendersStarted == old(rendersStarted) + [generator.value]
      ensures panels == old(panels) && outputDir == old(outputDir)
      ensures progressValue == old(progressValue) && eta == old(eta)
      ensures installsStarted == old(installsStarted)
    {
      var has := queueManager.HasItems();
      if !has {
        return;
      }
      var item := queueManager.GetNextItem();
      if item.Some? {
        var request := ToRequest(item.value, outputDir);
        generator := Some(request);
        rendersStarted := rendersStarted + [request];
      }
    }

    /** on_dependencies_installed: the installer's finished signal starts the first render. */
    method OnDependenciesInstalled()
      requires Valid()
      modifies this, queueManager
      ensures Valid()
      ensures old(queueManager.queue) != [] ==>
        generator == Some(ToRequest(old(queueManager.queue)[0], outputDir))
      ensures old(queueManager.queue) == [] ==> generator == old(generator)
    {
      StartNextRender();
    }

    /** progress_bar.setValue: a value outside the bar's range 0..100 is ignored. */
    method SetProgress(value: int)
      modifies this
      ensures progressValue == if 0 <= value <= 100 then value else old(progressValue)
      ensures panels == old(panels) && generator == old(generator) && eta == old(eta)
    {
      if 0 <= value <= 100 {
        progressValue := value;
      }
    }

    /** update_time_estimate: the label shows the generator's latest estimate. */
    method UpdateTimeEstimate(remaining: real)
      modifies this
      ensures eta == Remaining(remaining)
      ensures panels == old(panels) && generator == old(generator) && progressValue == old(progressValue)
    {
      eta := Remaining(remaining);
    }

    /**
     * on_video_generated, the generator's finished slot: the bar goes back to
     * 0, the estimate to "N/A", and the next job starts.
     */
    method OnVideoGenerated()
      requires Valid()
      modifies this, queueManager
      ensures Valid()
      ensures progressValue == 0 && eta == NotAvailable
      ensures old(queueManager.queue) != [] ==>
        && queueManager.queue == old(queueManager.queue)[1..]
        && generator == Some(ToRequest(old(queueManager.queue)[0], outputDir))
      ensures old(queueManager.queue) == [] ==> queueManager.queue == [] && generator == old(generator)
    {
      progressValue := 0;
      eta := NotAvailable;
      StartNextRender();
    }

    /**
     * show_video, the video_generated slot: opens a player window for the
     * video; nothing else changes until that player finishes.
     */
    method ShowVideo(path: string)
      modifies this
      ensures openPlayers == old(openPlayers) + [path]
      ensures panels == old(panels) && generator == old(generator) && outputDir == old(outputDir)
    {
      openPlayers := openPlayers + [path];
    }

    /** A player's finished signal, connected to start_next_render. */
    method OnPlayerFinished()
      requires Valid()
      modifies this, queueManager
      ensures Valid()
      ensures old(queueManager.queue) != [] ==>
        && queueManager.queue == old(queueManager.queue)[1..]
        && generator == Some(ToRequest(old(queueManager.queue)[0], outputDir))
      ensures old(queueManager.queue) == [] ==> queueManager.queue == [] && generator == old(generator)
    {
      StartNextRender();
    }
  }
}
