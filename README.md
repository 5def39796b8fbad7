# autoplay: batch text-to-video rendering, modelled in Dafny

autoplay is a PyQt desktop front end for the CogVideoX diffusion pipeline. It
comes in three near-copies: the single script `text-to-video.py`, the
`autoplay/` package and the `cineboard/` package. Each has the same parts:

- **Prompt panels.** Each panel validates a request (project name, prompt,
  inference steps, guidance, frames, number of videos), numbers it with its
  own sequence counter and keeps it in its own render queue.
- **A main window.** It gathers every panel's queue into one global render
  queue, installs the Python dependencies with pip, then starts one
  `VideoGenerator` per queued job. The generator's `finished` signal
  dequeues the next job. In autoplay, each `video_generated` signal
  dequeues one too. In cineboard and `text-to-video.py`, `video_generated`
  opens a player, and the next job is dequeued when the user closes it.
- **A video generator.** It generates the videos of one job with seeds 42,
  43, ..., reports a progress percentage and a remaining-time estimate after
  each video, and writes `<project>_<sequence>_video_<n>.mp4` into the output
  directory. The autoplay copy writes a temporary file first and re-encodes it
  with ffmpeg.
- **A video grid.** It lists the finished videos: a table with formatted
  generation times in autoplay, a four-column grid of thumbnails in
  cineboard. A confirmed removal deletes the file.
- **A resource monitor.** It keeps rolling 60-sample histories of the CPU and
  GPU readings and draws them as line plots and pie charts.
- **A snake game.** autoplay also ships a small pygame snake game
  (`autoplay/sound/snake.py`).

The Dafny model follows the source file by file:

| file | module | models |
|---|---|---|
| `queue_manager.dfy` | `QueueManagement` | `cineboard/queue_manager.py`, as a class over a `seq`, plus a FIFO law over histories of calls |
| `prompt_panel.dfy` | `Panels` | `PromptPanel` (autoplay, and its copy in `text-to-video.py`) |
| `jobs.dfy` | `Jobs` | the job dictionary a panel queues |
| `dependency_installer.dfy` | `Installer` | `DependencyInstaller.run` as a loop over pip outcomes |
| `estimates.dfy` | `Estimates` | the progress percentage and the remaining-time estimate |
| `video_generator.dfy` | `Generation` | both `VideoGenerator.run` variants as loops producing a trace of calls and signals, with the file names they build |
| `render_chain.dfy` | `RenderChain` | the job-to-generator hand-off and how many dequeues one generator triggers |
| `autoplay_main_window.dfy` | `AutoplayWindow` | `autoplay/ui/main_window.py` |
| `cineboard_main_window.dfy` | `CineboardWindow` | `cineboard/ui/main_window.py` |
| `script_main_window.dfy` | `ScriptWindow` | the main window of `text-to-video.py` |
| `autoplay_video_grid.dfy` | `AutoplayGrid` | `autoplay/ui/video_grid.py`, including `format_time` and a parser that reads its text back |
| `cineboard_video_grid.dfy` | `CineboardGrid` | `cineboard/ui/video_grid.py` |
| `rolling_window.dfy` | `RollingWindow` | the append-then-pop-front 60-sample buffers |
| `autoplay_resource_monitor.dfy` | `AutoplayMonitor` | `autoplay/ui/resource_monitor.py` |
| `cineboard_resource_monitor.dfy` | `CineboardMonitor` | `cineboard/ui/resource_monitor.py` |
| `snake.dfy` | `Snake` | `autoplay/sound/snake.py` |
| `text.dfy`, `numeric.dfy`, `wrappers.dfy` | `Text`, `Numeric`, `Wrappers` | decimal rendering and parsing, `int()` truncation and clamping, `Option` |

Widgets, threads and external programs are represented by values:

- Each widget becomes the value it displays: a label's text, a bar's value,
  the rows of a table.
- Each signal becomes a call, or an entry in a trace.
- Each external call becomes an input saying whether it returned normally
  and what it produced. The external calls are pip, the diffusion pipeline,
  the video exporter, ffmpeg, `os.remove`, nvidia-smi, psutil, the clock,
  `random.randrange` and the user's answer to a confirmation dialog.

Two behaviours come from the code and not from any statement of intent.

**Every generator signal starts a render.** In autoplay, the
`finished` signal reaches `on_video_generated` and `video_generated`
reaches `show_video`, and both call `start_next_render`. That method pops
the next job and replaces `self.generator` without waiting for the running
generator. So one job of k videos that all complete dequeues k + 1 further
jobs while the queue lasts (`RenderChain.CompletedJobTriggers`). In
cineboard and `text-to-video.py`, `finished` does the same. But
`show_video` only opens a player, and `start_next_render` runs when the
user closes that player. There, k of the k + 1 dequeues wait for a player
to close. The model follows the code: the windows do not guarantee that
only one generator runs at a time.

**Changing the panel count behaves differently in each copy:**

- autoplay: with a negative count it raises IndexError after removing
  every panel.
- cineboard: shrinking raises AttributeError, because `remove_panel` is not
  defined there, and nothing changes.
- `text-to-video.py`: it adds or removes panels until there are
  `max(count, 0)`.

## Model

| member | source | states |
|---|---|---|
| `QueueManagement.PopFront` | cineboard/queue_manager.py:16-20 | an empty queue hands out nothing and is unchanged; otherwise the head is handed out and head + rest is the old queue |
| `QueueManagement.QueueManager.constructor` | cineboard/queue_manager.py:7-9 | the queue starts empty with no update emitted |
| `QueueManagement.QueueManager.AddToQueue` | cineboard/queue_manager.py:11-14 | the item joins the end of the queue and `queue_updated` is emitted once |
| `QueueManagement.QueueManager.GetNextItem` | cineboard/queue_manager.py:16-20 | returns and removes the oldest item, or None with no change, and emits nothing |
| `QueueManagement.QueueManager.HasItems` | cineboard/queue_manager.py:22-24 | true exactly when the queue is non-empty |
| `QueueManagement.QueueManager.ClearQueue` | cineboard/queue_manager.py:26-29 | the queue becomes empty and `queue_updated` is emitted once |
| `QueueManagement.FifoLaw` | cineboard/queue_manager.py:11-20 | without a clear, the items handed out followed by those still queued are the old queue followed by the items added, in order |
| `QueueManagement.HandedOutInAddOrder` | cineboard/queue_manager.py:11-20 | from an empty queue, the items come out as a prefix of the items put in |
| `QueueManagement.RunSnoc` | cineboard/queue_manager.py:11-29 | a history of calls acts on the queue one call at a time |
| `QueueManagement.EmptyAfterClear` | cineboard/queue_manager.py:26-29 | after any history ending in clear_queue the queue is empty |
| `Panels.ListLabelsDistinct` | autoplay/ui/prompt_panel.py:103 | two queue-list entries of one project are equal exactly when their sequence numbers are |
| `Panels.ListLabel` | autoplay/ui/prompt_panel.py:103 | a queue-list entry is the project name, an underscore, then the decimal sequence number |
| `Panels.GuidanceText` | autoplay/ui/prompt_panel.py:81-82 | the guidance label starts with a digit and ends in ".0" |
| `Panels.GuidanceTextReadsBack` | autoplay/ui/prompt_panel.py:81-82 | the guidance label reads back as the slider value followed by ".0" |
| `Panels.ConsecutiveIncreasing` | autoplay/ui/prompt_panel.py:91-102 | queued sequence numbers are positive, strictly increasing and at most the panel's counter |
| `Panels.ConsecutiveSnoc` | autoplay/ui/prompt_panel.py:91-102 | accepting the next-numbered job keeps the queue's numbering consecutive |
| `Panels.PromptPanel.constructor` | autoplay/ui/prompt_panel.py:7-45 | empty queue and list, counter 0, guidance label "7.0" |
| `Panels.PromptPanel.UpdateGuidanceLabel` | autoplay/ui/prompt_panel.py:81-82 | the label becomes the slider value followed by ".0"; the queue is untouched |
| `Panels.PromptPanel.AddToQueue` | autoplay/ui/prompt_panel.py:84-103 | accepted exactly when project name and prompt are non-empty; a refusal changes nothing; an acceptance bumps the counter, appends the job numbered with it and its list label, and keeps every queued job well formed and owned by the panel |
| `Jobs.FlattenSnoc` | text-to-video.py:315-316 | extending the gathered list with one more panel queue appends that queue at the end |
| `Jobs.Flatten` | text-to-video.py:314-316 | the gathered list starts with the first panel's queue; `FlattenSnoc` gives the rest of the order |
| `Jobs.FlattenAll` | autoplay/ui/main_window.py:167-171 | every gathered job is one some panel accepted, so it is well formed |
| `Estimates.Percent` | autoplay/core/video_generator.py:81 | the whole percentage done * 100 // total lies in 0..100 and is 100 exactly when done == total (this integer form matches the source's floating-point int((done / total) * 100) for totals below 50, which covers the 1..10 videos per job and the 9 packages) |
| `Estimates.PercentMonotone` | autoplay/core/video_generator.py:81-82 | finishing more units never lowers the percentage |
| `Estimates.PercentStrictlyIncreasing` | autoplay/core/dependency_installer.py:26-28 | with at most 100 units, each finished unit raises the integer percentage; the installer's nine steps are within that range, where the source's float form agrees |
| `Estimates.RemainingTime` | autoplay/core/video_generator.py:85-88 | the estimate equals elapsed * (total - done) / done, is never negative, and is 0 after the last unit |
| `Installer.FirstFailure` | autoplay/core/dependency_installer.py:26-32 | the index of the first failing pip call: all earlier calls succeed, and that one fails |
| `Installer.Run` | autoplay/core/dependency_installer.py:11-32 | pip is asked for the nine packages in order up to and including the first failure; one strictly increasing percentage is emitted per success; `finished` is emitted exactly when every install succeeds, and then the last percentage is 100 |
| `Installer.ProgressIncreasing` | autoplay/core/dependency_installer.py:26-28 | the percentages emitted for the first installs rise strictly |
| `Generation.VideoSuffixReadsBack` | autoplay/core/video_generator.py:98-101 | the "_video_{idx + 1}.mp4" tail starts "_video_" and its number reads back as idx + 1 |
| `Generation.NumberedNameReadsBack` | autoplay/core/video_generator.py:98-101 | "{sequence}_video_{idx + 1}.mp4" parses back to the sequence number and the video index |
| `Generation.OutputFileNameReadsBack` | autoplay/core/video_generator.py:98-101 | an output file name parses back to the sequence number and video index it was built from |
| `Generation.Seed` | autoplay/core/video_generator.py:76 | video idx is generated with manual seed 42 + idx, never below 42 |
| `Generation.OutputFileName` | autoplay/core/video_generator.py:98-101 | the output name starts with the project name and an underscore and ends in ".mp4" |
| `Generation.TempFileName` | autoplay/core/video_generator.py:91-94 | the temporary name starts with "temp_" and ends in ".mp4" |
| `Generation.Join` | autoplay/core/video_generator.py:91-101 | os.path.join: an absolute name replaces the directory; a relative name is placed after the directory, which the path starts with |
| `Generation.OutputFileNamesDistinct` | cineboard/core/video_generator.py:67 | within one project, two videos share a file name exactly when they share sequence number and index |
| `Generation.TempFileNameIsPrefixed` | autoplay/core/video_generator.py:91-94 | the temporary name is the final name behind "temp_", so the two never collide |
| `Generation.JoinCancels` | autoplay/core/video_generator.py:98-101 | joining one directory with two relative names gives equal paths only when the names are equal |
| `Generation.CompletedUpTo` | autoplay/core/video_generator.py:63-124 | the first video from an index on that raises, with every earlier one completing |
| `Generation.VideoEffects` | autoplay/core/video_generator.py:63-122 | the reference list of one iteration's calls and signals, cut where an exception is raised; it has no contract of its own, and `VideoEffectsCollect`, `VideoEffectsPaths`, `VideoEffectsSeeds`, `VideoEffectsPercents` and `VideoEffectsNoFinish` state what it contains |
| `Generation.EffectsFrom` | autoplay/core/video_generator.py:63-124 | the reference list of the iterations from one index on, ending in finished unless one raises; it has no contract of its own, and `PathsFrom`, `SeedsFrom`, `PercentsFrom` and `FinishFrom` state what it contains |
| `Generation.VideoEffectsCollect` | autoplay/core/video_generator.py:63-118 | what one iteration emits, call by call, for any signal filter |
| `Generation.VideoEffectsPaths` | autoplay/core/video_generator.py:117-118 | one iteration emits video_generated with the final path exactly when the video completes |
| `Generation.VideoEffectsSeeds` | autoplay/core/video_generator.py:76 | one iteration seeds the pipeline once, with 42 + idx |
| `Generation.VideoEffectsPercents` | autoplay/core/video_generator.py:80-82 | one iteration reports one percentage, for idx + 1 videos done, exactly when generation returned |
| `Generation.VideoEffectsNoFinish` | autoplay/core/video_generator.py:64-122 | no iteration emits finished |
| `Generation.PathsFrom` | autoplay/core/video_generator.py:117-118 | from an index on, video_generated carries the final paths of the completed videos in index order |
| `Generation.SeedsFrom` | autoplay/core/video_generator.py:76 | the pipeline is seeded 42 + idx for each video attempted, in order |
| `Generation.FinishFrom` | autoplay/core/video_generator.py:124 | finished is emitted once exactly when every remaining video completes |
| `Generation.TraceContents` | autoplay/core/video_generator.py:48-130 | a run emits video_generated once per completed video, in index order, with its final path; seeds 42, 43, ... go to the attempted videos; finished appears exactly when the pipeline loaded and every video completed |
| `Generation.Trace` | autoplay/core/video_generator.py:48-130 | a run does nothing when loading the pipeline raises; otherwise its first effect is the pipeline call with seed 42 (`TraceContents` states the whole trace) |
| `Generation.PercentsBetweenProgress` | autoplay/core/video_generator.py:81-82 | the reported percentages never decrease, and reach 100 exactly at the last video |
| `Generation.ProgressValues` | autoplay/core/video_generator.py:80-82 | a run's progress values are one per generated video, never decrease, and hit 100 only on the last video of the job |
| `Generation.ReencodeIteration` | autoplay/core/video_generator.py:64-122 | one iteration makes exactly the reference calls and signals for its video, and reports whether the video completed |
| `Generation.DirectIteration` | cineboard/core/video_generator.py:42-73 | one iteration makes exactly the reference calls and signals for its video, and reports whether the video completed |
| `Generation.RunWithReencode` | autoplay/core/video_generator.py:48-130 | the loop's calls and signals equal the reference trace for the re-encoding variant, stopping silently at the first exception |
| `Generation.RunDirect` | cineboard/core/video_generator.py:27-82 | the loop's calls and signals equal the reference trace for the direct-export variant |
| `RenderChain.RunTriggers` | autoplay/ui/main_window.py:208-225 | with autoplay's wiring, a run calls start_next_render once per completed video (video_generated, then show_video) plus once more when it finishes |
| `RenderChain.CompletedJobTriggers` | autoplay/ui/main_window.py:208-225 | with autoplay's wiring, a job of k videos that all complete calls start_next_render k + 1 times, so it dequeues k + 1 further jobs while any are queued; the lemma counts generator signals, and in cineboard and text-to-video.py k of those calls wait until the user closes a player |
| `AutoplayWindow.MainWindow.constructor` | autoplay/ui/main_window.py:42-52 | one empty panel 0 (init_ui calls add_panel), no output directory, an empty global queue and grid, the progress bar in its reset state -1, an "N/A" estimate, no installer or generator started |
| `AutoplayWindow.MainWindow.AddPanel` | autoplay/ui/main_window.py:138-141 | a fresh empty panel numbered with the panel count is appended |
| `AutoplayWindow.MainWindow.UpdatePanelCount` | autoplay/ui/main_window.py:143-152 | a negative count removes every panel and fails; a smaller count keeps the first panels; a larger one appends fresh empty panels |
| `AutoplayWindow.MainWindow.SelectOutputDirectory` | autoplay/ui/main_window.py:154-157 | the dialog's answer replaces the directory, so a cancelled dialog (an empty answer) clears it |
| `AutoplayWindow.MainWindow.ProcessAllQueues` | autoplay/ui/main_window.py:159-176 | with no output directory nothing changes (queues, lists, counters, labels); otherwise the global queue becomes every panel's queue in panel order, every panel's queue and list are emptied, and installation starts exactly when something was gathered; each panel's sequence counter and guidance label are kept, so numbering continues across batches |
| `AutoplayWindow.MainWindow.GatherQueues` | autoplay/ui/main_window.py:164-170 | the gathered jobs are the panel queues concatenated in panel order, and every panel's queue and list are emptied; each panel's sequence counter and guidance label are kept, so numbering continues across batches |
| `AutoplayWindow.MainWindow.CollectInto` | autoplay/ui/main_window.py:166-170 | every panel's jobs join the end of the queue, panel by panel and each in its order, and every panel is left empty and well-formed; each panel's sequence counter and guidance label are kept, so numbering continues across batches |
| `AutoplayWindow.MainWindow.TakePanelQueue` | autoplay/ui/main_window.py:167-170 | one panel's queue moves to the end of the global queue, the panel's queue and list are emptied, and its counter and guidance label are kept |
| `AutoplayWindow.MainWindow.InstallDependencies` | autoplay/ui/main_window.py:178-182 | one more installer is started; the queues are untouched |
| `AutoplayWindow.MainWindow.StartNextRender` | autoplay/ui/main_window.py:188-212 | with jobs queued, the oldest is removed and a generator is built from it and the output directory; otherwise nothing changes |
| `RenderChain.ToRequest` | autoplay/ui/main_window.py:198-207 | the generator gets the window's output directory, and a job a panel accepted gives it a non-empty project, a positive sequence number and 1 to 10 videos |
| `AutoplayWindow.MainWindow.OnDependenciesInstalled` | autoplay/ui/main_window.py:184-186 | the first render starts |
| `AutoplayWindow.MainWindow.SetProgress` | autoplay/ui/main_window.py:209 | the bar takes a value in 0..100 and ignores any other |
| `AutoplayWindow.MainWindow.UpdateTimeEstimate` | autoplay/ui/main_window.py:220-221 | the estimate label shows the generator's latest estimate |
| `AutoplayWindow.MainWindow.OnVideoGenerated` | autoplay/ui/main_window.py:214-218 | progress resets to 0, the estimate to "N/A", and the next render starts |
| `AutoplayWindow.MainWindow.ShowVideo` | autoplay/ui/main_window.py:223-225 | the video is offered to the grid, and the next render starts |
| `CineboardWindow.MainWindow.constructor` | cineboard/ui/main_window.py:11-20 | one empty panel 0 (init_ui calls add_panel), no output directory, an empty global queue, no open players, the progress bar in its reset state -1, no installer or generator started |
| `CineboardWindow.MainWindow.AddPanel` | cineboard/ui/main_window.py:65-68 | a fresh empty panel numbered with the panel count is appended |
| `CineboardWindow.MainWindow.UpdatePanelCount` | cineboard/ui/main_window.py:75-82 | succeeds exactly when the count does not shrink, appending fresh panels; a smaller count changes nothing |
| `CineboardWindow.MainWindow.SelectOutputDirectory` | cineboard/ui/main_window.py:70-73 | the dialog's answer replaces the directory, so a cancelled dialog (an empty answer) clears it |
| `CineboardWindow.MainWindow.ProcessAllQueues` | cineboard/ui/main_window.py:84-103 | as in autoplay: with no output directory nothing changes; otherwise the panel queues in panel order become the global queue, the panels' queues and lists are emptied, and installation starts exactly when something was gathered; each panel's sequence counter and guidance label are kept, so numbering continues across batches |
| `CineboardWindow.MainWindow.GatherQueues` | cineboard/ui/main_window.py:91-97 | the gathered jobs are the panel queues concatenated in panel order, and every panel's queue and list are emptied; each panel's sequence counter and guidance label are kept, so numbering continues across batches |
| `CineboardWindow.MainWindow.CollectInto` | cineboard/ui/main_window.py:93-97 | every panel's jobs join the end of the queue, panel by panel and each in its order, and every panel is left empty and well-formed; each panel's sequence counter and guidance label are kept, so numbering continues across batches |
| `CineboardWindow.MainWindow.TakePanelQueue` | cineboard/ui/main_window.py:94-97 | one panel's queue moves to the end of the global queue, the panel's queue and list are emptied, and its counter and guidance label are kept |
| `CineboardWindow.MainWindow.InstallDependencies` | cineboard/ui/main_window.py:105-109 | one more installer is started; the queues are untouched |
| `CineboardWindow.MainWindow.StartNextRender` | cineboard/ui/main_window.py:115-142 | with jobs queued, the oldest is removed and handed to a new generator; otherwise nothing changes |
| `CineboardWindow.MainWindow.OnDependenciesInstalled` | cineboard/ui/main_window.py:111-113 | the first render starts |
| `CineboardWindow.MainWindow.SetProgress` | cineboard/ui/main_window.py:139 | the bar takes a value in 0..100 and ignores any other |
| `CineboardWindow.MainWindow.UpdateTimeEstimate` | cineboard/ui/main_window.py:150-151 | the estimate label shows the generator's latest estimate |
| `CineboardWindow.MainWindow.OnVideoGenerated` | cineboard/ui/main_window.py:144-148 | progress resets to 0, the estimate to "N/A", and the next render starts |
| `CineboardWindow.MainWindow.ShowVideo` | cineboard/ui/main_window.py:153-157 | a player for the path is opened; the queue is untouched |
| `CineboardWindow.MainWindow.OnPlayerFinished` | cineboard/ui/main_window.py:156 | a closed player starts the next render |
| `ScriptWindow.MainWindow.constructor` | text-to-video.py:239-244 | one empty panel 0 (init_ui calls add_panel), no output directory, an empty render queue, no open players, the progress bar in its reset state -1, no installer or generator started |
| `ScriptWindow.MainWindow.AddPanel` | text-to-video.py:285-288 | a fresh empty panel numbered with the panel count is appended |
| `ScriptWindow.MainWindow.RemovePanel` | text-to-video.py:295-298 | the last panel is removed when there is one; otherwise nothing changes |
| `ScriptWindow.MainWindow.UpdatePanelCount` | text-to-video.py:300-307 | the panel count becomes max(count, 0), keeping the first panels and appending fresh empty ones |
| `ScriptWindow.MainWindow.SelectOutputDirectory` | text-to-video.py:290-293 | the dialog's answer replaces the directory, so a cancelled dialog (an empty answer) clears it |
| `ScriptWindow.MainWindow.ProcessAllQueues` | text-to-video.py:309-324 | with an output directory, the render list is replaced by the panel queues in panel order (jobs still pending are dropped), the panels' queues and lists are emptied, their counters and guidance labels kept, and installation starts exactly when something was gathered; without one nothing changes |
| `ScriptWindow.MainWindow.GatherQueues` | text-to-video.py:315-318 | the gathered jobs are the panel queues concatenated in panel order, and every panel's queue and list are emptied; each panel's sequence counter and guidance label are kept, so numbering continues across batches |
| `ScriptWindow.MainWindow.CollectQueues` | text-to-video.py:315-318 | the panels' jobs are handed over concatenated in panel order, each panel's in its order, and every panel is left empty and well-formed; each panel's sequence counter and guidance label are kept, so numbering continues across batches |
| `ScriptWindow.MainWindow.TakePanelQueue` | text-to-video.py:316-318 | one panel's jobs are handed over in order, its queue and list are cleared, and its counter and guidance label are kept |
| `ScriptWindow.MainWindow.InstallDependencies` | text-to-video.py:326-330 | one more installer is started; the render queue is untouched |
| `ScriptWindow.MainWindow.StartNextRender` | text-to-video.py:336-356 | with jobs queued, job 0 is popped and handed to a new generator; otherwise nothing changes |
| `ScriptWindow.MainWindow.OnDependenciesInstalled` | text-to-video.py:332-334 | the first render starts |
| `ScriptWindow.MainWindow.SetProgress` | text-to-video.py:353 | the bar takes a value in 0..100 and ignores any other |
| `ScriptWindow.MainWindow.UpdateTimeEstimate` | text-to-video.py:364-365 | the estimate label shows the generator's latest estimate |
| `ScriptWindow.MainWindow.OnVideoGenerated` | text-to-video.py:358-362 | progress resets to 0, the estimate to "N/A", and the next render starts |
| `ScriptWindow.MainWindow.ShowVideo` | text-to-video.py:367-370 | a player for the path is opened |
| `ScriptWindow.MainWindow.OnPlayerFinished` | text-to-video.py:369 | a closed player starts the next render |
| `AutoplayGrid.Paths` | autoplay/ui/video_grid.py:36 | the paths of the listed videos, position by position |
| `AutoplayGrid.WithoutMembers` | autoplay/ui/video_grid.py:125 | removing by path keeps exactly the entries with another path |
| `AutoplayGrid.Without` | autoplay/ui/video_grid.py:125 | the filtered list is never longer than the original (`WithoutMembers` states which entries remain) |
| `AutoplayGrid.WithoutAbsent` | autoplay/ui/video_grid.py:125 | removing a path that is not listed changes nothing |
| `AutoplayGrid.WithoutUnique` | autoplay/ui/video_grid.py:125 | with unique paths, removing one drops exactly its entry and keeps the order |
| `AutoplayGrid.WithoutKeepsUnique` | autoplay/ui/video_grid.py:125 | removal keeps paths unique |
| `AutoplayGrid.Split` | autoplay/ui/video_grid.py:103-104 | hours, minutes and seconds recombine to the total, with minutes and seconds below 60 |
| `AutoplayGrid.SecondsTextReadBack` | autoplay/ui/video_grid.py:106-108 | the "{s}s" tail reads back as s |
| `AutoplayGrid.SecondsReadBack` | autoplay/ui/video_grid.py:110 | the seconds-only form "{s}.00s" reads back as s |
| `AutoplayGrid.MinutesTail` | autoplay/ui/video_grid.py:108 | in "{m}m {s}s" the number read is m, and what follows it reads back as m * 60 + s |
| `AutoplayGrid.MinutesReadBack` | autoplay/ui/video_grid.py:106 | the "{m}m {s}s" part of an hours text reads back as m * 60 + s |
| `AutoplayGrid.MinutesDurationReadBack` | autoplay/ui/video_grid.py:108 | the "{m}m {s}s" form reads back as m * 60 + s |
| `AutoplayGrid.HoursTextOf` | autoplay/ui/video_grid.py:106 | a number h, then "h ", then a minutes text worth b reads back as h * 3600 + b |
| `AutoplayGrid.HoursReadBack` | autoplay/ui/video_grid.py:106 | the "{h}h {m}m {s}s" form reads back as h * 3600 + m * 60 + s |
| `AutoplayGrid.FormatSecondsReadsBack` | autoplay/ui/video_grid.py:103-110 | every formatted whole-second duration reads back as itself |
| `AutoplayGrid.FormatTimeReadsBack` | autoplay/ui/video_grid.py:100-110 | no time shows "Unknown"; a non-negative time reads back as its whole seconds |
| `AutoplayGrid.FormatSeconds` | autoplay/ui/video_grid.py:103-110 | the text starts with a digit and ends in "s", whichever of the three forms is chosen (`FormatSecondsReadsBack` states its value) |
| `AutoplayGrid.FormatTime` | autoplay/ui/video_grid.py:100-110 | the text is "Unknown" exactly when no time is known |
| `AutoplayGrid.VideoGrid.constructor` | autoplay/ui/video_grid.py:14-17 | the grid starts empty |
| `AutoplayGrid.VideoGrid.UpdateTable` | autoplay/ui/video_grid.py:48-50 | one table row per listed video |
| `AutoplayGrid.VideoGrid.AddVideo` | autoplay/ui/video_grid.py:35-46 | a video that exists and is not yet listed is appended with its time; otherwise nothing changes; paths stay unique |
| `AutoplayGrid.VideoGrid.RemoveVideo` | autoplay/ui/video_grid.py:116-129 | a confirmed, successful deletion drops the path and emits video_removed; otherwise nothing changes |
| `CineboardGrid.Cell` | cineboard/ui/video_grid.py:40 | divmod by 4: row * 4 + column is the index, column below 4 |
| `CineboardGrid.CellsDistinct` | cineboard/ui/video_grid.py:38-41 | no two thumbnails share a cell |
| `CineboardGrid.CellsInReadingOrder` | cineboard/ui/video_grid.py:38-41 | later videos come later in reading order |
| `CineboardGrid.RemoveFirst` | cineboard/ui/video_grid.py:86 | list.remove shortens the list by one |
| `CineboardGrid.RemoveFirstAt` | cineboard/ui/video_grid.py:86 | with unique paths, removal drops exactly that position and keeps the order |
| `CineboardGrid.UniqueSplice` | cineboard/ui/video_grid.py:86 | cutting one position out of a list without repeats leaves no repeats and not that entry |
| `CineboardGrid.RemoveFirstUnique` | cineboard/ui/video_grid.py:86 | after removal the path is gone and the rest stay unique |
| `CineboardGrid.VideoGrid.constructor` | cineboard/ui/video_grid.py:11-14 | the grid starts empty |
| `CineboardGrid.VideoGrid.UpdateGrid` | cineboard/ui/video_grid.py:32-41 | video i is placed at cell divmod(i, 4), one cell per video |
| `CineboardGrid.VideoGrid.AddVideo` | cineboard/ui/video_grid.py:27-30 | a new path is appended and the grid redrawn, so path i sits at divmod(i, 4) again; a listed path changes nothing; the list stays free of repeats |
| `CineboardGrid.VideoGrid.RemoveVideo` | cineboard/ui/video_grid.py:77-90 | a confirmed, successful deletion of a listed path removes its one entry, redraws so path i sits at divmod(i, 4), and emits video_removed; otherwise the list, the cells and the signals are unchanged |
| `RollingWindow.Window` | autoplay/ui/resource_monitor.py:122-125 | a buffer never holds more than its capacity or more than was pushed |
| `RollingWindow.PushedWindow` | autoplay/ui/resource_monitor.py:122-125 | append-then-pop-front keeps the buffer equal to the newest readings of the whole history |
| `RollingWindow.Pushed` | autoplay/ui/resource_monitor.py:122-125 | a push grows the buffer by one until it reaches capacity, then keeps its length, and the new value is last |
| `RollingWindow.PushedBounds` | cineboard/ui/resource_monitor.py:91-95 | a push keeps the buffer within capacity, ends it with the new value, and drops the oldest only when full |
| `Numeric.Trunc` | autoplay/ui/resource_monitor.py:29 | int() truncates toward zero |
| `Numeric.TruncWithin` | autoplay/ui/resource_monitor.py:27 | truncating a value between two integers stays between them |
| `Numeric.Clamp` | autoplay/ui/resource_monitor.py:160-161 | max(lo, min(hi, v)) lies in range and is v when v is in range |
| `AutoplayMonitor.CoresEstimate` | autoplay/ui/resource_monitor.py:26-27 | a memory utilisation in 0..100 gives an estimate in 0..16384 |
| `AutoplayMonitor.GetGpuUsage` | autoplay/ui/resource_monitor.py:20-32 | four readable fields give their truncations and the cores estimate; any failure gives four zeros |
| `AutoplayMonitor.UsagePie` | autoplay/ui/resource_monitor.py:156-164 | the clamped used and free slices each add up to 100 |
| `AutoplayMonitor.CudaPie` | autoplay/ui/resource_monitor.py:167-174 | the clamped used and free slices add up to 24576 MB and 16384 cores |
| `AutoplayMonitor.PadTo` | autoplay/ui/resource_monitor.py:141-142 | a series is zero-padded to the plot width, keeping its readings in front |
| `AutoplayMonitor.Longest` | autoplay/ui/resource_monitor.py:129 | the x-axis length is the length of the longest series |
| `AutoplayMonitor.LinePlot` | autoplay/ui/resource_monitor.py:127-143 | every plotted series has the x-axis length and starts with its readings |
| `AutoplayMonitor.MaxOf` | autoplay/ui/resource_monitor.py:145 | the maximum bounds every reading and is one of them |
| `AutoplayMonitor.PlotTop` | autoplay/ui/resource_monitor.py:145-146 | the y-limit base is at least 100, bounds every reading, and is 100 or a reading |
| `AutoplayMonitor.PushTracks` | autoplay/ui/resource_monitor.py:122-125 | pushing a non-negative reading keeps every buffer equal to the newest 60 readings of its series |
| `AutoplayMonitor.ResourceMonitor.constructor` | autoplay/ui/resource_monitor.py:83-91 | every series starts as [0] |
| `AutoplayMonitor.ResourceMonitor.UpdateData` | autoplay/ui/resource_monitor.py:122-125 | max(0, value) is pushed onto that series only, keeping at most 60 |
| `AutoplayMonitor.ResourceMonitor.UpdateCpuUsage` | autoplay/ui/resource_monitor.py:106-108 | the bar shows the reading and the CPU series alone grows; the other bars and the labels are unchanged |
| `AutoplayMonitor.ResourceMonitor.UpdateGpuData` | autoplay/ui/resource_monitor.py:110-120 | the bars and labels show the reading, the memory bar capped at 24576, and each of the four GPU series gets its clamped value |
| `AutoplayMonitor.ResourceMonitor.ShowReading` | autoplay/ui/resource_monitor.py:111-115 | the GPU bar, the memory bar capped at 24576 and the two labels show the reading; the CPU bar and every buffer stay |
| `AutoplayMonitor.ResourceMonitor.PushReading` | autoplay/ui/resource_monitor.py:117-120 | the four GPU values, each clamped at 0, join their own buffers in order; the CPU buffer, the bars and the labels stay |
| `AutoplayMonitor.ResourceMonitor.GpuTick` | autoplay/ui/resource_monitor.py:14-18 | one sample from nvidia-smi is shown on the bars and labels (memory capped at 24576 MB) and pushed, clamped at 0, onto the GPU, memory, wattage and cores buffers; the CPU bar and buffer are untouched |
| `AutoplayMonitor.ResourceMonitor.PieCharts` | autoplay/ui/resource_monitor.py:156-174 | both pies have four non-negative slices |
| `AutoplayMonitor.ResourceMonitor.PlotData` | autoplay/ui/resource_monitor.py:127-143 | five series of at most 60 points each |
| `AutoplayMonitor.BuffersBounded` | autoplay/ui/resource_monitor.py:122-125 | a buffer holds at most 60 readings, none negative |
| `CineboardMonitor.GetGpuUsage` | cineboard/ui/resource_monitor.py:22-30 | exactly two readable fields give (util, memory); anything else gives (0, 0) |
| `CineboardMonitor.ResourceMonitor.constructor` | cineboard/ui/resource_monitor.py:72-74 | the three buffers start empty |
| `CineboardMonitor.ResourceMonitor.UpdateCpuUsage` | cineboard/ui/resource_monitor.py:91-95 | the reading, unclamped, joins the CPU buffer only, which keeps the newest 60 |
| `CineboardMonitor.ResourceMonitor.UpdateGpuUsage` | cineboard/ui/resource_monitor.py:97-101 | the same for the GPU buffer |
| `CineboardMonitor.ResourceMonitor.UpdateCudaMem` | cineboard/ui/resource_monitor.py:103-107 | the same for the CUDA memory buffer |
| `CineboardMonitor.ResourceMonitor.GpuTick` | cineboard/ui/resource_monitor.py:16-20 | one sample feeds the GPU bar and buffer, then the memory bar and buffer, each buffer keeping its newest 60; the CPU bar and buffer are untouched |
| `CineboardMonitor.WindowOfHistory` | cineboard/ui/resource_monitor.py:91-95 | after n readings a buffer holds min(n, 60) of them, ending with the newest |
| `Snake.RoundTenths` | autoplay/sound/snake.py:55 | Python's round() of r / 10, ties to even |
| `Snake.FoodOnGrid` | autoplay/sound/snake.py:55-56 | food lands on the 10-pixel grid, inside the window |
| `Snake.FoodCoord` | autoplay/sound/snake.py:55-56 | a food coordinate is a non-negative multiple of the 10-pixel block |
| `Snake.Steer` | autoplay/sound/snake.py:82-94 | an arrow key sets a unit step along its axis, and steering keeps a step a step |
| `Snake.SteerAll` | autoplay/sound/snake.py:79-94 | after a batch of events the direction is the old one or the one some arrow key in the batch sets |
| `Snake.SteerAllLastArrow` | autoplay/sound/snake.py:79-94 | the last arrow key of a frame decides the direction, whatever the direction was before |
| `Snake.SteerAllNoArrow` | autoplay/sound/snake.py:79-94 | a frame without arrow keys keeps the direction |
| `Snake.SteerAllIsStep` | autoplay/sound/snake.py:79-94 | the direction is always still or one block along an axis |
| `Snake.Game.Score` | autoplay/sound/snake.py:120 | the score is the number of foods eaten |
| `Snake.Game.constructor` | autoplay/sound/snake.py:42-56 | the snake starts centred, still, empty, length 1, with food on the grid |
| `Snake.Game.HandleEvents` | autoplay/sound/snake.py:79-94 | the direction follows the arrows and the game ends exactly when a quit event arrives |
| `Snake.Game.HandleEvent` | autoplay/sound/snake.py:80-94 | one event steers by its arrow key, a quit event ends the game, and nothing else changes |
| `Snake.Game.HitsItself` | autoplay/sound/snake.py:112-114 | true exactly when the head equals an earlier segment |
| `Snake.Game.MoveHead` | autoplay/sound/snake.py:97-109 | the position checked for the boundary is the one before the move; the head is appended and the tail trimmed to the length |
| `Snake.Game.EatFood` | autoplay/sound/snake.py:124-127 | landing on the food grows the snake by one and moves the food; otherwise nothing changes |
| `Snake.Game.Advance` | autoplay/sound/snake.py:97-127 | the round ends exactly when the old position was out of bounds or the new head hits the body |
| `Snake.Game.Tick` | autoplay/sound/snake.py:58-129 | one frame: the batch's last arrow key sets the step, the head moves by it, the body becomes the old body plus the new head with the oldest segment dropped once it exceeds the length, the game closes exactly when the old position was out of bounds or the head hits the body, and eating the food grows the length by one and redraws the food from the two draws, otherwise length and food stay |
| `Snake.Game.CloseScreen` | autoplay/sound/snake.py:60-76 | on the game-over screen, C restarts the game and Q or a quit event ends it |
| `Snake.Game.Restart` | autoplay/sound/snake.py:42-56 | the fresh start of the game loop |
| `Text.NatToString` | autoplay/ui/prompt_panel.py:103 | str(n): a non-empty run of digits without a leading zero |
| `Text.IntToString` | autoplay/ui/resource_monitor.py:113-114 | str(i): a minus sign before the digits exactly for negative i |
| `Text.ParseNat` | autoplay/ui/video_grid.py:105-110 | reads a leading run of digits, and fails exactly when there is none |
| `Text.NatToStringDigits` | autoplay/ui/prompt_panel.py:103 | str(n) consists of decimal digits, and starts with 0 only for n = 0 |
| `Text.NatToStringValue` | autoplay/ui/prompt_panel.py:103 | the digits of str(n) have the value n |
| `Text.ParseNatToString` | autoplay/ui/prompt_panel.py:103 | str(n) followed by a non-digit reads back as n |
| `Text.NatToStringInjective` | autoplay/ui/prompt_panel.py:103 | different numbers have different decimal texts |

## Left out

- The Qt widgets, layouts, styles, thumbnails (OpenCV), the video player dialog (`autoplay/ui/video_player.py`, and `VideoPlayer` in `text-to-video.py`) and the matplotlib drawing are not modelled. Each widget is the value it displays.
- Threads and signal delivery are not modelled. Each slot is a method called in the order the signals would arrive. No interleaving of the installer, generator and monitor threads is modelled.
- pip, the CogVideoX pipeline, `export_to_video`, ffmpeg, `os.remove`, nvidia-smi, psutil, `time.time`, `time.sleep`, `random.randrange`, `QFileDialog` and `QMessageBox` are inputs, not code. The model takes whether each call returns normally, and what it gives back.
- Generator exceptions are modelled only as "the run stops here". The logging in the `except` block and the cache clearing in `finally` are left out.
- The `{:.2f}` rendering of the remaining-time estimate is left out. The estimate is carried as a real number.
- `Estimates.Percent` computes done * 100 // total exactly in integers. The source computes `int((done / total) * 100)` in IEEE doubles, which falls one below the exact value for some larger totals: 29 of 50 gives 57, and 28 of 100 and 29 of 100 both give 28. The two agree for every total up to 49. The widgets allow only 1 to 10 videos per job, and the installer has 9 packages. `PercentStrictlyIncreasing` is therefore a statement about the integer form, and matches the source only in that range.
- `Numeric.Trunc` does not model floating-point rounding. It and the rest of the model use exact reals where Python uses floats.
- `AutoplayMonitor.LinePlot` omits two details of the source: it does not divide the cores series by 100, and it does not multiply the y-limit by 1.1.
- `AutoplayMonitor.PlotTop` is the maximum before the 1.1 headroom.
- `AutoplayMonitor.ResourceMonitor.PieCharts` and `PlotData` state only the shapes of their results. The slice and padding properties are stated by `UsagePie`, `CudaPie` and `LinePlot`.
- The bar values in both resource monitors are the values passed to `setValue`, before Qt's range check. The main windows' progress bars do model that check.
- `PromptGenerationWorker`, `generate_panel_prompts`, `handle_prompts_generated` and `handle_error` are not modelled. They call the OpenAI API.
- `load_settings` and `save_settings` of `autoplay/ui/main_window.py` (lines 230-244) are not modelled. They call `load_settings` and `save_settings` on the panels, which `PromptPanel` does not define.
- `update_queue_ui` is not modelled. It is empty in both packages.
- `open_resource_monitor` only opens the monitor window, and is not modelled.
- `main()` of `text-to-video.py` and `autoplay/main.py` are not modelled. They only start the Qt application.
- `autoplay/sound/audio.py`, `autoplay/sound/aud.py` and `cineboard/services/pipeline_service.py` are not part of this model.
- Three source files are not part of this model, and the model assumes they match the copies that are:
  - the cineboard prompt panel and dependency installer, which the cineboard window imports;
  - the autoplay queue manager.
- Pygame drawing, fonts, the clock tick and `pygame.quit` are not modelled.
- `Snake.Game.CloseScreen` restarts with a fresh game state when C is pressed. The source calls `game_loop()` recursively, and that call never returns, because it ends with `quit()`.
