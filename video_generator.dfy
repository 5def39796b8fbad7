/**
 * VideoGenerator.run, in its two forms: autoplay/core/video_generator.py,
 * which exports each video to a temporary file and re-encodes it with ffmpeg,
 * and cineboard/core/video_generator.py (repeated in text-to-video.py), which
 * exports it directly. The diffusion pipeline, the exporter, ffmpeg, file
 * removal and the clock are inputs: for each video index, which of those
 * calls return normally and what the clock reads.
 */
module Generation {
  import opened Wrappers
  import opened Text
  import opened Estimates
  import Jobs

  const BaseSeed: int := 42

  /** The manual seed of the random generator for video idx. */
  function Seed(idx: nat): (seed: int)
    ensures seed >= BaseSeed
  {
    BaseSeed + idx
  }

  /** f"{project_name}_{sequence_number}_video_{video_idx + 1}.mp4" */
  function OutputFileName(project: string, sequence: nat, idx: nat): (name: string)
    ensures |name| >= |project| + 14 && name[..|project| + 1] == project + "_"
    ensures name[|name| - 4..] == ".mp4"
  {
    project + "_" + NatToString(sequence) + "_video_" + NatToString(idx + 1) + ".mp4"
  }

  /** The file the autoplay generator exports to before re-encoding. */
  function TempFileName(project: string, sequence: nat, idx: nat): (name: string)
    ensures |name| >= 19 && name[..5] == "temp_" && name[|name| - 4..] == ".mp4"
  {
    "temp_" + project + "_" + NatToString(sequence) + "_video_" + NatToString(idx + 1) + ".mp4"
  }

  /** os.path.join(directory, name) with POSIX rules. */
  function Join(dir: string, name: string): (path: string)
    ensures !(|name| > 0 && name[0] == '/') ==> |path| >= |dir| + |name| && path[..|dir|] == dir
    ensures |name| > 0 && name[0] == '/' ==> path == name
  {
    if |name| > 0 && name[0] == '/' then name
    else if dir == "" || dir[|dir| - 1] == '/' then dir + name
    else dir + "/" + name
  }

  /** "{sequence_number}_video_{video_idx + 1}.mp4" */
  function NumberedName(sequence: nat, idx: nat): string {
    NatToString(sequence) + VideoSuffix(idx)
  }

  /** The number and video index encoded in the part of a file name after "{project_name}_". */
  function ParseNumberedName(s: string): Option<(nat, nat)> {
    match ParseNat(s)
    case None => None
    case Some((sequence, rest)) =>
      if |rest| < 7 || rest[..7] != "_video_" then None
      else match ParseNat(rest[7..])
        case None => None
        case Some((number, tail)) =>
          if tail == ".mp4" && number >= 1 then Some((sequence, number - 1)) else None
  }

  /** The number and video index encoded in a file name of the given project, if it is one. */
  function ParseOutputFileName(project: string, name: string): Option<(nat, nat)> {
    var head := |project| + 1;
    if |name| < head || name[..head] != project + "_" then None
    else ParseNumberedName(name[head..])
  }

  /** "_video_{video_idx + 1}.mp4" */
  function VideoSuffix(idx: nat): string {
    "_video_" + NatToString(idx + 1) + ".mp4"
  }

  lemma VideoSuffixReadsBack(idx: nat, number: nat)
    requires number == idx + 1
    ensures StopsDigits(VideoSuffix(idx))
    ensures |VideoSuffix(idx)| >= 7 && VideoSuffix(idx)[..7] == "_video_"
    ensures ParseNat(VideoSuffix(idx)[7..]) == Some((number, ".mp4"))
  {
    assert VideoSuffix(idx)[7..] == NatToString(number) + ".mp4";
    ParseNatToString(number, ".mp4");
  }

  lemma NumberedOf(s: string, sequence: nat, rest: string, number: nat, idx: nat)
    requires ParseNat(s) == Some((sequence, rest))
    requires |rest| >= 7 && rest[..7] == "_video_" && ParseNat(rest[7..]) == Some((number, ".mp4"))
    requires number == idx + 1
    ensures ParseNumberedName(s) == Some((sequence, idx))
  {
  }

  lemma NumberedNameReadsBack(sequence: nat, idx: nat)
    ensures ParseNumberedName(NumberedName(sequence, idx)) == Some((sequence, idx))
  {
    var number := idx + 1;
    var tail := VideoSuffix(idx);
    VideoSuffixReadsBack(idx, number);
    ParseNatToString(sequence, tail);
    NumberedOf(NumberedName(sequence, idx), sequence, tail, number, idx);
  }

  /** A file name reads back as the sequence number and video index it was made from. */
  lemma OutputFileNameReadsBack(project: string, sequence: nat, idx: nat)
    ensures ParseOutputFileName(project, OutputFileName(project, sequence, idx)) == Some((sequence, idx))
  {
    var name := OutputFileName(project, sequence, idx);
    var head := |project| + 1;
    assert name == (project + "_") + NumberedName(sequence, idx);
    assert name[..head] == project + "_";
    assert name[head..] == NumberedName(sequence, idx);
    NumberedNameReadsBack(sequence, idx);
  }

  /** Within one project, two videos share a file name only if they have the same number and index. */
  lemma OutputFileNamesDistinct(project: string, s: nat, i: nat, t: nat, j: nat)
    ensures OutputFileName(project, s, i) == OutputFileName(project, t, j) <==> s == t && i == j
  {
    OutputFileNameReadsBack(project, s, i);
    OutputFileNameReadsBack(project, t, j);
  }

  /** The temporary name is the final name behind "temp_", so it never equals a final name. */
  lemma TempFileNameIsPrefixed(project: string, sequence: nat, idx: nat)
    ensures TempFileName(project, sequence, idx) == "temp_" + OutputFileName(project, sequence, idx)
    ensures TempFileName(project, sequence, idx) != OutputFileName(project, sequence, idx)
  {
    var t := TempFileName(project, sequence, idx);
    var o := OutputFileName(project, sequence, idx);
    assert |t| == |o| + 5;
  }

  /** Joining one directory with two names that both are, or both are not, absolute keeps them apart. */
  lemma JoinCancels(dir: string, a: string, b: string)
    requires (|a| > 0 && a[0] == '/') <==> (|b| > 0 && b[0] == '/')
    requires Join(dir, a) == Join(dir, b)
    ensures a == b
  {
    var ja, jb := Join(dir, a), Join(dir, b);
    assert ja[|ja| - |a|..] == a;
    assert jb[|jb| - |b|..] == b;
  }

  /** The parameters a main window passes to a new VideoGenerator. */
  datatype Request = Request(
    text: string,
    inferenceSteps: int,
    guidanceScale: int,
    numFrames: int,
    projectName: string,
    sequenceNumber: nat,
    outputDir: string,
    numVideos: nat)

  /**
   * What happens to one video: whether the pipeline call returns, whether
   * export_to_video returns, whether ffmpeg and the temporary-file removal
   * return (autoplay only), and the two clock differences the loop computes.
   */
  datatype Attempt = Attempt(
    generated: bool,
    exported: bool,
    encoded: bool,
    cleaned: bool,
    elapsed: real,
    generationTime: real)

  /** Re-encoding: autoplay. Direct: cineboard and text-to-video.py. */
  datatype Variant = Reencoding | Direct

  /** The calls a run makes and the signals it emits, in order. */
  datatype Effect =
    | Generate(seed: int)
    | Progress(percent: int)
    | Estimate(remaining: real)
    | Reencode(source: string, target: string)
    | VideoGenerated(path: string, generationTime: Option<real>)
    | Finished

  /** The video reaches the video_generated signal. */
  predicate Completes(v: Variant, a: Attempt) {
    match v
    case Reencoding => a.generated && a.exported && a.encoded && a.cleaned
    case Direct => a.generated && a.exported
  }

  function OutputPath(req: Request, idx: nat): string {
    Join(req.outputDir, OutputFileName(req.projectName, req.sequenceNumber, idx))
  }

  function TempPath(req: Request, idx: nat): string {
    Join(req.outputDir, TempFileName(req.projectName, req.sequenceNumber, idx))
  }

  /** What follows a successful export: re-encoding (autoplay) and the video_generated signal. */
  function ExportEffects(v: Variant, req: Request, idx: nat, a: Attempt): seq<Effect> {
    match v
    case Direct => [VideoGenerated(OutputPath(req, idx), None)]
    case Reencoding =>
      [Reencode(TempPath(req, idx), OutputPath(req, idx))]
      + (if a.encoded && a.cleaned then [VideoGenerated(OutputPath(req, idx), Some(a.generationTime))] else [])
  }

  /** The effects of iteration idx; an exception ends the list where it is raised. */
  function VideoEffects(v: Variant, req: Request, idx: nat, a: Attempt): seq<Effect>
    requires idx < req.numVideos
  {
    var n := req.numVideos;
    var generate := Generate(Seed(idx));
    var progress := Progress(Percent(idx + 1, n));
    var estimate := Estimate(RemainingTime(a.elapsed, idx + 1, n));
    if !a.generated then [generate]
    else if !a.exported then [generate, progress, estimate]
    else [generate, progress, estimate] + ExportEffects(v, req, idx, a)
  }

  /** The effects of the iterations from idx on, ending with finished unless one raises. */
  function EffectsFrom(v: Variant, req: Request, attempts: seq<Attempt>, idx: nat): seq<Effect>
    requires idx <= req.numVideos <= |attempts|
    decreases req.numVideos - idx
  {
    if idx == req.numVideos then [Finished]
    else if Completes(v, attempts[idx]) then VideoEffects(v, req, idx, attempts[idx]) + EffectsFrom(v, req, attempts, idx + 1)
    else VideoEffects(v, req, idx, attempts[idx])
  }

  /** Everything one run does; when loading the pipeline raises, it does nothing else. */
  function Trace(v: Variant, req: Request, loaded: bool, attempts: seq<Attempt>): (effects: seq<Effect>)
    requires req.numVideos <= |attempts|
    ensures effects == [] <==> !loaded
    ensures loaded && req.numVideos > 0 ==> effects[0] == Generate(BaseSeed)
  {
    if loaded then EffectsFrom(v, req, attempts, 0) else []
  }

  /** The index of the first video from idx on that does not complete, or the video count. */
  function CompletedUpTo(v: Variant, attempts: seq<Attempt>, idx: nat, n: nat): (k: nat)
    requires idx <= n <= |attempts|
    ensures idx <= k <= n
    ensures forall i :: idx <= i < k ==> Completes(v, attempts[i])
    ensures k < n ==> !Completes(v, attempts[k])
    decreases n - idx
  {
    if idx == n || !Completes(v, attempts[idx]) then idx else CompletedUpTo(v, attempts, idx + 1, n)
  }

  /** One past the last video from idx on whose generation is attempted. */
  function AttemptedUpTo(v: Variant, attempts: seq<Attempt>, idx: nat, n: nat): (m: nat)
    requires idx <= n <= |attempts|
    ensures idx <= m <= n
  {
    var k := CompletedUpTo(v, attempts, idx, n);
    if k < n then k + 1 else k
  }

  /** The number of videos that reach video_generated in a run. */
  function CompletedCount(v: Variant, req: Request, loaded: bool, attempts: seq<Attempt>): nat
    requires req.numVideos <= |attempts|
  {
    if loaded then CompletedUpTo(v, attempts, 0, req.numVideos) else 0
  }

  /** What f picks out of one effect. */
  function Picked<U>(e: Effect, f: Effect -> Option<U>): seq<U> {
    if f(e).Some? then [f(e).value] else []
  }

  /** The items of a list of effects that f picks out, in order. */
  function Collect<U>(effects: seq<Effect>, f: Effect -> Option<U>): seq<U>
    decreases |effects|
  {
    if effects == [] then [] else Picked(effects[0], f) + Collect(effects[1..], f)
  }

  lemma {:induction false} CollectAppend<U>(a: seq<Effect>, b: seq<Effect>, f: Effect -> Option<U>)
    ensures Collect(a + b, f) == Collect(a, f) + Collect(b, f)
    decreases |a|
  {
    if a == [] {
      assert a + b == b;
    } else {
      assert (a + b)[1..] == a[1..] + b;
      CollectAppend(a[1..], b, f);
    }
  }

  lemma CollectSingle<U>(e: Effect, f: Effect -> Option<U>)
    ensures Collect([e], f) == Picked(e, f)
  {
    assert [e][1..] == [];
  }

  lemma CollectThree<U>(x: Effect, y: Effect, z: Effect, f: Effect -> Option<U>)
    ensures Collect([x, y, z], f) == Picked(x, f) + Picked(y, f) + Picked(z, f)
  {
    assert [x, y, z][1..] == [y, z];
    assert [y, z][1..] == [z];
    CollectSingle(z, f);
  }

  function PathOf(e: Effect): Option<string> {
    if e.VideoGenerated? then Some(e.path) else None
  }

  function SeedOf(e: Effect): Option<int> {
    if e.Generate? then Some(e.seed) else None
  }

  function PercentOf(e: Effect): Option<int> {
    if e.Progress? then Some(e.percent) else None
  }

  function FinishOf(e: Effect): Option<()> {
    if e.Finished? then Some(()) else None
  }

  /** The paths video_generated carries, in emission order. */
  function VideoPaths(effects: seq<Effect>): seq<string> {
    Collect(effects, PathOf)
  }

  /** What any filter picks out of one iteration, call by call. */
  lemma VideoEffectsCollect<U>(v: Variant, req: Request, idx: nat, a: Attempt, f: Effect -> Option<U>)
    requires idx < req.numVideos
    ensures var three := Picked(Generate(Seed(idx)), f) + Picked(Progress(Percent(idx + 1, req.numVideos)), f)
                         + Picked(Estimate(RemainingTime(a.elapsed, idx + 1, req.numVideos)), f);
      && (!a.generated ==> Collect(VideoEffects(v, req, idx, a), f) == Picked(Generate(Seed(idx)), f))
      && (a.generated && !a.exported ==> Collect(VideoEffects(v, req, idx, a), f) == three)
      && (a.generated && a.exported ==>
            Collect(VideoEffects(v, req, idx, a), f) == three + Collect(ExportEffects(v, req, idx, a), f))
  {
    var n := req.numVideos;
    var g, p, e := Generate(Seed(idx)), Progress(Percent(idx + 1, n)), Estimate(RemainingTime(a.elapsed, idx + 1, n));
    if !a.generated {
      CollectSingle(g, f);
    } else {
      CollectThree(g, p, e, f);
      if a.exported {
        CollectAppend([g, p, e], ExportEffects(v, req, idx, a), f);
      }
    }
  }

  lemma ExportEffectsCollect<U>(v: Variant, req: Request, idx: nat, a: Attempt, f: Effect -> Option<U>)
    ensures Collect(ExportEffects(v, req, idx, a), f)
      == match v
         case Direct => Picked(VideoGenerated(OutputPath(req, idx), None), f)
         case Reencoding =>
           Picked(Reencode(TempPath(req, idx), OutputPath(req, idx)), f)
           + (if a.encoded && a.cleaned then Picked(VideoGenerated(OutputPath(req, idx), Some(a.generationTime)), f)
              else [])
  {
    var r := Reencode(TempPath(req, idx), OutputPath(req, idx));
    match v
    case Direct =>
      CollectSingle(VideoGenerated(OutputPath(req, idx), None), f);
    case Reencoding =>
      if a.encoded && a.cleaned {
        var g := VideoGenerated(OutputPath(req, idx), Some(a.generationTime));
        assert [r] + [g] == [r, g];
        assert [r, g][1..] == [g];
        CollectSingle(g, f);
      } else {
        CollectSingle(r, f);
      }
  }

  lemma VideoEffectsPaths(v: Variant, req: Request, idx: nat, a: Attempt)
    requires idx < req.numVideos
    ensures VideoPaths(VideoEffects(v, req, idx, a)) == if Completes(v, a) then [OutputPath(req, idx)] else []
  {
    VideoEffectsCollect(v, req, idx, a, PathOf);
    ExportEffectsCollect(v, req, idx, a, PathOf);
  }

  /** A list none of whose effects f picks gives nothing. */
  lemma {:induction false} CollectNone<U>(t: seq<Effect>, f: Effect -> Option<U>)
    requires forall i :: 0 <= i < |t| ==> f(t[i]).None?
    ensures Collect(t, f) == []
    decreases |t|
  {
    if t != [] {
      assert forall i :: 0 <= i < |t[1..]| ==> t[1..][i] == t[i + 1];
      CollectNone(t[1..], f);
    }
  }

  /** Exporting and re-encoding carry no seed and no progress value. */
  lemma ExportEffectsNoSeedOrPercent(v: Variant, req: Request, idx: nat, a: Attempt)
    ensures Collect(ExportEffects(v, req, idx, a), SeedOf) == []
    ensures Collect(ExportEffects(v, req, idx, a), PercentOf) == []
  {
    var t := ExportEffects(v, req, idx, a);
    assert forall i :: 0 <= i < |t| ==> t[i].Reencode? || t[i].VideoGenerated?;
    CollectNone(t, SeedOf);
    CollectNone(t, PercentOf);
  }

  lemma VideoEffectsSeeds(v: Variant, req: Request, idx: nat, a: Attempt)
    requires idx < req.numVideos
    ensures Collect(VideoEffects(v, req, idx, a), SeedOf) == [Seed(idx)]
  {
    var n := req.numVideos;
    var g, p, e := Generate(Seed(idx)), Progress(Percent(idx + 1, n)), Estimate(RemainingTime(a.elapsed, idx + 1, n));
    if !a.generated {
      CollectSingle(g, SeedOf);
    } else {
      CollectThree(g, p, e, SeedOf);
      if a.exported {
        CollectAppend([g, p, e], ExportEffects(v, req, idx, a), SeedOf);
        ExportEffectsNoSeedOrPercent(v, req, idx, a);
      }
    }
  }

  lemma VideoEffectsPercents(v: Variant, req: Request, idx: nat, a: Attempt)
    requires idx < req.numVideos
    ensures Collect(VideoEffects(v, req, idx, a), PercentOf)
      == if a.generated then [Percent(idx + 1, req.numVideos)] else []
  {
    var n := req.numVideos;
    var g, p, e := Generate(Seed(idx)), Progress(Percent(idx + 1, n)), Estimate(RemainingTime(a.elapsed, idx + 1, n));
    if !a.generated {
      CollectSingle(g, PercentOf);
    } else {
      CollectThree(g, p, e, PercentOf);
      if a.exported {
        CollectAppend([g, p, e], ExportEffects(v, req, idx, a), PercentOf);
        ExportEffectsNoSeedOrPercent(v, req, idx, a);
      }
    }
  }

  lemma VideoEffectsNoFinish(v: Variant, req: Request, idx: nat, a: Attempt)
    requires idx < req.numVideos
    ensures Collect(VideoEffects(v, req, idx, a), FinishOf) == []
  {
    var t := VideoEffects(v, req, idx, a);
    assert Finished !in t;
    FinishedInCollect(t);
  }

  /** The final paths of videos lo .. hi - 1, in index order. */
  function PathsBetween(req: Request, lo: nat, hi: nat): (paths: seq<string>)
    ensures |paths| == if lo <= hi then hi - lo else 0
    decreases hi - lo
  {
    if hi <= lo then [] else [OutputPath(req, lo)] + PathsBetween(req, lo + 1, hi)
  }

  lemma {:induction false} PathsBetweenIndex(req: Request, lo: nat, hi: nat, i: nat)
    requires lo + i < hi
    ensures PathsBetween(req, lo, hi)[i] == OutputPath(req, lo + i)
    decreases i
  {
    if i > 0 {
      PathsBetweenIndex(req, lo + 1, hi, i - 1);
    }
  }

  lemma {:induction false} PathsFrom(v: Variant, req: Request, attempts: seq<Attempt>, idx: nat)
    requires idx <= req.numVideos <= |attempts|
    ensures VideoPaths(EffectsFrom(v, req, attempts, idx))
      == PathsBetween(req, idx, CompletedUpTo(v, attempts, idx, req.numVideos))
    decreases req.numVideos - idx
  {
    var n := req.numVideos;
    if idx == n {
      CollectSingle(Finished, PathOf);
    } else {
      var a := attempts[idx];
      var t := VideoEffects(v, req, idx, a);
      VideoEffectsPaths(v, req, idx, a);
      if Completes(v, a) {
        var rest := EffectsFrom(v, req, attempts, idx + 1);
        assert EffectsFrom(v, req, attempts, idx) == t + rest;
        assert CompletedUpTo(v, attempts, idx, n) == CompletedUpTo(v, attempts, idx + 1, n);
        CollectAppend(t, rest, PathOf);
        PathsFrom(v, req, attempts, idx + 1);
      } else {
        assert EffectsFrom(v, req, attempts, idx) == t;
        assert CompletedUpTo(v, attempts, idx, n) == idx;
      }
    }
  }

  /** The seeds of videos lo .. hi - 1, in index order. */
  function SeedsBetween(lo: nat, hi: nat): (seeds: seq<int>)
    ensures |seeds| == if lo <= hi then hi - lo else 0
    decreases hi - lo
  {
    if hi <= lo then [] else [Seed(lo)] + SeedsBetween(lo + 1, hi)
  }

  /** Seeds are 42, 43, ...: the seed at position i is 42 + lo + i. */
  lemma {:induction false} SeedsBetweenIndex(lo: nat, hi: nat, i: nat)
    requires lo + i < hi
    ensures SeedsBetween(lo, hi)[i] == BaseSeed + lo + i
    decreases i
  {
    if i > 0 {
      SeedsBetweenIndex(lo + 1, hi, i - 1);
    }
  }

  lemma SeedsStop(v: Variant, req: Request, attempts: seq<Attempt>, idx: nat)
    requires idx < req.numVideos <= |attempts|
    requires !Completes(v, attempts[idx])
    ensures Collect(EffectsFrom(v, req, attempts, idx), SeedOf)
      == SeedsBetween(idx, AttemptedUpTo(v, attempts, idx, req.numVideos))
  {
    VideoEffectsSeeds(v, req, idx, attempts[idx]);
    assert CompletedUpTo(v, attempts, idx, req.numVideos) == idx;
    assert SeedsBetween(idx, idx + 1) == [Seed(idx)] + SeedsBetween(idx + 1, idx + 1);
  }

  lemma SeedsStep(v: Variant, req: Request, attempts: seq<Attempt>, idx: nat)
    requires idx < req.numVideos <= |attempts|
    requires Completes(v, attempts[idx])
    requires Collect(EffectsFrom(v, req, attempts, idx + 1), SeedOf)
      == SeedsBetween(idx + 1, AttemptedUpTo(v, attempts, idx + 1, req.numVideos))
    ensures Collect(EffectsFrom(v, req, attempts, idx), SeedOf)
      == SeedsBetween(idx, AttemptedUpTo(v, attempts, idx, req.numVideos))
  {
    var a := attempts[idx];
    VideoEffectsSeeds(v, req, idx, a);
    var m := AttemptedUpTo(v, attempts, idx + 1, req.numVideos);
    assert AttemptedUpTo(v, attempts, idx, req.numVideos) == m;
    assert idx + 1 <= m;
    CollectAppend(VideoEffects(v, req, idx, a), EffectsFrom(v, req, attempts, idx + 1), SeedOf);
    assert SeedsBetween(idx, m) == [Seed(idx)] + SeedsBetween(idx + 1, m);
  }

  lemma {:induction false} SeedsFrom(v: Variant, req: Request, attempts: seq<Attempt>, idx: nat)
    requires idx <= req.numVideos <= |attempts|
    ensures Collect(EffectsFrom(v, req, attempts, idx), SeedOf)
      == SeedsBetween(idx, AttemptedUpTo(v, attempts, idx, req.numVideos))
    decreases req.numVideos - idx
  {
    if idx == req.numVideos {
      CollectSingle(Finished, SeedOf);
    } else if Completes(v, attempts[idx]) {
      SeedsFrom(v, req, attempts, idx + 1);
      SeedsStep(v, req, attempts, idx);
    } else {
      SeedsStop(v, req, attempts, idx);
    }
  }

  /** Effects that hold no finished signal add none in front of others. */
  lemma FinishAfter(t: seq<Effect>, rest: seq<Effect>)
    requires Collect(t, FinishOf) == []
    ensures Collect(t + rest, FinishOf) == Collect(rest, FinishOf)
  {
    CollectAppend(t, rest, FinishOf);
  }

  lemma {:induction false} FinishFrom(v: Variant, req: Request, attempts: seq<Attempt>, idx: nat)
    requires idx <= req.numVideos <= |attempts|
    ensures Collect(EffectsFrom(v, req, attempts, idx), FinishOf)
      == if CompletedUpTo(v, attempts, idx, req.numVideos) == req.numVideos then [()] else []
    decreases req.numVideos - idx
  {
    var n := req.numVideos;
    if idx == n {
      CollectSingle(Finished, FinishOf);
    } else {
      var a := attempts[idx];
      var t := VideoEffects(v, req, idx, a);
      VideoEffectsNoFinish(v, req, idx, a);
      if Completes(v, a) {
        var j := idx + 1;
        var rest := EffectsFrom(v, req, attempts, j);
        assert EffectsFrom(v, req, attempts, idx) == t + rest;
        assert CompletedUpTo(v, attempts, idx, n) == CompletedUpTo(v, attempts, j, n);
        FinishAfter(t, rest);
        FinishFrom(v, req, attempts, j);
      } else {
        assert EffectsFrom(v, req, attempts, idx) == t;
        assert CompletedUpTo(v, attempts, idx, n) == idx;
      }
    }
  }

  lemma {:induction false} FinishedInCollect(t: seq<Effect>)
    ensures Finished in t <==> Collect(t, FinishOf) != []
    decreases |t|
  {
    if t != [] {
      FinishedInCollect(t[1..]);
      assert t == [t[0]] + t[1..];
    }
  }

  /**
   * video_generated is emitted once for each completed video, in index order,
   * with that index's final path; the seeds passed to the pipeline are
   * 42, 43, ... for the videos attempted; finished is emitted exactly when the
   * pipeline loaded and every video completed.
   */
  lemma TraceContents(v: Variant, req: Request, loaded: bool, attempts: seq<Attempt>)
    requires req.numVideos <= |attempts|
    ensures var t := Trace(v, req, loaded, attempts);
      var k := CompletedCount(v, req, loaded, attempts);
      && VideoPaths(t) == PathsBetween(req, 0, k)
      && Collect(t, SeedOf) == (if loaded then SeedsBetween(0, AttemptedUpTo(v, attempts, 0, req.numVideos)) else [])
      && ((Finished in t) <==> loaded && forall i :: 0 <= i < req.numVideos ==> Completes(v, attempts[i]))
  {
    var t := Trace(v, req, loaded, attempts);
    FinishedInCollect(t);
    if loaded {
      PathsFrom(v, req, attempts, 0);
      SeedsFrom(v, req, attempts, 0);
      FinishFrom(v, req, attempts, 0);
    }
  }

  /** The progress percentages reported after generating videos lo .. hi - 1 of n. */
  function PercentsBetween(lo: nat, hi: nat, n: nat): (ps: seq<int>)
    requires hi <= n
    ensures |ps| == if lo <= hi then hi - lo else 0
    decreases hi - lo
  {
    if hi <= lo then [] else [Percent(lo + 1, n)] + PercentsBetween(lo + 1, hi, n)
  }

  lemma {:induction false} PercentsBetweenIndex(lo: nat, hi: nat, n: nat, i: nat)
    requires lo + i < hi <= n
    ensures PercentsBetween(lo, hi, n)[i] == Percent(lo + i + 1, n)
    decreases i
  {
    if i > 0 {
      PercentsBetweenIndex(lo + 1, hi, n, i - 1);
    }
  }

  /**
   * The progress bar never moves back within a run, and it reaches 100
   * exactly when the last video has been generated.
   */
  lemma PercentsBetweenProgress(lo: nat, hi: nat, n: nat)
    requires hi <= n
    ensures var ps := PercentsBetween(lo, hi, n);
      && (forall i, j :: 0 <= i < j < |ps| ==> ps[i] <= ps[j])
      && (forall i :: 0 <= i < |ps| ==> (ps[i] == 100 <==> i == |ps| - 1 && hi == n))
  {
    var ps := PercentsBetween(lo, hi, n);
    forall i, j | 0 <= i < j < |ps|
      ensures ps[i] <= ps[j]
    {
      PercentsBetweenIndex(lo, hi, n, i);
      PercentsBetweenIndex(lo, hi, n, j);
      PercentMonotone(lo + i + 1, lo + j + 1, n);
    }
    forall i | 0 <= i < |ps|
      ensures ps[i] == 100 <==> i == |ps| - 1 && hi == n
    {
      PercentsBetweenIndex(lo, hi, n, i);
    }
  }

  /** One past the last video from idx on whose pipeline call returns. */
  function GeneratedUpTo(v: Variant, attempts: seq<Attempt>, idx: nat, n: nat): (m: nat)
    requires idx <= n <= |attempts|
    ensures idx <= m <= n
  {
    var k := CompletedUpTo(v, attempts, idx, n);
    if k < n && attempts[k].generated then k + 1 else k
  }

  lemma PercentsStop(v: Variant, req: Request, attempts: seq<Attempt>, idx: nat)
    requires idx < req.numVideos <= |attempts|
    requires !Completes(v, attempts[idx])
    ensures Collect(EffectsFrom(v, req, attempts, idx), PercentOf)
      == PercentsBetween(idx, GeneratedUpTo(v, attempts, idx, req.numVideos), req.numVideos)
  {
    var n := req.numVideos;
    VideoEffectsPercents(v, req, idx, attempts[idx]);
    assert CompletedUpTo(v, attempts, idx, n) == idx;
    assert PercentsBetween(idx, idx + 1, n) == [Percent(idx + 1, n)] + PercentsBetween(idx + 1, idx + 1, n);
  }

  lemma PercentsStep(v: Variant, req: Request, attempts: seq<Attempt>, idx: nat)
    requires idx < req.numVideos <= |attempts|
    requires Completes(v, attempts[idx])
    requires Collect(EffectsFrom(v, req, attempts, idx + 1), PercentOf)
      == PercentsBetween(idx + 1, GeneratedUpTo(v, attempts, idx + 1, req.numVideos), req.numVideos)
    ensures Collect(EffectsFrom(v, req, attempts, idx), PercentOf)
      == PercentsBetween(idx, GeneratedUpTo(v, attempts, idx, req.numVideos), req.numVideos)
  {
    var n := req.numVideos;
    var a := attempts[idx];
    VideoEffectsPercents(v, req, idx, a);
    var m := GeneratedUpTo(v, attempts, idx + 1, n);
    assert GeneratedUpTo(v, attempts, idx, n) == m;
    CollectAppend(VideoEffects(v, req, idx, a), EffectsFrom(v, req, attempts, idx + 1), PercentOf);
    assert PercentsBetween(idx, m, n) == [Percent(idx + 1, n)] + PercentsBetween(idx + 1, m, n);
  }

  lemma {:induction false} PercentsFrom(v: Variant, req: Request, attempts: seq<Attempt>, idx: nat)
    requires idx <= req.numVideos <= |attempts|
    ensures Collect(EffectsFrom(v, req, attempts, idx), PercentOf)
      == PercentsBetween(idx, GeneratedUpTo(v, attempts, idx, req.numVideos), req.numVideos)
    decreases req.numVideos - idx
  {
    if idx == req.numVideos {
      CollectSingle(Finished, PercentOf);
    } else if Completes(v, attempts[idx]) {
      PercentsFrom(v, req, attempts, idx + 1);
      PercentsStep(v, req, attempts, idx);
    } else {
      PercentsStop(v, req, attempts, idx);
    }
  }

  /**
   * The progress values of a run are int(((idx + 1) / n) * 100) for each
   * video whose pipeline call returned, in order: they never decrease, and
   * 100 is reported exactly once, at the end, when the last video was generated.
   */
  lemma ProgressValues(v: Variant, req: Request, loaded: bool, attempts: seq<Attempt>)
    requires req.numVideos <= |attempts|
    ensures var ps := Collect(Trace(v, req, loaded, attempts), PercentOf);
      && ps == (if loaded then PercentsBetween(0, GeneratedUpTo(v, attempts, 0, req.numVideos), req.numVideos) else [])
      && (forall i, j :: 0 <= i < j < |ps| ==> ps[i] <= ps[j])
      && (forall i :: 0 <= i < |ps| ==> (ps[i] == 100 <==> i == |ps| - 1 && i == req.numVideos - 1))
  {
    if loaded {
      PercentsFrom(v, req, attempts, 0);
      PercentsBetweenProgress(0, GeneratedUpTo(v, attempts, 0, req.numVideos), req.numVideos);
    }
  }

  /** One iteration's effects, followed by the rest when the video completes. */
  lemma EffectsFromUnfold(v: Variant, req: Request, attempts: seq<Attempt>, idx: nat)
    requires idx < req.numVideos <= |attempts|
    ensures Completes(v, attempts[idx]) ==>
      EffectsFrom(v, req, attempts, idx) == VideoEffects(v, req, idx, attempts[idx]) + EffectsFrom(v, req, attempts, idx + 1)
    ensures !Completes(v, attempts[idx]) ==> EffectsFrom(v, req, attempts, idx) == VideoEffects(v, req, idx, attempts[idx])
  {
  }

  /**
   * The loop invariant of a run, carried over one iteration: a completed
   * video's effects extend the prefix, and an exception ends the run there.
   */
  lemma EffectsStep(v: Variant, req: Request, attempts: seq<Attempt>, idx: nat, done: seq<Effect>, step: seq<Effect>, whole: seq<Effect>)
    requires idx < req.numVideos <= |attempts|
    requires done + EffectsFrom(v, req, attempts, idx) == whole
    requires step == VideoEffects(v, req, idx, attempts[idx])
    ensures Completes(v, attempts[idx]) ==> (done + step) + EffectsFrom(v, req, attempts, idx + 1) == whole
    ensures !Completes(v, attempts[idx]) ==> done + step == whole
  {
    EffectsFromUnfold(v, req, attempts, idx);
    if Completes(v, attempts[idx]) {
      Jobs.AppendAssoc(done, step, EffectsFrom(v, req, attempts, idx + 1));
    }
  }


  /**
   * One iteration of autoplay's loop: generate with seed 42 + idx, emit
   * progress and the estimate, export to the temporary file, re-encode it
   * with ffmpeg to the final path, remove the temporary file and emit
   * video_generated with the final path and the generation time. `ok` is
   * false when one of those calls raised, which ends the run.
   */
  method ReencodeIteration(req: Request, idx: nat, a: Attempt) returns (step: seq<Effect>, ok: bool)
    requires idx < req.numVideos
    ensures step == VideoEffects(Reencoding, req, idx, a)
    ensures ok <==> Completes(Reencoding, a)
  {
    var n := req.numVideos;
    step := [Generate(Seed(idx))];
    if !a.generated {
      return step, false;
    }
    step := step + [Progress(Percent(idx + 1, n)), Estimate(RemainingTime(a.elapsed, idx + 1, n))];
    if !a.exported {
      return step, false;
    }
    var temp := TempPath(req, idx);
    var output := OutputPath(req, idx);
    step := step + [Reencode(temp, output)];
    if !a.encoded || !a.cleaned {
      return step, false;
    }
    step := step + [VideoGenerated(output, Some(a.generationTime))];
    ok := true;
  }

  /**
   * One iteration of cineboard's loop: generate with seed 42 + idx, emit
   * progress and the estimate, export to the final path and emit
   * video_generated with it. `ok` is false when a call raised.
   */
  method DirectIteration(req: Request, idx: nat, a: Attempt) returns (step: seq<Effect>, ok: bool)
    requires idx < req.numVideos
    ensures step == VideoEffects(Direct, req, idx, a)
    ensures ok <==> Completes(Direct, a)
  {
    var n := req.numVideos;
    step := [Generate(Seed(idx))];
    if !a.generated {
      return step, false;
    }
    step := step + [Progress(Percent(idx + 1, n)), Estimate(RemainingTime(a.elapsed, idx + 1, n))];
    var output := OutputPath(req, idx);
    if !a.exported {
      return step, false;
    }
    step := step + [VideoGenerated(output, None)];
    ok := true;
  }

  /**
   * autoplay's VideoGenerator.run: the iterations in index order, then
   * finished after the last video. When loading the pipeline or any call of
   * an iteration raises, the exception is logged and the run ends silently.
   */
  method RunWithReencode(req: Request, loaded: bool, attempts: seq<Attempt>) returns (effects: seq<Effect>)
    requires |attempts| == req.numVideos
    ensures effects == Trace(Reencoding, req, loaded, attempts)
  {
    effects := [];
    if !loaded {
      return;
    }
    ghost var whole := EffectsFrom(Reencoding, req, attempts, 0);
    var n := req.numVideos;
    var idx := 0;
    while idx < n
      invariant 0 <= idx <= n
      invariant effects + EffectsFrom(Reencoding, req, attempts, idx) == whole
    {
      var step, ok := ReencodeIteration(req, idx, attempts[idx]);
      EffectsStep(Reencoding, req, attempts, idx, effects, step, whole);
      effects := effects + step;
      if !ok {
        return;
      }
      idx := idx + 1;
    }
    effects := effects + [Finished];
  }

  /**
   * cineboard's VideoGenerator.run (and text-to-video.py's): the iterations
   * in index order, then finished after the last video; any exception ends
   * the run silently.
   */
  method RunDirect(req: Request, loaded: bool, attempts: seq<Attempt>) returns (effects: seq<Effect>)
    requires |attempts| == req.numVideos
    ensures effects == Trace(Direct, req, loaded, attempts)
  {
    effects := [];
    if !loaded {
      return;
    }
    ghost var whole := EffectsFrom(Direct, req, attempts, 0);
    var n := req.numVideos;
    var idx := 0;
    while idx < n
      invariant 0 <= idx <= n
      invariant effects + EffectsFrom(Direct, req, attempts, idx) == whole
    {
      var step, ok := DirectIteration(req, idx, attempts[idx]);
      EffectsStep(Direct, req, attempts, idx, effects, step, whole);
      effects := effects + step;
      if !ok {
        return;
      }
      idx := idx + 1;
    }
    effects := effects + [Finished];
  }
}
