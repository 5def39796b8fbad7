/**
 * The table of generated videos in autoplay/ui/video_grid.py: a list of
 * (path, generation time) entries without repeated paths, the table row
 * count that follows it, and the generation-time column text.
 */
module AutoplayGrid {
  import opened Wrappers
  import opened Text
  import opened Numeric

  datatype VideoInfo = VideoInfo(path: string, generationTime: Option<real>)

  /** The paths of the entries, in table order. */
  function Paths(infos: seq<VideoInfo>): (ps: seq<string>)
    ensures |ps| == |infos|
    ensures forall i :: 0 <= i < |infos| ==> ps[i] == infos[i].path
  {
    seq(|infos|, i requires 0 <= i < |infos| => infos[i].path)
  }

  predicate UniquePaths(infos: seq<VideoInfo>) {
    forall i, j :: 0 <= i < j < |infos| ==> infos[i].path != infos[j].path
  }

  /** [info for info in infos if info[0] != path] */
  function Without(infos: seq<VideoInfo>, path: string): (r: seq<VideoInfo>)
    ensures |r| <= |infos|
    decreases |infos|
  {
    if infos == [] then []
    else if infos[0].path == path then Without(infos[1..], path)
    else [infos[0]] + Without(infos[1..], path)
  }

  /** Removal keeps exactly the entries with another path. */
  lemma {:induction false} WithoutMembers(infos: seq<VideoInfo>, path: string, x: VideoInfo)
    ensures x in Without(infos, path) <==> x in infos && x.path != path
    decreases |infos|
  {
    if infos != [] {
      WithoutMembers(infos[1..], path, x);
      assert infos == [infos[0]] + infos[1..];
    }
  }

  /** Removal keeps the other entries in their order: it changes nothing when the path is absent. */
  lemma {:induction false} WithoutAbsent(infos: seq<VideoInfo>, path: string)
    requires forall i :: 0 <= i < |infos| ==> infos[i].path != path
    ensures Without(infos, path) == infos
    decreases |infos|
  {
    if infos != [] {
      WithoutAbsent(infos[1..], path);
      assert infos == [infos[0]] + infos[1..];
    }
  }

  /** Removing the entry at position k of a list with unique paths leaves the entries before and after it. */
  lemma {:induction false} WithoutUnique(infos: seq<VideoInfo>, k: nat)
    requires UniquePaths(infos) && k < |infos|
    ensures Without(infos, infos[k].path) == infos[..k] + infos[k + 1..]
    decreases k
  {
    var path := infos[k].path;
    if k == 0 {
      WithoutAbsent(infos[1..], path);
    } else {
      var tail, j := infos[1..], k - 1;
      WithoutUnique(tail, j);
      assert tail[j] == infos[k];
      assert infos[..k] == [infos[0]] + tail[..j];
      assert infos[k + 1..] == tail[k..];
    }
  }

  /** Removal keeps the paths unique. */
  lemma {:induction false} WithoutKeepsUnique(infos: seq<VideoInfo>, path: string)
    requires UniquePaths(infos)
    ensures UniquePaths(Without(infos, path))
    decreases |infos|
  {
    if infos != [] {
      WithoutKeepsUnique(infos[1..], path);
      var rest := Without(infos[1..], path);
      forall x | x in rest ensures x.path != infos[0].path {
        WithoutMembers(infos[1..], path, x);
      }
    }
  }

  /** divmod(T, 3600) and divmod(remainder, 60), with Python's flooring division. */
  function Split(t: int): (hms: (int, int, int))
    ensures hms.0 * 3600 + hms.1 * 60 + hms.2 == t
    ensures 0 <= hms.1 < 60 && 0 <= hms.2 < 60
    ensures t >= 0 ==> hms.0 >= 0
  {
    var hours := t / 3600;
    var remainder := t % 3600;
    (hours, remainder / 60, remainder % 60)
  }

  /** "{s}s" */
  function SecondsText(sec: nat): string {
    NatToString(sec) + "s"
  }

  /** "{m}m {s}s" */
  function MinutesText(m: nat, sec: nat): string {
    NatToString(m) + ("m " + SecondsText(sec))
  }

  /** "{h}h {m}m {s}s" */
  function HoursText(h: nat, m: nat, sec: nat): string {
    NatToString(h) + ("h " + MinutesText(m, sec))
  }

  /** Whole seconds as "{h}h {m}m {s}s", "{m}m {s}s" or "{s}.00s", by the largest non-zero unit. */
  function FormatSeconds(t: int): (text: string)
    ensures |text| >= 2 && IsDigit(text[0]) && text[|text| - 1] == 's'
  {
    var (hours, minutes, secs) := Split(t);
    if hours > 0 then HoursText(hours, minutes, secs)
    else if minutes > 0 then MinutesText(minutes, secs)
    else NatToString(secs) + ".00s"
  }

  /** The generation-time column: "Unknown" when no time is known. */
  function FormatTime(seconds: Option<real>): (text: string)
    ensures text == "Unknown" <==> seconds.None?
  {
    match seconds
    case None => "Unknown"
    case Some(r) => FormatSeconds(Trunc(r))
  }

  /** s starts with the unit letter u and the space after it, as in "h " or "m ". */
  predicate UnitNext(s: string, u: char) {
    |s| >= 2 && s[0] == u && s[1] == ' '
  }

  /** "{s}s" read back as s. */
  function ReadSeconds(s: string): Option<int> {
    match ParseNat(s)
    case None => None
    case Some((c, tail)) => if tail == "s" then Some(c) else None
  }

  /** The rest of a "{m}m {s}s" text after its number m, read back as m * 60 + s. */
  function MinutesAfter(m: nat, tail: string): Option<int> {
    if UnitNext(tail, 'm') then
      match ReadSeconds(tail[2..])
      case None => None
      case Some(c) => Some(m * 60 + c)
    else None
  }

  /** "{m}m {s}s" read back as m * 60 + s. */
  function ReadMinutes(s: string): Option<int> {
    match ParseNat(s)
    case None => None
    case Some((m, tail)) => MinutesAfter(m, tail)
  }

  /** The rest of a column text after its leading number a, read back as whole seconds. */
  function DurationAfter(a: nat, rest: string): Option<int> {
    if UnitNext(rest, 'h') then
      match ReadMinutes(rest[2..])
      case None => None
      case Some(b) => Some(a * 3600 + b)
    else if rest == ".00s" then Some(a)
    else MinutesAfter(a, rest)
  }

  /** Reads a column text back as whole seconds. */
  function ParseDuration(s: string): Option<int> {
    match ParseNat(s)
    case None => None
    case Some((a, rest)) => DurationAfter(a, rest)
  }

  /** What follows a unit letter and its space. */
  lemma UnitPrefix(p: string, x: string)
    requires |p| == 2 && p[1] == ' '
    ensures UnitNext(p + x, p[0]) && (p + x)[2..] == x
  {
  }

  lemma MinutesAfterOf(m: nat, tail: string, x: string, c: int, t: int)
    requires UnitNext(tail, 'm') && tail[2..] == x && ReadSeconds(x) == Some(c) && m * 60 + c == t
    ensures MinutesAfter(m, tail) == Some(t)
  {
  }

  lemma ReadSecondsOf(s: string, sec: nat)
    requires ParseNat(s) == Some((sec, "s"))
    ensures ReadSeconds(s) == Some(sec)
  {
  }

  lemma ReadMinutesOf(s: string, m: nat, tail: string, t: int)
    requires ParseNat(s) == Some((m, tail)) && MinutesAfter(m, tail) == Some(t)
    ensures ReadMinutes(s) == Some(t)
  {
  }

  lemma DurationOf(s: string, a: nat, rest: string)
    requires ParseNat(s) == Some((a, rest))
    ensures ParseDuration(s) == DurationAfter(a, rest)
  {
  }

  lemma MinutesDurationAfter(m: nat, tail: string, t: int)
    requires UnitNext(tail, 'm') && MinutesAfter(m, tail) == Some(t)
    ensures DurationAfter(m, tail) == Some(t)
  {
  }

  lemma HoursDurationAfter(h: nat, rest: string, x: string, b: int, t: int)
    requires UnitNext(rest, 'h') && rest[2..] == x && ReadMinutes(x) == Some(b) && h * 3600 + b == t
    ensures DurationAfter(h, rest) == Some(t)
  {
  }

  /** "{s}s" reads back as s. */
  lemma SecondsTextReadBack(sec: nat)
    ensures ReadSeconds(SecondsText(sec)) == Some(sec)
  {
    ParseNatToString(sec, "s");
    ReadSecondsOf(SecondsText(sec), sec);
  }

  /** "{s}.00s" reads back as s. */
  lemma SecondsReadBack(sec: nat)
    ensures ParseDuration(NatToString(sec) + ".00s") == Some(sec)
  {
    ParseNatToString(sec, ".00s");
    DurationOf(NatToString(sec) + ".00s", sec, ".00s");
  }

  /** After its number, "{m}m {s}s" reads back as m * 60 + s. */
  lemma MinutesTail(m: nat, sec: nat, t: int)
    requires m * 60 + sec == t
    ensures ParseNat(MinutesText(m, sec)) == Some((m, "m " + SecondsText(sec)))
    ensures UnitNext("m " + SecondsText(sec), 'm')
    ensures MinutesAfter(m, "m " + SecondsText(sec)) == Some(t)
  {
    ParseNatToString(m, "m " + SecondsText(sec));
    UnitPrefix("m ", SecondsText(sec));
    SecondsTextReadBack(sec);
    MinutesAfterOf(m, "m " + SecondsText(sec), SecondsText(sec), sec, t);
  }

  /** "{m}m {s}s" reads back as m * 60 + s inside an hours text. */
  lemma MinutesReadBack(m: nat, sec: nat, t: int)
    requires m * 60 + sec == t
    ensures ReadMinutes(MinutesText(m, sec)) == Some(t)
  {
    MinutesTail(m, sec, t);
    ReadMinutesOf(MinutesText(m, sec), m, "m " + SecondsText(sec), t);
  }

  /** "{m}m {s}s" reads back as m * 60 + s on its own. */
  lemma MinutesDurationReadBack(m: nat, sec: nat, t: int)
    requires m * 60 + sec == t
    ensures ParseDuration(MinutesText(m, sec)) == Some(t)
  {
    MinutesTail(m, sec, t);
    DurationOf(MinutesText(m, sec), m, "m " + SecondsText(sec));
    MinutesDurationAfter(m, "m " + SecondsText(sec), t);
  }

  /** A number d followed by "h " and a minutes text reads back as hours plus those minutes. */
  lemma HoursTextOf(d: string, minutes: string, h: nat, b: int, t: int)
    requires ParseNat(d + ("h " + minutes)) == Some((h, "h " + minutes))
    requires ReadMinutes(minutes) == Some(b) && h * 3600 + b == t
    ensures ParseDuration(d + ("h " + minutes)) == Some(t)
  {
    DurationOf(d + ("h " + minutes), h, "h " + minutes);
    UnitPrefix("h ", minutes);
    HoursDurationAfter(h, "h " + minutes, minutes, b, t);
  }

  /** "{h}h {m}m {s}s" reads back as h * 3600 + m * 60 + s. */
  lemma HoursReadBack(h: nat, m: nat, sec: nat, t: int)
    requires h * 3600 + m * 60 + sec == t
    ensures ParseDuration(HoursText(h, m, sec)) == Some(t)
  {
    var b := m * 60 + sec;
    ParseNatToString(h, "h " + MinutesText(m, sec));
    MinutesReadBack(m, sec, b);
    HoursTextOf(NatToString(h), MinutesText(m, sec), h, b, t);
  }

  /** The three formats FormatSeconds chooses between, by the split of t. */
  lemma FormatSecondsCases(t: nat, h: int, m: int, sec: int)
    requires Split(t) == (h, m, sec)
    ensures h >= 0 && 0 <= m < 60 && 0 <= sec < 60 && h * 3600 + m * 60 + sec == t
    ensures h > 0 ==> FormatSeconds(t) == HoursText(h, m, sec)
    ensures h <= 0 && m > 0 ==> FormatSeconds(t) == MinutesText(m, sec)
    ensures h <= 0 && m <= 0 ==> FormatSeconds(t) == NatToString(sec) + ".00s"
    ensures h <= 0 ==> m * 60 + sec == t
    ensures h <= 0 && m <= 0 ==> sec == t
  {
  }

  /** Whole seconds read back from their text, whichever of the three formats was chosen. */
  lemma FormatSecondsReadsBack(t: nat)
    ensures ParseDuration(FormatSeconds(t)) == Some(t)
  {
    var hms := Split(t);
    var h, m, sec := hms.0, hms.1, hms.2;
    FormatSecondsCases(t, h, m, sec);
    if h > 0 {
      HoursReadBack(h, m, sec, t);
    } else if m > 0 {
      MinutesDurationReadBack(m, sec, t);
    } else {
      SecondsReadBack(sec);
    }
  }

  /** A known, non-negative time reads back as the whole seconds int() kept; no time reads "Unknown". */
  lemma FormatTimeReadsBack(seconds: Option<real>)
    requires seconds.Some? ==> seconds.value >= 0.0
    ensures seconds.None? ==> FormatTime(seconds) == "Unknown"
    ensures seconds.Some? ==> Trunc(seconds.value) >= 0 && ParseDuration(FormatTime(seconds)) == Some(Trunc(seconds.value))
  {
    if seconds.Some? {
      FormatSecondsReadsBack(Trunc(seconds.value));
    }
  }

  class VideoGrid {
    /** self.video_info */
    var videoInfo: seq<VideoInfo>
    /** The table's row count. */
    var rowCount: nat
    /** The paths announced with video_removed, in order. */
    var removedSignals: seq<string>

    ghost predicate Valid()
      reads this
    {
      UniquePaths(videoInfo) && rowCount == |videoInfo|
    }

    constructor ()
      ensures Valid()
      ensures videoInfo == [] && removedSignals == []
    {
      videoInfo := [];
      rowCount := 0;
      removedSignals := [];
    }

    /** Resizes the table to one row per entry (the cell contents are not modelled). */
    method UpdateTable()
      modifies this
      ensures rowCount == |videoInfo|
      ensures videoInfo == old(videoInfo) && removedSignals == old(removedSignals)
    {
      rowCount := |videoInfo|;
    }

    /**
     * A missing file is ignored and a path already shown is not added again;
     * otherwise the entry joins the end of the table.
     */
    method AddVideo(path: string, generationTime: Option<real>, onDisk: bool)
      requires Valid()
      modifies this
      ensures Valid()
      ensures removedSignals == old(removedSignals)
      ensures onDisk && path !in Paths(old(videoInfo)) ==> videoInfo == old(videoInfo) + [VideoInfo(path, generationTime)]
      ensures !onDisk || path in Paths(old(videoInfo)) ==> videoInfo == old(videoInfo)
    {
      if !onDisk {
        return;
      }
      if path !in Paths(videoInfo) {
        videoInfo := videoInfo + [VideoInfo(path, generationTime)];
        UpdateTable();
      }
    }

    /**
     * The Remove button: nothing happens unless the user confirms; then the
     * file is deleted and, if that succeeds, every entry with the path goes,
     * the table follows and video_removed is emitted. A failed deletion
     * leaves the list as it was.
     */
    method RemoveVideo(path: string, confirmed: bool, deleted: bool)
      requires Valid()
      modifies this
      ensures Valid()
      ensures confirmed && deleted ==>
        && videoInfo == Without(old(videoInfo), path)
        && removedSignals == old(removedSignals) + [path]
      ensures !(confirmed && deleted) ==> videoInfo == old(videoInfo) && removedSignals == old(removedSignals)
    {
      if confirmed && deleted {
        WithoutKeepsUnique(videoInfo, path);
        videoInfo := Without(videoInfo, path);
        UpdateTable();
        removedSignals := removedSignals + [path];
      }
    }
  }
}
