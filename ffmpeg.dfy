/** `get_ffmpeg_cmd` of `test2.py`: the ffmpeg command line that decodes a
    video into raw big-endian RGB565 frames, tuned by a priority-ordered
    substring test on the board's model string. The read of the model file
    is a parameter: `None` when it fails. */
module Ffmpeg {
  import opened Common

  /** The tuning the model string selects. */
  datatype Tuning = MultiThread | HardwareDecode | HighPerformance | Generic

  /** The lower-cased model string, or "generic" when it cannot be read. */
  function ModelName(deviceModel: Option<string>): (m: string)
    ensures deviceModel.None? ==> m == "generic"
    ensures deviceModel.Some? ==> m == Lower(deviceModel.value)
  {
    if deviceModel.Some? then Lower(deviceModel.value) else "generic"
  }

  /** The three tests, tried in order; the first that matches wins. */
  function TuningFor(m: string): (t: Tuning)
    ensures t == MultiThread <==> Contains(m, "zero 2") || Contains(m, "raspberry pi 3")
    ensures t == HardwareDecode <==>
      !(Contains(m, "zero 2") || Contains(m, "raspberry pi 3")) && Contains(m, "zero")
    ensures t == HighPerformance <==>
      !(Contains(m, "zero 2") || Contains(m, "raspberry pi 3")) && !Contains(m, "zero")
      && (Contains(m, "raspberry pi 4") || Contains(m, "raspberry pi 5"))
  {
    if Contains(m, "zero 2") || Contains(m, "raspberry pi 3") then MultiThread
    else if Contains(m, "zero") then HardwareDecode
    else if Contains(m, "raspberry pi 4") || Contains(m, "raspberry pi 5") then HighPerformance
    else Generic
  }

  /** The arguments placed before `-i`. */
  function InputArgs(t: Tuning): (args: seq<string>)
    ensures args == [] <==> t == Generic
    ensures args != [] ==> |args| == 2 && (args[0] == "-vcodec" <==> t == HardwareDecode)
  {
    match t
    case MultiThread => ["-threads", "4"]
    case HardwareDecode => ["-vcodec", "h264_v4l2m2m"]
    case HighPerformance => ["-threads", "4"]
    case Generic => []
  }

  /** The scaling filter `scale=W:H:flags=F`. */
  function ScaleFilter(width: int, height: int, flag: string): (f: string)
    ensures StartsWith(f, "scale=") && |f| > |"scale=::flags="| + |flag|
  {
    "scale=" + IntToString(width) + ":" + IntToString(height) + ":flags=" + flag
  }

  /** The resampling flag: bicubic only for the high-performance boards. */
  function ScaleFlag(t: Tuning): (f: string)
    ensures f == "bicubic" <==> t == HighPerformance
    ensures f != "bicubic" ==> f == "neighbor"
  {
    if t == HighPerformance then "bicubic" else "neighbor"
  }

  /** The arguments after the tuning: input, filter, raw RGB565 big-endian frames to standard output, quiet. */
  function OutputArgs(videoPath: string, vf: string): seq<string> {
    ["-i", videoPath, "-vf", vf, "-vcodec", "rawvideo", "-pix_fmt", "rgb565be",
     "-f", "image2pipe", "-loglevel", "quiet", "-"]
  }

  /** `ffmpeg` and the tuning arguments. */
  function Head(t: Tuning): seq<string> {
    ["ffmpeg"] + InputArgs(t)
  }

  /** The command for a given tuning. */
  function Command(t: Tuning, videoPath: string, width: int, height: int): (cmd: seq<string>)
    ensures |cmd| == 14 + |InputArgs(t)| && cmd[0] == "ffmpeg" && cmd[|cmd| - 1] == "-"
  {
    Head(t) + OutputArgs(videoPath, ScaleFilter(width, height, ScaleFlag(t)))
  }

  /** `get_ffmpeg_cmd(video_path, width, height)` for the model string read from the device. */
  function GetFfmpegCmd(deviceModel: Option<string>, videoPath: string, width: int, height: int): (cmd: seq<string>)
    ensures |cmd| >= 14 && cmd[0] == "ffmpeg" && cmd[|cmd| - 1] == "-"
  {
    Command(TuningFor(ModelName(deviceModel)), videoPath, width, height)
  }

  /** `a` immediately followed by `b` somewhere in the argument list. */
  predicate HasPair(cmd: seq<string>, a: string, b: string) {
    exists i :: 0 <= i < |cmd| - 1 && cmd[i] == a && cmd[i + 1] == b
  }

  /** A pair of adjacent arguments stays adjacent behind a prefix. */
  lemma PairBehind(a: seq<string>, b: seq<string>, m: int)
    requires 0 <= m < |b| - 1
    ensures HasPair(a + b, b[m], b[m + 1])
  {
    assert (a + b)[|a| + m] == b[m] && (a + b)[|a| + m + 1] == b[m + 1];
  }

  /** Behind any prefix, the output arguments pair each option with its value. */
  lemma OutputPairs(a: seq<string>, videoPath: string, vf: string)
    ensures var cmd := a + OutputArgs(videoPath, vf);
      && HasPair(cmd, "-i", videoPath)
      && HasPair(cmd, "-vf", vf)
      && HasPair(cmd, "-vcodec", "rawvideo")
      && HasPair(cmd, "-pix_fmt", "rgb565be")
      && HasPair(cmd, "-f", "image2pipe")
      && HasPair(cmd, "-loglevel", "quiet")
  {
    var out := OutputArgs(videoPath, vf);
    PairBehind(a, out, 0);
    PairBehind(a, out, 2);
    PairBehind(a, out, 4);
    PairBehind(a, out, 6);
    PairBehind(a, out, 8);
    PairBehind(a, out, 10);
  }

  /** The command always reads the given file, scales it to the requested
      size, writes big-endian RGB565 raw frames to standard output, and
      runs quietly; the options start right after `ffmpeg` with the input
      tuning of the board. */
  lemma CommandShape(t: Tuning, videoPath: string, width: int, height: int)
    ensures var cmd := Command(t, videoPath, width, height);
      && cmd[1..1 + |InputArgs(t)|] == InputArgs(t)
      && HasPair(cmd, "-i", videoPath)
      && HasPair(cmd, "-vf", ScaleFilter(width, height, ScaleFlag(t)))
      && HasPair(cmd, "-vcodec", "rawvideo")
      && HasPair(cmd, "-pix_fmt", "rgb565be")
      && HasPair(cmd, "-f", "image2pipe")
      && HasPair(cmd, "-loglevel", "quiet")
  {
    var head := Head(t);
    var out := OutputArgs(videoPath, ScaleFilter(width, height, ScaleFlag(t)));
    assert (head + out)[1..1 + |InputArgs(t)|] == head[1..];
    OutputPairs(head, videoPath, ScaleFilter(width, height, ScaleFlag(t)));
  }

  /** Behind a prefix without `-vcodec`, no `-vcodec` selects the hardware decoder. */
  lemma NoHardwareDecoder(a: seq<string>, videoPath: string, vf: string, j: int)
    requires "-vcodec" !in a
    requires 0 <= j < |a| + 12
    ensures var cmd := a + OutputArgs(videoPath, vf);
      cmd[j] == "-vcodec" ==> cmd[j + 1] != "h264_v4l2m2m"
  {
    var out := OutputArgs(videoPath, vf);
    if j < |a| {
      assert (a + out)[j] == a[j];
    } else {
      assert (a + out)[j + 1] == out[j + 1 - |a|];
    }
  }

  /** The multi-thread tuning asks for four decoder threads and never for
      the hardware decoder, whatever the file is called. */
  lemma MultiThreadCommand(videoPath: string, width: int, height: int)
    ensures var cmd := Command(MultiThread, videoPath, width, height);
      && cmd[1] == "-threads" && cmd[2] == "4"
      && !HasPair(cmd, "-vcodec", "h264_v4l2m2m")
      && cmd[6] == ScaleFilter(width, height, "neighbor")
  {
    var cmd := Command(MultiThread, videoPath, width, height);
    var vf := ScaleFilter(width, height, "neighbor");
    var head := Head(MultiThread);
    assert head == ["ffmpeg", "-threads", "4"];
    FilterAt(head, videoPath, vf);
    forall i | 0 <= i < |cmd| - 1 ensures cmd[i] == "-vcodec" ==> cmd[i + 1] != "h264_v4l2m2m" {
      NoHardwareDecoder(head, videoPath, vf, i);
    }
  }

  /** The priority of the tests: a "zero 2" board, whose name also contains
      "zero", gets the multi-thread tuning and never the hardware decoder. */
  lemma ZeroTwoIsMultiThread(deviceModel: Option<string>, videoPath: string, width: int, height: int)
    requires Contains(ModelName(deviceModel), "zero 2")
    ensures var cmd := GetFfmpegCmd(deviceModel, videoPath, width, height);
      && cmd[1] == "-threads" && cmd[2] == "4"
      && !HasPair(cmd, "-vcodec", "h264_v4l2m2m")
  {
    MultiThreadCommand(videoPath, width, height);
  }

  /** The scaling filters for the two flags differ. */
  lemma ScaleFiltersDiffer(width: int, height: int)
    ensures ScaleFilter(width, height, "bicubic") != ScaleFilter(width, height, "neighbor")
  {
    assert |ScaleFilter(width, height, "bicubic")| + 1 == |ScaleFilter(width, height, "neighbor")|;
  }

  /** No tuning argument, and not `ffmpeg` itself, starts with an `s`. */
  lemma HeadInitials(t: Tuning)
    ensures forall x :: x in Head(t) ==> |x| > 0 && x[0] != 's'
  {
    match t
    case MultiThread =>
    case HardwareDecode =>
    case HighPerformance =>
    case Generic =>
  }

  /** Behind a prefix none of whose arguments starts with an `s`, the only
      `-vf` followed by an argument starting with an `s` is the one that
      introduces the filter. */
  lemma FilterPosition(a: seq<string>, videoPath: string, vf: string, j: int)
    requires forall x :: x in a ==> |x| > 0 && x[0] != 's'
    requires 0 <= j < |a| + 12
    ensures var cmd := a + OutputArgs(videoPath, vf);
      cmd[j] == "-vf" && |cmd[j + 1]| > 0 && cmd[j + 1][0] == 's' ==> j == |a| + 2
  {
    var out := OutputArgs(videoPath, vf);
    var cmd := a + out;
    var n := |a|;
    if j + 1 < n {
      assert cmd[j + 1] == a[j + 1] && a[j + 1] in a;
    } else if j + 1 == n {
      assert cmd[j + 1] == out[0];
    } else if j == n {
      assert cmd[j] == out[0] && |out[0]| != |"-vf"|;
    } else if j == n + 1 {
      assert cmd[j + 1] == out[2];
    } else if j > n + 2 {
      assert cmd[j + 1] == out[j + 1 - n];
    }
  }

  /** The filter is the argument right after the first option of the output part. */
  lemma FilterAt(a: seq<string>, videoPath: string, vf: string)
    ensures (a + OutputArgs(videoPath, vf))[|a| + 3] == vf
  {
  }

  /** Bicubic scaling is used exactly with the high-performance tuning: the
      command pairs `-vf` with the bicubic filter if and only if the tuning
      is the one for a Pi 4 or 5. */
  lemma BicubicOnlyHighPerformance(t: Tuning, videoPath: string, width: int, height: int)
    ensures var cmd := Command(t, videoPath, width, height);
      (HasPair(cmd, "-vf", ScaleFilter(width, height, "bicubic")) <==> t == HighPerformance)
  {
    var cmd := Command(t, videoPath, width, height);
    var bicubic := ScaleFilter(width, height, "bicubic");
    var vf := ScaleFilter(width, height, ScaleFlag(t));
    CommandShape(t, videoPath, width, height);
    if HasPair(cmd, "-vf", bicubic) {
      var i :| 0 <= i < |cmd| - 1 && cmd[i] == "-vf" && cmd[i + 1] == bicubic;
      assert bicubic[0] == 's';
      HeadInitials(t);
      FilterPosition(Head(t), videoPath, vf, i);
      FilterAt(Head(t), videoPath, vf);
      ScaleFiltersDiffer(width, height);
    }
  }

  /** The fallback model string matches none of the tests. */
  lemma FallbackIsGeneric()
    ensures TuningFor(ModelName(None)) == Generic
  {
    MissingCharNotContained("generic", "zero 2", 'z');
    MissingCharNotContained("generic", "raspberry pi 3", 'p');
    MissingCharNotContained("generic", "zero", 'z');
    MissingCharNotContained("generic", "raspberry pi 4", 'p');
    MissingCharNotContained("generic", "raspberry pi 5", 'p');
  }

  /** With the model unreadable the command has no tuning at all. */
  lemma GenericCommand(videoPath: string, width: int, height: int)
    ensures GetFfmpegCmd(None, videoPath, width, height) ==
      ["ffmpeg"] + OutputArgs(videoPath, ScaleFilter(width, height, "neighbor"))
  {
    FallbackIsGeneric();
    assert Head(Generic) == ["ffmpeg"];
  }

  /** The dispatch on a real (lower-cased) model string: a Zero 2 W,
      whose name also contains "zero", uses threads. */
  lemma ZeroTwoExample()
    ensures TuningFor("raspberry pi zero 2 w rev 1.0") == MultiThread
  {
    ContainsSlice("raspberry pi zero 2 w rev 1.0", 13, "zero 2");
  }

  /** A Zero W gets the hardware decoder. */
  lemma ZeroWExample()
    ensures TuningFor("raspberry pi zero w rev 1.1") == HardwareDecode
  {
    MissingCharNotContained("raspberry pi zero w rev 1.1", "zero 2", '2');
    MissingCharNotContained("raspberry pi zero w rev 1.1", "raspberry pi 3", '3');
    ContainsSlice("raspberry pi zero w rev 1.1", 13, "zero");
  }

  /** A Pi 4 gets the high-performance tuning. */
  lemma PiFourExample()
    ensures TuningFor("raspberry pi 4 model b rev 1.4") == HighPerformance
  {
    MissingCharNotContained("raspberry pi 4 model b rev 1.4", "zero 2", 'z');
    MissingCharNotContained("raspberry pi 4 model b rev 1.4", "raspberry pi 3", '3');
    MissingCharNotContained("raspberry pi 4 model b rev 1.4", "zero", 'z');
    ContainsSlice("raspberry pi 4 model b rev 1.4", 0, "raspberry pi 4");
  }
}
