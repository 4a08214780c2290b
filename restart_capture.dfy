/** The restart-style button controller of `OdinSpecter.py`: every press
    stops the running recording, shows the colour feedback, plays the
    recording back and starts a new recording. Also the `playing` flag of the
    sound-playing handler and the main loop's reset of it. */
module RestartCapture {
  import opened Common
  import opened PixelCodec
  import opened Effects

  /** The capture command: 24-bit little-endian stereo at 16 kHz into the recording file. */
  const ArecordArgv: seq<string> :=
    ["arecord", "-D", "hw:wm8960soundcard", "-f", "S24_LE", "-r", "16000", "-c", "2", RecFile]

  /** The fill-screen and LED steps for a list of feedback colours, in order. */
  function FillFeedback(colours: seq<(Rgb, bv16)>): (ev: seq<Event>)
    ensures |ev| == 2 * |colours|
    ensures forall i :: 0 <= i < |ev| ==> ev[i].FillScreen? || ev[i].SetRgb?
  {
    if colours == [] then []
    else FillFeedback(colours[..|colours| - 1])
         + [FillScreen(colours[|colours| - 1].1), SetRgb(colours[|colours| - 1].0)]
  }

  /** The feedback steps spelled out: red, green, then blue, each as a
      screen fill with its RGB565 constant followed by the LED colour. */
  lemma FillFeedbackColours()
    ensures FillFeedback(FeedbackColours) ==
      [FillScreen(0xF800), SetRgb(Rgb(255, 0, 0)), FillScreen(0x07E0), SetRgb(Rgb(0, 255, 0)),
       FillScreen(0x001F), SetRgb(Rgb(0, 0, 255))]
  {
    assert FeedbackColours[..2][..1] == FeedbackColours[..1];
    assert FeedbackColours[..1][..0] == [];
  }

  /** `start_recording`: show the recording image if loaded, then spawn the recorder. */
  function StartRecordingEvents(img1: Option<seq<bv8>>, pid: Pid): seq<Event> {
    DrawIfLoaded(img1) + [Spawn(pid, ArecordArgv)]
  }

  /** The feedback of a record press: the three colours, then the LED off. */
  function RecordFeedbackEvents(): seq<Event> {
    FillFeedback(FeedbackColours) + [SetRgb(Rgb(0, 0, 0))]
  }

  /** Everything one press of `on_button_pressed_record` does, in order. */
  function PressRecordEvents(p: Option<Pid>, live: set<Pid>, img1: Option<seq<bv8>>,
                             img2: Option<seq<bv8>>, pid: Pid): seq<Event> {
    StopEvents(p, live) + RecordFeedbackEvents() + (DrawIfLoaded(img2) + [Run(Aplay(RecFile))])
    + StartRecordingEvents(img1, pid)
  }

  /** Index of the playback of the recording within a record press. */
  function PlaybackIndex(p: Option<Pid>, live: set<Pid>, img2: Option<seq<bv8>>): nat {
    |StopEvents(p, live)| + 7 + |DrawIfLoaded(img2)|
  }

  /** The order a record press promises: the old recorder is terminated and
      awaited first, and only if it is still running; the feedback colours
      come next, then the playback of the recording; the press always ends
      by spawning a fresh recorder, and nothing else is spawned. */
  lemma PressRecordOrder(p: Option<Pid>, live: set<Pid>, img1: Option<seq<bv8>>,
                         img2: Option<seq<bv8>>, pid: Pid)
    ensures var ev := PressRecordEvents(p, live, img1, img2, pid);
      var r := PlaybackIndex(p, live, img2);
      && r < |ev| - 1
      && ev[|ev| - 1] == Spawn(pid, ArecordArgv)
      && (forall i :: 0 <= i < |ev| - 1 ==> !ev[i].Spawn?)
      && (Alive(p, live) ==> ev[0] == Terminate(p.value) && ev[1] == Await(p.value))
      && (forall i :: 0 <= i < |ev| && (ev[i].Terminate? || ev[i].Await?) ==> Alive(p, live) && i < 2)
      && ev[r] == Run(Aplay(RecFile))
      && (forall i :: 0 <= i < |ev| && (ev[i].FillScreen? || ev[i].SetRgb?) ==>
            |StopEvents(p, live)| <= i < r)
  {
    var stop := StopEvents(p, live);
    var fb := RecordFeedbackEvents();
    var d2 := DrawIfLoaded(img2);
    var start := StartRecordingEvents(img1, pid);
    var ev := PressRecordEvents(p, live, img1, img2, pid);
    assert |fb| == 7;
    var r := PlaybackIndex(p, live, img2);
    assert ev == stop + fb + d2 + [Run(Aplay(RecFile))] + start;
    forall i | 0 <= i < |ev|
      ensures i < |ev| - 1 ==> !ev[i].Spawn?
      ensures (ev[i].Terminate? || ev[i].Await?) ==> Alive(p, live) && i < 2
      ensures (ev[i].FillScreen? || ev[i].SetRgb?) ==> |stop| <= i < r
    {
      if i < |stop| {
        assert ev[i] == stop[i];
      } else if i < |stop| + |fb| {
        assert ev[i] == fb[i - |stop|];
      } else if i < r {
        assert ev[i] == d2[i - |stop| - |fb|];
      } else if i == r {
      } else {
        assert ev[i] == start[i - r - 1];
      }
    }
  }

  /** The restart-style controller and the process table it sees. */
  class Recorder {
    var recordingProcess: Option<Pid>
    /** The processes still running; `poll()` on a handle is `None` exactly for these. */
    var live: set<Pid>
    /** The handle the next `Popen` returns. */
    var nextPid: Pid
    var trace: seq<Event>
    const img1Data: Option<seq<bv8>>
    const img2Data: Option<seq<bv8>>

    /** At most the current handle is running, and handles are never reused. */
    ghost predicate Valid()
      reads this
    {
      && live <= ProcSet(recordingProcess)
      && (recordingProcess.Some? ==> recordingProcess.value < nextPid)
    }

    constructor (img1: Option<seq<bv8>>, img2: Option<seq<bv8>>)
      ensures Valid() && recordingProcess == None && live == {} && trace == []
      ensures img1Data == img1 && img2Data == img2
    {
      recordingProcess := None;
      live := {};
      nextPid := 0;
      trace := [];
      img1Data := img1;
      img2Data := img2;
    }

    /** `start_recording`: draws the recording image if loaded and spawns a
        new recorder, which becomes the current handle. */
    method StartRecording()
      modifies this`recordingProcess, this`live, this`nextPid, this`trace
      ensures recordingProcess == Some(old(nextPid)) && nextPid == old(nextPid) + 1
      ensures live == old(live) + {old(nextPid)}
      ensures trace == old(trace) + StartRecordingEvents(img1Data, old(nextPid))
      ensures old(live) == {} ==> Valid()
    {
      if Truthy(img1Data) {
        trace := trace + [DrawScreen(img1Data.value)];
      }
      var pid := nextPid;
      nextPid := nextPid + 1;
      trace := trace + [Spawn(pid, ArecordArgv)];
      live := live + {pid};
      recordingProcess := Some(pid);
    }

    /** Step 1 of a record press: terminate and await the recorder only if it is still running. */
    method StopRecording()
      requires Valid()
      modifies this`live, this`trace
      ensures live == {} && Valid()
      ensures trace == old(trace) + StopEvents(recordingProcess, old(live))
    {
      if recordingProcess.Some? && recordingProcess.value in live {
        var p := recordingProcess.value;
        trace := trace + [Terminate(p)];
        trace := trace + [Await(p)];
        live := live - {p};
      }
    }

    /** Step 2 of a record press: the screen and LED flash each feedback colour, then the LED goes off. */
    method ShowRecordFeedback()
      modifies this`trace
      ensures trace == old(trace) + RecordFeedbackEvents()
    {
      var i := 0;
      while i < |FeedbackColours|
        invariant 0 <= i <= |FeedbackColours|
        invariant trace == old(trace) + FillFeedback(FeedbackColours[..i])
      {
        var (rgb, hex) := FeedbackColours[i];
        trace := trace + [FillScreen(hex)];
        trace := trace + [SetRgb(rgb)];
        assert FeedbackColours[..i + 1][..i] == FeedbackColours[..i];
        i := i + 1;
      }
      assert FeedbackColours[..|FeedbackColours|] == FeedbackColours;
      trace := trace + [SetRgb(Rgb(0, 0, 0))];
    }

    /** Step 3 of a record press: the playback image if loaded, then the recording played to the end. */
    method PlayBack()
      modifies this`trace
      ensures trace == old(trace) + (DrawIfLoaded(img2Data) + [Run(Aplay(RecFile))])
    {
      if Truthy(img2Data) {
        trace := trace + [DrawScreen(img2Data.value)];
      }
      trace := trace + [Run(Aplay(RecFile))];
    }

    /** `on_button_pressed_record`. The old recorder is stopped before
        anything else, so exactly one recorder runs afterwards: the new one. */
    method OnButtonPressedRecord()
      requires Valid()
      modifies this`recordingProcess, this`live, this`nextPid, this`trace
      ensures Valid()
      ensures recordingProcess == Some(old(nextPid)) && nextPid == old(nextPid) + 1 && live == {old(nextPid)}
      ensures trace == old(trace) + PressRecordEvents(old(recordingProcess), old(live), img1Data, img2Data, old(nextPid))
    {
      ghost var stop := StopEvents(recordingProcess, live);
      ghost var t0 := trace;
      StopRecording();
      ShowRecordFeedback();
      PlayBack();
      StartRecording();
      assert trace == t0 + (stop + RecordFeedbackEvents() + (DrawIfLoaded(img2Data) + [Run(Aplay(RecFile))])
                            + StartRecordingEvents(img1Data, old(nextPid)));
    }

    /** A recorder that ends on its own (outside the handlers). */
    method ProcessExits(pid: Pid)
      requires Valid()
      modifies this`live
      ensures Valid() && live == old(live) - {pid}
    {
      live := live - {pid};
    }
  }

  /** Everything one press of `on_button_pressed_play` does: restart the
      sound if it is loaded (stopping it first when it is marked playing),
      the three colour flashes, then the stored image if there is one. */
  function PressPlayEvents(soundLoaded: bool, playing: bool, image: Option<seq<bv8>>): seq<Event> {
    SoundEvents(soundLoaded, playing) + FillFeedback(FeedbackColours) + ImageEvents(image)
  }

  /** The sound part of a play press: restart a loaded sound, stopping it first if it is marked playing. */
  function SoundEvents(soundLoaded: bool, playing: bool): (ev: seq<Event>)
    ensures PlaySound in ev <==> soundLoaded
    ensures StopSound in ev <==> soundLoaded && playing
  {
    if soundLoaded then (if playing then [StopSound] else []) + [PlaySound] else []
  }

  /** The stored image is drawn when there is one (`is not None`: an empty image is drawn too). */
  function ImageEvents(image: Option<seq<bv8>>): (ev: seq<Event>)
    ensures ev != [] <==> image.Some?
  {
    if image.Some? then [DrawScreen(image.value)] else []
  }

  /** A sound is only ever started after the previous one is stopped: a stop
      is issued exactly when the sound is loaded and marked playing, and it
      comes first, right before the play. */
  lemma PressPlayStopsFirst(soundLoaded: bool, playing: bool, image: Option<seq<bv8>>)
    ensures var ev := PressPlayEvents(soundLoaded, playing, image);
      && (StopSound in ev <==> soundLoaded && playing)
      && (PlaySound in ev <==> soundLoaded)
      && (soundLoaded && playing ==> ev[0] == StopSound && ev[1] == PlaySound)
      && (soundLoaded && !playing ==> ev[0] == PlaySound)
  {
    var fb := FillFeedback(FeedbackColours);
    var tail := fb + (if image.Some? then [DrawScreen(image.value)] else []);
    assert forall e :: e in tail ==> e != StopSound && e != PlaySound by {
      forall e | e in tail ensures e != StopSound && e != PlaySound {
        var i :| 0 <= i < |tail| && tail[i] == e;
        if i < |fb| { assert fb[i] == e; }
      }
    }
    assert PressPlayEvents(soundLoaded, playing, image)
      == (if soundLoaded then (if playing then [StopSound] else []) + [PlaySound] else []) + tail;
  }

  /** The sound-playing handler with the `playing` flag. */
  class SoundPlayer {
    /** `sound` was loaded at start-up. */
    const soundLoaded: bool
    /** The image bytes loaded at start-up, if any. */
    const globalImageData: Option<seq<bv8>>
    var playing: bool
    var trace: seq<Event>

    /** The flag is only ever set for a loaded sound. */
    ghost predicate Valid()
      reads this
    {
      playing ==> soundLoaded
    }

    constructor (loaded: bool, image: Option<seq<bv8>>)
      ensures Valid() && !playing && trace == []
      ensures soundLoaded == loaded && globalImageData == image
    {
      soundLoaded := loaded;
      globalImageData := image;
      playing := false;
      trace := [];
    }

    /** The sound part of `on_button_pressed_play`. */
    method RestartSound()
      requires Valid()
      modifies this`playing, this`trace
      ensures Valid()
      ensures playing == (soundLoaded || old(playing))
      ensures trace == old(trace) + SoundEvents(soundLoaded, old(playing))
    {
      if soundLoaded {
        if playing {
          trace := trace + [StopSound];
        }
        trace := trace + [PlaySound];
        playing := true;
      }
    }

    /** Red, green, blue: each a screen fill followed by the LED colour. */
    method FlashColours()
      modifies this`trace
      ensures trace == old(trace) + FillFeedback(FeedbackColours)
    {
      trace := trace + [FillScreen(0xF800), SetRgb(Rgb(255, 0, 0))];
      trace := trace + [FillScreen(0x07E0), SetRgb(Rgb(0, 255, 0))];
      trace := trace + [FillScreen(0x001F), SetRgb(Rgb(0, 0, 255))];
      FillFeedbackColours();
    }

    /** `on_button_pressed_play`. Afterwards the flag says "playing" exactly
        when a sound is loaded or it already said so. */
    method OnButtonPressedPlay()
      requires Valid()
      modifies this`playing, this`trace
      ensures Valid()
      ensures playing == (soundLoaded || old(playing))
      ensures trace == old(trace) + PressPlayEvents(soundLoaded, old(playing), globalImageData)
    {
      RestartSound();
      FlashColours();
      if globalImageData.Some? {
        trace := trace + [DrawScreen(globalImageData.value)];
      }
      assert trace == old(trace) + (SoundEvents(soundLoaded, old(playing)) + FillFeedback(FeedbackColours)
                                    + ImageEvents(globalImageData));
    }

    /** One pass of the main loop: the flag is cleared once the mixer is no
        longer busy, and is otherwise kept. */
    method PollMixer(mixerBusy: bool)
      requires Valid()
      modifies this`playing
      ensures Valid()
      ensures playing == (old(playing) && mixerBusy)
    {
      if playing && !mixerBusy {
        playing := false;
      }
    }
  }
}
