/** The toggle-style button controller of `test2.py`: presses alternate
    between starting a recording and stopping it, which shows status
    images with the LED colours, plays the recording back, asks the
    description service for an answer and plays the answer when the
    service did not fail. The status image of each step is picked at
    random; the picks are parameters. */
module ToggleCapture {
  import opened Common
  import opened PixelCodec
  import opened Effects

  /** The capture command of this controller: 16-bit little-endian stereo at 16 kHz. */
  const ArecordArgv: seq<string> :=
    ["arecord", "-D", "hw:wm8960soundcard", "-f", "S16_LE", "-r", "16000", "-c", "2", RecFile]

  /** The keys of the status modes, which are also the keys of the loaded status images. */
  const StatusModeKeys: set<string> := {"wf_scn", "wf_evil", "connected", "ble_scan", "ble_atk", "ducky"}

  /** `start_recording`: show the recording image if loaded, then spawn the recorder. */
  function StartPressEvents(img1: Option<seq<bv8>>, pid: Pid): seq<Event> {
    DrawIfLoaded(img1) + [Spawn(pid, ArecordArgv)]
  }

  /** One status image and one LED colour per feedback colour, in order. */
  function AssetFeedback(picks: seq<string>, colours: seq<(Rgb, bv16)>): (ev: seq<Event>)
    requires |picks| == |colours|
    ensures |ev| == 2 * |colours|
    ensures forall i :: 0 <= i < |ev| ==> ev[i].DrawStatusAsset? || ev[i].SetRgb?
  {
    if colours == [] then []
    else AssetFeedback(picks[..|picks| - 1], colours[..|colours| - 1])
         + [DrawStatusAsset(picks[|picks| - 1]), SetRgb(colours[|colours| - 1].0)]
  }

  /** Step `k` of the feedback is the status image picked for it, at event
      `2k`, followed by the LED in its colour. */
  lemma {:induction false} AssetFeedbackAt(picks: seq<string>, colours: seq<(Rgb, bv16)>, k: nat)
    requires |picks| == |colours| && k < |colours|
    ensures |AssetFeedback(picks, colours)| == 2 * |colours|
    ensures AssetFeedback(picks, colours)[2 * k] == DrawStatusAsset(picks[k])
    ensures AssetFeedback(picks, colours)[2 * k + 1] == SetRgb(colours[k].0)
  {
    var n := |colours| - 1;
    if k < n {
      AssetFeedbackAt(picks[..n], colours[..n], k);
    }
  }

  /** The status feedback of a stopping press: a status image and then the
      LED in red, green and blue, in that order. */
  lemma AssetFeedbackColours(picks: seq<string>)
    requires |picks| == |FeedbackColours|
    ensures AssetFeedback(picks, FeedbackColours) ==
      [DrawStatusAsset(picks[0]), SetRgb(Rgb(255, 0, 0)), DrawStatusAsset(picks[1]), SetRgb(Rgb(0, 255, 0)),
       DrawStatusAsset(picks[2]), SetRgb(Rgb(0, 0, 255))]
  {
    AssetFeedbackAt(picks, FeedbackColours, 0);
    AssetFeedbackAt(picks, FeedbackColours, 1);
    AssetFeedbackAt(picks, FeedbackColours, 2);
  }

  /** The answer is played only when the description call did not raise. */
  function AnswerEvents(raised: bool): (ev: seq<Event>)
    ensures ev != [] <==> !raised
  {
    if raised then [] else [Run(Aplay(AnswerFile))]
  }

  /** Everything a stopping press does, in order. */
  function StopPressEvents(p: Option<Pid>, live: set<Pid>, picks: seq<string>,
                           img2: Option<seq<bv8>>, raised: bool): seq<Event>
    requires |picks| == |FeedbackColours|
  {
    StopEvents(p, live) + (AssetFeedback(picks, FeedbackColours) + [SetRgb(Rgb(0, 0, 0))])
    + (DrawIfLoaded(img2) + [Run(Aplay(RecFile))]) + [Describe(raised)] + AnswerEvents(raised)
  }

  /** A starting press only draws the recording image and spawns; nothing is
      stopped, played back or described. */
  lemma StartPressOnlySpawns(img1: Option<seq<bv8>>, pid: Pid)
    ensures var ev := StartPressEvents(img1, pid);
      && ev[|ev| - 1] == Spawn(pid, ArecordArgv)
      && forall i :: 0 <= i < |ev| - 1 ==> ev[i].DrawScreen?
  {
  }

  /** The order a stopping press promises: it never spawns; the recorder is
      terminated and awaited first, and only if it is still running; the
      status images come next; the recording is played back and then
      described; the answer is played, last, exactly when the description
      did not raise. */
  lemma StopPressOrder(p: Option<Pid>, live: set<Pid>, picks: seq<string>,
                       img2: Option<seq<bv8>>, raised: bool)
    requires |picks| == |FeedbackColours|
    ensures var ev := StopPressEvents(p, live, picks, img2, raised);
      var r := |StopEvents(p, live)| + 7 + |DrawIfLoaded(img2)|;
      && r + 1 < |ev|
      && (forall i :: 0 <= i < |ev| ==> !ev[i].Spawn?)
      && (Alive(p, live) ==> ev[0] == Terminate(p.value) && ev[1] == Await(p.value))
      && (forall i :: 0 <= i < |ev| && (ev[i].Terminate? || ev[i].Await?) ==> Alive(p, live) && i < 2)
      && (forall i :: 0 <= i < |ev| && (ev[i].DrawStatusAsset? || ev[i].SetRgb?) ==>
            |StopEvents(p, live)| <= i < r)
      && ev[r] == Run(Aplay(RecFile)) && ev[r + 1] == Describe(raised)
      && (Run(Aplay(AnswerFile)) in ev <==> !raised)
      && (!raised ==> ev[|ev| - 1] == Run(Aplay(AnswerFile)) && |ev| == r + 3)
  {
    var stop := StopEvents(p, live);
    var fb := AssetFeedback(picks, FeedbackColours) + [SetRgb(Rgb(0, 0, 0))];
    var d2 := DrawIfLoaded(img2);
    var ans := AnswerEvents(raised);
    var ev := StopPressEvents(p, live, picks, img2, raised);
    var r := |stop| + 7 + |d2|;
    assert |fb| == 7;
    assert ev == stop + fb + d2 + [Run(Aplay(RecFile))] + [Describe(raised)] + ans;
    forall i | 0 <= i < |ev|
      ensures !ev[i].Spawn?
      ensures (ev[i].Terminate? || ev[i].Await?) ==> Alive(p, live) && i < 2
      ensures (ev[i].DrawStatusAsset? || ev[i].SetRgb?) ==> |stop| <= i < r
      ensures ev[i] == Run(Aplay(AnswerFile)) ==> !raised
    {
      StopPressAt(p, live, picks, img2, raised, i);
    }
    if !raised {
      assert ev[|ev| - 1] == Run(Aplay(AnswerFile));
    }
  }

  /** One event of a stopping press, classified by the part it belongs to. */
  lemma StopPressAt(p: Option<Pid>, live: set<Pid>, picks: seq<string>,
                    img2: Option<seq<bv8>>, raised: bool, i: int)
    requires |picks| == |FeedbackColours|
    requires 0 <= i < |StopPressEvents(p, live, picks, img2, raised)|
    ensures var ev := StopPressEvents(p, live, picks, img2, raised);
      var r := |StopEvents(p, live)| + 7 + |DrawIfLoaded(img2)|;
      && !ev[i].Spawn?
      && ((ev[i].Terminate? || ev[i].Await?) ==> Alive(p, live) && i < 2)
      && ((ev[i].DrawStatusAsset? || ev[i].SetRgb?) ==> |StopEvents(p, live)| <= i < r)
      && (ev[i] == Run(Aplay(AnswerFile)) ==> !raised)
  {
    var stop := StopEvents(p, live);
    var fb := AssetFeedback(picks, FeedbackColours) + [SetRgb(Rgb(0, 0, 0))];
    var d2 := DrawIfLoaded(img2);
    var ans := AnswerEvents(raised);
    var ev := StopPressEvents(p, live, picks, img2, raised);
    var r := |stop| + 7 + |d2|;
    assert |fb| == 7;
    assert ev == stop + fb + d2 + [Run(Aplay(RecFile))] + [Describe(raised)] + ans;
    if i < |stop| {
      assert ev[i] == stop[i];
    } else if i < |stop| + |fb| {
      assert ev[i] == fb[i - |stop|];
    } else if i < r {
      assert ev[i] == d2[i - |stop| - |fb|];
    } else if i == r {
      assert Aplay(RecFile) != Aplay(AnswerFile) by { assert Aplay(RecFile)[3] != Aplay(AnswerFile)[3]; }
    } else if i == r + 1 {
    } else {
      assert ev[i] == ans[i - r - 2];
    }
  }

  /** The toggle controller and the process table it sees. */
  class ToggleRecorder {
    /** The next press starts a recording (`to_record`). */
    var toRecord: bool
    var recordingProcess: Option<Pid>
    /** The processes still running; `poll()` on a handle is `None` exactly for these. */
    var live: set<Pid>
    /** The handle the next `Popen` returns. */
    var nextPid: Pid
    var trace: seq<Event>
    /** The number of presses handled so far. */
    ghost var presses: nat
    const img1Data: Option<seq<bv8>>
    const img2Data: Option<seq<bv8>>

    /** At most the current handle is running, nothing runs while the
        controller waits to start, handles are never reused, and the
        controller starts on even presses. */
    ghost predicate Valid()
      reads this
    {
      && live <= ProcSet(recordingProcess)
      && (toRecord ==> live == {})
      && (recordingProcess.Some? ==> recordingProcess.value < nextPid)
      && (toRecord <==> presses % 2 == 0)
    }

    /** The state the main program leaves before its idle loop. */
    constructor (img1: Option<seq<bv8>>, img2: Option<seq<bv8>>)
      ensures Valid() && toRecord && recordingProcess == None && live == {} && trace == []
      ensures img1Data == img1 && img2Data == img2
    {
      toRecord := true;
      recordingProcess := None;
      live := {};
      nextPid := 0;
      trace := [];
      presses := 0;
      img1Data := img1;
      img2Data := img2;
    }

    /** `start_recording`. */
    method StartRecording()
      modifies this`recordingProcess, this`live, this`nextPid, this`trace
      ensures recordingProcess == Some(old(nextPid)) && nextPid == old(nextPid) + 1
      ensures live == old(live) + {old(nextPid)}
      ensures trace == old(trace) + StartPressEvents(img1Data, old(nextPid))
    {
      if Truthy(img1Data) {
        trace := trace + [DrawScreen(img1Data.value)];
      }
      var pid := nextPid;
      nextPid := nextPid + 1;
      trace := trace + [Spawn(pid, ArecordArgv)];
      live := live + {pid};
      recordingProcess := Some(pid);
    }

    /** Step 1 of a stopping press: terminate and await the recorder only if it is still running. */
    method StopRecording()
      requires Valid()
      modifies this`live, this`trace
      ensures live == {}
      ensures trace == old(trace) + StopEvents(recordingProcess, old(live))
    {
      if recordingProcess.Some? && recordingProcess.value in live {
        var p := recordingProcess.value;
        trace := trace + [Terminate(p)];
        trace := trace + [Await(p)];
        live := live - {p};
      }
    }

    /** Step 2: one status image and LED colour per feedback colour, then the LED off. */
    method ShowStatusFeedback(picks: seq<string>)
      requires |picks| == |FeedbackColours|
      modifies this`trace
      ensures trace == old(trace) + AssetFeedback(picks, FeedbackColours) + [SetRgb(Rgb(0, 0, 0))]
    {
      var i := 0;
      while i < |FeedbackColours|
        invariant 0 <= i <= |FeedbackColours|
        invariant trace == old(trace) + AssetFeedback(picks[..i], FeedbackColours[..i])
      {
        var (rgb, _) := FeedbackColours[i];
        trace := trace + [DrawStatusAsset(picks[i])];
        trace := trace + [SetRgb(rgb)];
        assert picks[..i + 1][..i] == picks[..i];
        assert FeedbackColours[..i + 1][..i] == FeedbackColours[..i];
        i := i + 1;
      }
      assert picks[..|picks|] == picks;
      assert FeedbackColours[..|FeedbackColours|] == FeedbackColours;
      trace := trace + [SetRgb(Rgb(0, 0, 0))];
    }

    /** Step 3: the playback image if loaded, then the recording played to the end. */
    method PlayBack()
      modifies this`trace
      ensures trace == old(trace) + DrawIfLoaded(img2Data) + [Run(Aplay(RecFile))]
    {
      if Truthy(img2Data) {
        trace := trace + [DrawScreen(img2Data.value)];
      }
      trace := trace + [Run(Aplay(RecFile))];
    }

    /** A stopping press: steps 1 to 3, then the description request and,
        when it did not raise, the answer. */
    method StopPress(picks: seq<string>, describeRaises: bool)
      requires Valid() && |picks| == |FeedbackColours|
      modifies this`live, this`trace
      ensures live == {}
      ensures trace == old(trace) + StopPressEvents(recordingProcess, old(live), picks, img2Data, describeRaises)
    {
      ghost var stop := StopEvents(recordingProcess, live);
      ghost var feedback := AssetFeedback(picks, FeedbackColours) + [SetRgb(Rgb(0, 0, 0))];
      ghost var play := DrawIfLoaded(img2Data) + [Run(Aplay(RecFile))];
      ghost var t0 := trace;
      StopRecording();
      ShowStatusFeedback(picks);
      PlayBack();
      trace := trace + [Describe(describeRaises)] + AnswerEvents(describeRaises);
      assert trace == t0 + (stop + feedback + play + [Describe(describeRaises)] + AnswerEvents(describeRaises));
    }

    /** `on_button_pressed`. `picks` are the status keys `random.choice`
        returns for the three feedback steps and `describeRaises` whether the
        description call raises. A starting press spawns a recorder and
        touches nothing else; a stopping press leaves no recorder running.
        The flag flips on every press. */
    method OnButtonPressed(picks: seq<string>, describeRaises: bool)
      requires Valid()
      requires |picks| == |FeedbackColours| && forall k :: k in picks ==> k in StatusModeKeys
      modifies this`toRecord, this`recordingProcess, this`live, this`nextPid, this`trace, this`presses
      ensures Valid()
      ensures toRecord == !old(toRecord) && presses == old(presses) + 1
      ensures old(toRecord) ==>
        && recordingProcess == Some(old(nextPid)) && nextPid == old(nextPid) + 1 && live == {old(nextPid)}
        && trace == old(trace) + StartPressEvents(img1Data, old(nextPid))
      ensures !old(toRecord) ==>
        && recordingProcess == old(recordingProcess) && nextPid == old(nextPid) && live == {}
        && trace == old(trace) + StopPressEvents(old(recordingProcess), old(live), picks, img2Data, describeRaises)
    {
      if toRecord {
        StartRecording();
      }
      if !toRecord {
        StopPress(picks, describeRaises);
      }
      toRecord := !toRecord;
      presses := presses + 1;
    }

    /** A recorder that ends on its own (outside the handler). */
    method ProcessExits(pid: Pid)
      requires Valid()
      modifies this`live
      ensures Valid() && live == old(live) - {pid}
    {
      live := live - {pid};
    }
  }
}
