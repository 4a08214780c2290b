/** The outside world as the button handlers see it: calls to the display
    board, to external processes and to the description service become
    events appended to a trace. A capture process is a number; it is live
    while `poll()` would return `None`, that is while it is in the set
    `live` the controllers keep. */
module Effects {
  import opened Common
  import opened PixelCodec

  /** The handle of an external process started with `Popen`. */
  type Pid = nat

  const RecFile: string := "data/recorded_voice.wav"
  const AnswerFile: string := "data/answer.wav"

  datatype Event =
    | Spawn(pid: Pid, argv: seq<string>)     // subprocess.Popen(argv), not awaited
    | Terminate(pid: Pid)                    // process.terminate()
    | Await(pid: Pid)                        // process.wait()
    | Run(argv: seq<string>)                 // subprocess.run(argv), blocking
    | FillScreen(colour: bv16)               // fill_screen(colour)
    | SetRgb(led: Rgb)                       // set_rgb(r, g, b)
    | DrawScreen(data: seq<bv8>)             // draw_image(0, 0, LCD_WIDTH, LCD_HEIGHT, data)
    | DrawStatusAsset(key: string)           // draw_image of STATUS_ASSETS[key]
    | Describe(raised: bool)                 // upload_and_generate(), and whether it raised
    | StopSound                              // sound.stop()
    | PlaySound                              // sound.play()

  /** The LED and screen colours of the visual feedback, with the RGB565
      constant used for each. */
  const FeedbackColours: seq<(Rgb, bv16)> :=
    [(Rgb(255, 0, 0), 0xF800), (Rgb(0, 255, 0), 0x07E0), (Rgb(0, 0, 255), 0x001F)]

  /** Each feedback constant is the RGB565 packing of its LED colour. */
  lemma FeedbackColoursPacked()
    ensures |FeedbackColours| == 3
    ensures forall i :: 0 <= i < |FeedbackColours| ==> Pack565(FeedbackColours[i].0) == FeedbackColours[i].1
  {
    PrimaryColours();
  }

  /** `aplay -D plughw:wm8960soundcard file`. */
  function Aplay(file: string): seq<string> {
    ["aplay", "-D", "plughw:wm8960soundcard", file]
  }

  /** Python truthiness of the loaded image bytes: `None` and the empty list are false. */
  predicate Truthy(data: Option<seq<bv8>>) {
    data.Some? && |data.value| > 0
  }

  /** The processes a handle variable can stand for. */
  function ProcSet(p: Option<Pid>): set<Pid> {
    if p.Some? then {p.value} else {}
  }

  /** The process handle is still running. */
  predicate Alive(p: Option<Pid>, live: set<Pid>) {
    p.Some? && p.value in live
  }

  /** The stop step shared by both capture controllers: terminate and await
      the recording process only if it is still running. */
  function StopEvents(p: Option<Pid>, live: set<Pid>): (ev: seq<Event>)
    ensures Alive(p, live) ==> ev == [Terminate(p.value), Await(p.value)]
    ensures !Alive(p, live) ==> ev == []
  {
    if Alive(p, live) then [Terminate(p.value), Await(p.value)] else []
  }

  /** The draw that a truthy image causes, or nothing. */
  function DrawIfLoaded(data: Option<seq<bv8>>): (ev: seq<Event>)
    ensures |ev| <= 1 && (ev != [] <==> Truthy(data))
    ensures forall e :: e in ev ==> e == DrawScreen(data.value)
  {
    if Truthy(data) then [DrawScreen(data.value)] else []
  }
}
