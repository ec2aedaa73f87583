/**
 The four media streams of one channel: what every request, acknowledgement and close does to the
 stream states and which control messages the phone is sent. `MediaChannel` runs the same steps in
 place; this module is their specification and holds the theorems about runs.
 */
module MediaStreams {
  datatype Stream = AudioRx | AudioTx | VideoRx | VideoTx

  /** The status bits of a stream; no bit set is the inactive state. */
  datatype Bits = Bits(progress: bool, active: bool, error: bool)

  const INACTIVE := Bits(false, false, false)
  const PROGRESS := Bits(true, false, false)
  const ACTIVE := Bits(false, true, false)
  const ERROR := Bits(false, false, true)

  function Or(a: Bits, b: Bits): Bits {
    Bits(a.progress || b.progress, a.active || b.active, a.error || b.error)
  }

  /** Opened stands for Open/Start messages, Closed for Close/Stop messages. */
  datatype Msg = Opened(stream: Stream) | Closed(stream: Stream)

  /** What runs once audio reception is acknowledged. */
  datatype Callback = NoCallback | StartTransmission | CompleteAnswer

  datatype VideoMode = Off | User | Auto

  datatype Status = Ok | DeviceOnHook | Failure

  datatype Media = Media(
    arx: Bits, atx: Bits, vrx: Bits, vtx: Bits,
    audio: bool, video: bool,
    punching: bool, callback: Callback, mode: VideoMode, hangingUp: bool,
    sent: seq<Msg>)

  /** What the rest of the system answers while one event is handled. */
  datatype Env = Env(
    device: bool,          // the channel has a device
    owner: bool,           // the PBX channel exists and is not hanging up
    terminating: bool,     // channel state idling or terminating
    connected: bool,       // channel state connected
    settled: bool,         // channel state at or past setup
    pbxUp: bool,
    audioServer: bool, audioMade: bool,     // creating the RTP server succeeds / leaves an instance
    videoServer: bool, videoMade: bool,
    videoSupported: bool,
    videoCodec: bool, videoPreferred: bool,
    punch: bool,           // early media wanted behind NAT on an outgoing call
    lineMode: VideoMode)

  function Get(m: Media, x: Stream): Bits {
    match x
    case AudioRx => m.arx
    case AudioTx => m.atx
    case VideoRx => m.vrx
    case VideoTx => m.vtx
  }

  function Set(m: Media, x: Stream, b: Bits): Media {
    match x
    case AudioRx => m.(arx := b)
    case AudioTx => m.(atx := b)
    case VideoRx => m.(vrx := b)
    case VideoTx => m.(vtx := b)
  }

  function Send(m: Media, msg: Msg): Media {
    m.(sent := m.sent + [msg])
  }

  function Open(m: Media, x: Stream): Media {
    Send(Set(m, x, PROGRESS), Opened(x))
  }

  /** Nothing is sent and nothing changes without a device or on an inactive stream. */
  function Close(m: Media, x: Stream, e: Env): Media {
    if e.device && Get(m, x) != INACTIVE then Set(Send(m, Closed(x)), x, INACTIVE) else m
  }

  predicate Dying(m: Media, e: Env) {
    m.hangingUp || !e.owner
  }

  // ---------------------------------------------------------------- requests

  function OpenAudio(m: Media, e: Env): Media {
    if Dying(m, e) || m.arx != INACTIVE || !e.device then m
    else if !m.audio && !e.audioServer then m.(audio := e.audioMade)
    else Open(m.(audio := true), AudioRx)
  }

  function StartAudio(m: Media, e: Env): Media {
    if Dying(m, e) || m.atx != INACTIVE then m
    else if !e.device || !m.audio || m.arx == INACTIVE then Close(m, AudioRx, e)
    else Open(m, AudioTx)
  }

  function UpdateAudio(m: Media, e: Env): Media {
    var stopped := Close(m, AudioTx, e);
    if stopped.atx == INACTIVE then StartAudio(stopped, e) else stopped
  }

  function StartPunch(m: Media, e: Env): Media {
    if m.atx == INACTIVE && !e.pbxUp && e.punch then StartAudio(m.(punching := true), e) else m
  }

  function FinishPunch(m: Media, e: Env): Media {
    if e.pbxUp then m.(punching := false)
    else if m.punching && m.atx.active then Close(m, AudioTx, e).(punching := false)
    else m
  }

  function CloseVideo(m: Media, e: Env): Media {
    if e.device then Close(Close(m, VideoTx, e), VideoRx, e).(mode := e.lineMode) else m
  }

  function VideoOff(m: Media, e: Env): Media {
    var received := if m.video && m.vrx != INACTIVE then CloseVideo(m, e) else m;
    var stopped := if m.video then Close(received, VideoTx, e) else received;
    stopped.(mode := Off)
  }

  function OpenVideo(m: Media, e: Env): Media {
    if Dying(m, e) || m.vrx != INACTIVE || !e.device || m.mode == Off || !e.videoSupported then m
    else if !m.video && !e.videoServer then VideoOff(m.(video := e.videoMade), e)
    else if !e.videoCodec then m.(video := true)
    else Open(m.(video := true), VideoRx)
  }

  function StartVideo(m: Media, e: Env): Media {
    if Dying(m, e) || m.vtx != INACTIVE || !e.device || m.mode == Off || !e.videoSupported then m
    else if !m.video then VideoOff(m, e)
    else Open(m, VideoTx)
  }

  /** Start sending video once the phone confirmed that it receives. */
  function StartConfirmedVideo(m: Media, e: Env): Media {
    if m.vrx.active && m.vtx == INACTIVE then StartVideo(m, e) else m
  }

  function SetVideoMode(m: Media, mode: VideoMode, e: Env): Media {
    match mode
    case Off => VideoOff(m, e)
    case User => m.(mode := User)
    case Auto =>
      var wanted := m.(mode := Auto);
      if !e.settled || m.hangingUp then wanted
      else
        var asked := if !m.video || m.vrx == INACTIVE then OpenVideo(wanted, e) else wanted;
        StartConfirmedVideo(asked, e).(mode := Auto)
  }

  /** Resume and the end of a remote hold reopen video that is off and restart video that is confirmed. */
  function ReopenVideo(m: Media, e: Env): Media {
    if !m.video || m.mode == Off || !e.videoSupported then m
    else if m.vrx == INACTIVE then OpenVideo(m, e)
    else StartConfirmedVideo(m, e)
  }

  function VideoKey(m: Media, e: Env): Media {
    if !e.videoSupported || !e.videoPreferred then m
    else
      var asked := if !m.video || m.vrx != INACTIVE then OpenVideo(m, e) else m;
      SetVideoMode(StartConfirmedVideo(asked, e), User, e)
  }

  /** Closes, in this order, audio reception, video (transmission first), audio transmission, video transmission. */
  function CloseAll(m: Media, e: Env): Media {
    var a := Close(m, AudioRx, e);
    var v := if a.vrx != INACTIVE then CloseVideo(a, e) else a;
    Close(Close(v, AudioTx, e), VideoTx, e)
  }

  function RunCallback(m: Media, e: Env): Media {
    if !m.arx.active then m
    else
      match m.callback
      case NoCallback => m
      case StartTransmission => StartAudio(m.(callback := NoCallback), e)
      case CompleteAnswer =>
        var fetched := m.(callback := NoCallback);
        if !e.device || !e.owner then fetched
        else
          var started := StartAudio(fetched, e);
          ConnectedIndication(if started.mode != Off && e.videoSupported then OpenVideo(started, e) else started, e)
  }

  /** The media part of indicating the connected state. */
  function ConnectedIndication(m: Media, e: Env): Media {
    if !e.device then m
    else if m.arx == INACTIVE then OpenAudio(m.(callback := StartTransmission), e)
    else if m.atx == INACTIVE then
      if m.arx.active then StartAudio(m.(callback := NoCallback), e) else m.(callback := StartTransmission)
    else m.(callback := NoCallback)
  }

  // ---------------------------------------------------------------- acknowledgements

  function ReceptionOpened(m: Media, e: Env): Media {
    if !m.audio then m.(hangingUp := true, arx := INACTIVE)
    else if Dying(m, e) || e.terminating then m.(arx := ACTIVE)
    else
      var called := RunCallback(m.(arx := Or(m.arx, ACTIVE)), e);
      if e.punch then StartPunch(called, e) else called
  }

  function AckAudioRx(m: Media, status: Status, e: Env): Media {
    if !m.arx.progress then m
    else
      match status
      case Ok => ReceptionOpened(m, e)
      case DeviceOnHook => CloseAll(m, e).(arx := ERROR)
      case Failure => CloseAll(m, e).(hangingUp := true, arx := ERROR)
  }

  function AckAudioTx(m: Media, status: Status, e: Env): Media {
    if !m.atx.progress then m
    else
      match status
      case Ok => if m.audio then m.(atx := ACTIVE) else m.(hangingUp := true, atx := INACTIVE)
      case DeviceOnHook => CloseAll(m, e).(atx := ERROR)
      case Failure => CloseAll(m, e).(hangingUp := true, atx := ERROR)
  }

  function FailVideo(m: Media, status: Status, e: Env): Media {
    var closed := Close(CloseVideo(m, e), VideoTx, e);
    if status == Failure then closed.(hangingUp := true) else closed
  }

  function AckVideoRx(m: Media, status: Status, e: Env): Media {
    if !m.vrx.progress then m
    else if status != Ok then FailVideo(m, status, e).(vrx := ERROR)
    else if !m.video then m.(hangingUp := true, vrx := INACTIVE)
    else if Dying(m, e) || e.terminating || !e.connected || m.vtx.active || m.mode != Auto then m.(vrx := ACTIVE)
    else StartVideo(m.(vrx := Or(m.vrx, ACTIVE)), e).(vrx := ACTIVE)
  }

  function AckVideoTx(m: Media, status: Status, e: Env): Media {
    if !m.vtx.progress then m
    else if status != Ok then FailVideo(m, status, e).(vtx := ERROR)
    else if !m.video then m.(hangingUp := true, vtx := INACTIVE)
    else m.(vtx := ACTIVE)
  }

  function Ack(m: Media, x: Stream, status: Status, e: Env): Media {
    match x
    case AudioRx => AckAudioRx(m, status, e)
    case AudioTx => AckAudioTx(m, status, e)
    case VideoRx => AckVideoRx(m, status, e)
    case VideoTx => AckVideoTx(m, status, e)
  }

  // ---------------------------------------------------------------- runs

  datatype Event =
    | RequestAudio | Answering | Connected | StopAudio | PeerChanged | PunchAnswered
    | RequestVideo | StopVideoRx | StopVideoTx | ModeChanged(mode: VideoMode) | VideoResumed | VideoKeyPressed
    | Acked(stream: Stream, status: Status)
    | AllClosed | CallEnded

  function Step(m: Media, ev: Event, e: Env): Media {
    match ev
    case RequestAudio => OpenAudio(m, e)
    case Answering => OpenAudio(m.(callback := CompleteAnswer), e)
    case Connected => ConnectedIndication(m, e)
    case StopAudio => Close(m, AudioTx, e)
    case PeerChanged => if m.atx != INACTIVE then UpdateAudio(m, e) else m
    case PunchAnswered => FinishPunch(m, e)
    case RequestVideo => OpenVideo(m, e)
    case StopVideoRx => CloseVideo(m, e)
    case StopVideoTx => Close(m, VideoTx, e)
    case ModeChanged(mode) => SetVideoMode(m, mode, e)
    case VideoResumed => ReopenVideo(m, e)
    case VideoKeyPressed => VideoKey(m, e)
    case Acked(x, status) => Ack(m, x, status, e)
    case AllClosed => CloseAll(m, e)
    case CallEnded => m.(hangingUp := true)
  }

  function Run(m: Media, events: seq<(Event, Env)>): Media
    decreases |events|
  {
    if events == [] then m else Run(Step(m, events[0].0, events[0].1), events[1..])
  }

  function Fresh(mode: VideoMode): Media {
    Media(INACTIVE, INACTIVE, INACTIVE, INACTIVE, false, false, false, NoCallback, mode, false, [])
  }

  // ---------------------------------------------------------------- what the phone believes

  /** The last message about x opened it. */
  predicate IsOpen(log: seq<Msg>, x: Stream) {
    log != [] && (if log[|log| - 1].stream == x then log[|log| - 1].Opened? else IsOpen(log[..|log| - 1], x))
  }

  /** Between two messages that open x there is one that closes it. */
  ghost predicate Separated(log: seq<Msg>, x: Stream) {
    forall i, j | 0 <= i < j < |log| && log[i] == Opened(x) && log[j] == Opened(x) ::
      exists k | i < k < j :: log[k] == Closed(x)
  }

  lemma SendIsOpen(log: seq<Msg>, msg: Msg, x: Stream)
    ensures IsOpen(log + [msg], x) == (if msg.stream == x then msg.Opened? else IsOpen(log, x))
  {
    assert (log + [msg])[..|log|] == log;
  }

  lemma {:induction false} OpenedStaysOpen(log: seq<Msg>, x: Stream, i: nat)
    requires i < |log| && log[i] == Opened(x) && !IsOpen(log, x)
    ensures exists k | i < k < |log| :: log[k] == Closed(x)
  {
    var last := |log| - 1;
    if log[last].stream != x {
      OpenedStaysOpen(log[..last], x, i);
      var k :| i < k < last && log[..last][k] == Closed(x);
      assert log[k] == Closed(x);
    } else {
      assert log[last] == Closed(x);
    }
  }

  lemma SendSeparated(log: seq<Msg>, msg: Msg, x: Stream)
    requires Separated(log, x) && (msg == Opened(x) ==> !IsOpen(log, x))
    ensures Separated(log + [msg], x)
  {
    var longer := log + [msg];
    forall i, j | 0 <= i < j < |longer| && longer[i] == Opened(x) && longer[j] == Opened(x)
      ensures exists k | i < k < j :: longer[k] == Closed(x)
    {
      if j == |log| {
        OpenedStaysOpen(log, x, i);
        var k :| i < k < |log| && log[k] == Closed(x);
        assert longer[k] == Closed(x);
      } else {
        var k :| i < k < j && log[k] == Closed(x);
        assert longer[k] == Closed(x);
      }
    }
  }
}
