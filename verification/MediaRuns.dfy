/** What every run of media events keeps, for all four streams of a channel. */
module MediaRuns {
  import opened MediaStreams

  /** A stream in use has its RTP instance. */
  predicate HasInstance(m: Media, x: Stream) {
    if x.AudioRx? || x.AudioTx? then m.audio else m.video
  }

  /** How a stream's state relates to what the phone was last told. */
  ghost predicate Tracks(m: Media, x: Stream) {
    && (Get(m, x) != INACTIVE ==> HasInstance(m, x))
    && Separated(m.sent, x)
    && (IsOpen(m.sent, x) ==> Get(m, x) != INACTIVE)
    && (Get(m, x).progress || Get(m, x).active ==> IsOpen(m.sent, x))
  }

  ghost predicate TracksAll(m: Media) {
    Tracks(m, AudioRx) && Tracks(m, AudioTx) && Tracks(m, VideoRx) && Tracks(m, VideoTx)
  }

  /** Video is never sent while its reception is inactive. */
  predicate VideoPaired(m: Media) {
    m.vtx.progress || m.vtx.active ==> m.vrx != INACTIVE
  }

  ghost predicate Good(m: Media) {
    TracksAll(m) && VideoPaired(m)
  }

  /** How often x was opened. */
  function Opens(log: seq<Msg>, x: Stream): nat {
    if log == [] then 0
    else Opens(log[..|log| - 1], x) + (if log[|log| - 1] == Opened(x) then 1 else 0)
  }

  /** From m to n: everything still tracks, and no stream became pending without being opened. */
  ghost predicate Keeps(m: Media, n: Media) {
    && (TracksAll(m) ==> TracksAll(n))
    && (m.audio ==> n.audio) && (m.video ==> n.video)
    && Quiet(m, n, AudioRx) && Quiet(m, n, AudioTx) && Quiet(m, n, VideoRx) && Quiet(m, n, VideoTx)
  }

  ghost predicate Quiet(m: Media, n: Media, x: Stream) {
    && Opens(m.sent, x) <= Opens(n.sent, x)
    && (Opens(m.sent, x) == Opens(n.sent, x) && !Get(m, x).progress ==> !Get(n, x).progress)
  }

  lemma KeepsTransitive(a: Media, b: Media, c: Media)
    requires Keeps(a, b) && Keeps(b, c)
    ensures Keeps(a, c)
  {
    hide TracksAll, Opens, Get;
  }

  /** Whatever concerns no stream and no instance, or makes an instance, keeps everything. */
  lemma AsideKeeps(m: Media, n: Media)
    requires n.arx == m.arx && n.atx == m.atx && n.vrx == m.vrx && n.vtx == m.vtx && n.sent == m.sent
    requires (m.audio ==> n.audio) && (m.video ==> n.video)
    ensures Keeps(m, n)
  {
    hide IsOpen, Separated, Opens;
  }

  // ---------------------------------------------------------------- the two messages

  lemma SendOpens(log: seq<Msg>, msg: Msg, x: Stream)
    ensures Opens(log + [msg], x) == Opens(log, x) + (if msg == Opened(x) then 1 else 0)
  {
    assert (log + [msg])[..|log|] == log;
  }

  lemma SendTracks(m: Media, n: Media, msg: Msg, y: Stream)
    requires Tracks(m, y) && n.sent == m.sent + [msg]
    requires msg == Opened(y) ==> Get(m, y) == INACTIVE
    requires Get(n, y) == (if msg.stream != y then Get(m, y) else if msg.Opened? then PROGRESS else INACTIVE)
    requires Get(n, y) != INACTIVE ==> HasInstance(n, y)
    ensures Tracks(n, y)
  {
    SendIsOpen(m.sent, msg, y);
    SendSeparated(m.sent, msg, y);
  }

  lemma SendKeeps(m: Media, n: Media, msg: Msg)
    requires n.sent == m.sent + [msg] && n.audio == m.audio && n.video == m.video
    requires forall y: Stream ::
      Get(n, y) == (if msg.stream != y then Get(m, y) else if msg.Opened? then PROGRESS else INACTIVE)
    requires msg.Opened? ==> Get(m, msg.stream) == INACTIVE && HasInstance(m, msg.stream)
    ensures Keeps(m, n)
  {
    forall y: Stream ensures Quiet(m, n, y) && (TracksAll(m) ==> Tracks(n, y)) {
      SendOpens(m.sent, msg, y);
      if TracksAll(m) {
        assert Tracks(m, y) by { match y { case AudioRx => case AudioTx => case VideoRx => case VideoTx => } }
        SendTracks(m, n, msg, y);
      }
    }
  }

  lemma OpenKeeps(m: Media, x: Stream)
    requires Get(m, x) == INACTIVE && HasInstance(m, x)
    ensures Keeps(m, Open(m, x))
  {
    SendKeeps(m, Open(m, x), Opened(x));
  }

  lemma CloseKeeps(m: Media, x: Stream, e: Env)
    ensures Keeps(m, Close(m, x, e))
  {
    if e.device && Get(m, x) != INACTIVE {
      SendKeeps(m, Close(m, x, e), Closed(x));
    }
  }

  // ---------------------------------------------------------------- requests

  lemma OpenAudioKeeps(m: Media, e: Env)
    ensures Keeps(m, OpenAudio(m, e))
  {
    hide Keeps, Open;
    AsideKeeps(m, m);
    AsideKeeps(m, m.(audio := true));
    if !m.audio { AsideKeeps(m, m.(audio := e.audioMade)); }
    if m.arx == INACTIVE {
      OpenKeeps(m.(audio := true), AudioRx);
      KeepsTransitive(m, m.(audio := true), Open(m.(audio := true), AudioRx));
    }
  }

  lemma StartAudioKeeps(m: Media, e: Env)
    ensures Keeps(m, StartAudio(m, e))
    ensures StartAudio(m, e).vrx == m.vrx && StartAudio(m, e).vtx == m.vtx
    ensures m.audio && m.arx != INACTIVE ==> StartAudio(m, e).arx == m.arx
  {
    CloseKeeps(m, AudioRx, e);
    if m.atx == INACTIVE && m.audio { OpenKeeps(m, AudioTx); }
  }

  lemma CloseVideoKeeps(m: Media, e: Env)
    ensures Keeps(m, CloseVideo(m, e))
    ensures VideoPaired(m) ==> VideoPaired(CloseVideo(m, e))
  {
    var stopped := Close(m, VideoTx, e);
    var closed := Close(stopped, VideoRx, e);
    CloseKeeps(m, VideoTx, e);
    CloseKeeps(stopped, VideoRx, e);
    hide Keeps;
    KeepsTransitive(m, stopped, closed);
    AsideKeeps(closed, closed.(mode := e.lineMode));
    KeepsTransitive(m, closed, closed.(mode := e.lineMode));
    AsideKeeps(m, m);
  }

  lemma VideoOffKeeps(m: Media, e: Env)
    ensures Keeps(m, VideoOff(m, e))
    ensures VideoPaired(m) ==> VideoPaired(VideoOff(m, e))
  {
    hide Keeps, CloseVideo;
    AsideKeeps(m, m);
    CloseVideoKeeps(m, e);
    var received := if m.video && m.vrx != INACTIVE then CloseVideo(m, e) else m;
    var stopped := if m.video then Close(received, VideoTx, e) else received;
    CloseKeeps(received, VideoTx, e);
    KeepsTransitive(m, received, stopped);
    AsideKeeps(stopped, stopped.(mode := Off));
    KeepsTransitive(m, stopped, stopped.(mode := Off));
  }

  lemma OpenVideoKeeps(m: Media, e: Env)
    ensures Keeps(m, OpenVideo(m, e))
    ensures VideoPaired(m) ==> VideoPaired(OpenVideo(m, e))
  {
    hide Keeps, VideoOff;
    var made := m.(video := true);
    AsideKeeps(m, m);
    AsideKeeps(m, made);
    if m.vrx == INACTIVE {
      OpenKeeps(made, VideoRx);
      KeepsTransitive(m, made, Open(made, VideoRx));
    }
    if !m.video {
      AsideKeeps(m, m.(video := e.videoMade));
      VideoOffKeeps(m.(video := e.videoMade), e);
      KeepsTransitive(m, m.(video := e.videoMade), VideoOff(m.(video := e.videoMade), e));
    }
  }

  lemma StartVideoKeeps(m: Media, e: Env)
    ensures Keeps(m, StartVideo(m, e))
    ensures VideoPaired(m) && m.vrx != INACTIVE && m.video ==> VideoPaired(StartVideo(m, e))
    ensures m.video ==> StartVideo(m, e).vrx == m.vrx
  {
    if m.vtx == INACTIVE && m.video { OpenKeeps(m, VideoTx); }
    if !m.video { VideoOffKeeps(m, e); }
  }

  lemma StartConfirmedVideoKeeps(m: Media, e: Env)
    ensures Keeps(m, StartConfirmedVideo(m, e))
    ensures Good(m) ==> VideoPaired(StartConfirmedVideo(m, e))
  {
    StartVideoKeeps(m, e);
  }

  /** Ask for reception if it is off, then start sending if it is confirmed. */
  lemma AskThenStartKeeps(m: Media, ask: bool, e: Env)
    ensures var asked := if ask then OpenVideo(m, e) else m;
            Keeps(m, StartConfirmedVideo(asked, e)) && (Good(m) ==> VideoPaired(StartConfirmedVideo(asked, e)))
  {
    var asked := if ask then OpenVideo(m, e) else m;
    OpenVideoKeeps(m, e);
    StartConfirmedVideoKeeps(asked, e);
    KeepsTransitive(m, asked, StartConfirmedVideo(asked, e));
  }

  lemma ModeKeeps(m: Media, mode: VideoMode)
    ensures Keeps(m, m.(mode := mode))
  {
    AsideKeeps(m, m.(mode := mode));
  }

  lemma AutoVideoKeeps(m: Media, e: Env)
    ensures Keeps(m, SetVideoMode(m, Auto, e))
    ensures Good(m) ==> VideoPaired(SetVideoMode(m, Auto, e))
  {
    var wanted := m.(mode := Auto);
    ModeKeeps(m, Auto);
    if e.settled && !m.hangingUp {
      var ask := !m.video || m.vrx == INACTIVE;
      AskThenStartKeeps(wanted, ask, e);
      var started := StartConfirmedVideo(if ask then OpenVideo(wanted, e) else wanted, e);
      ModeKeeps(started, Auto);
      KeepsTransitive(m, wanted, started);
      KeepsTransitive(m, started, started.(mode := Auto));
      assert SetVideoMode(m, Auto, e) == started.(mode := Auto);
    }
  }

  lemma SetVideoModeKeeps(m: Media, mode: VideoMode, e: Env)
    ensures Keeps(m, SetVideoMode(m, mode, e))
    ensures Good(m) ==> VideoPaired(SetVideoMode(m, mode, e))
  {
    match mode {
      case Off => VideoOffKeeps(m, e);
      case User => ModeKeeps(m, User);
      case Auto => AutoVideoKeeps(m, e);
    }
  }

  lemma ReopenVideoKeeps(m: Media, e: Env)
    ensures Keeps(m, ReopenVideo(m, e))
    ensures Good(m) ==> VideoPaired(ReopenVideo(m, e))
  {
    OpenVideoKeeps(m, e);
    StartConfirmedVideoKeeps(m, e);
  }

  lemma VideoKeyKeeps(m: Media, e: Env)
    ensures Keeps(m, VideoKey(m, e))
    ensures Good(m) ==> VideoPaired(VideoKey(m, e))
  {
    var ask := !m.video || m.vrx != INACTIVE;
    AskThenStartKeeps(m, ask, e);
    var started := StartConfirmedVideo(if ask then OpenVideo(m, e) else m, e);
    ModeKeeps(started, User);
    KeepsTransitive(m, started, started.(mode := User));
  }

  lemma CloseAllKeeps(m: Media, e: Env)
    ensures Keeps(m, CloseAll(m, e))
    ensures VideoPaired(m) ==> VideoPaired(CloseAll(m, e))
  {
    hide Keeps, CloseVideo;
    AsideKeeps(m, m);
    var a := Close(m, AudioRx, e);
    var v := if a.vrx != INACTIVE then CloseVideo(a, e) else a;
    var t := Close(v, AudioTx, e);
    CloseKeeps(m, AudioRx, e);
    CloseVideoKeeps(a, e);
    CloseKeeps(v, AudioTx, e);
    CloseKeeps(t, VideoTx, e);
    AsideKeeps(a, a);
    KeepsTransitive(m, a, v);
    KeepsTransitive(m, v, t);
    KeepsTransitive(m, t, Close(t, VideoTx, e));
  }

  lemma CallbackKeeps(m: Media, cb: Callback, n: Media)
    requires Keeps(m.(callback := cb), n)
    ensures Keeps(m, n)
  {
    hide Keeps;
    AsideKeeps(m, m.(callback := cb));
    KeepsTransitive(m, m.(callback := cb), n);
  }

  lemma ConnectedKeeps(m: Media, e: Env)
    ensures Keeps(m, ConnectedIndication(m, e))
    ensures VideoPaired(m) ==> VideoPaired(ConnectedIndication(m, e))
    ensures m.audio && m.arx != INACTIVE ==> ConnectedIndication(m, e).arx == m.arx
  {
    hide Keeps, StartAudio;
    AsideKeeps(m, m);
    AsideKeeps(m, m.(callback := StartTransmission));
    AsideKeeps(m, m.(callback := NoCallback));
    if e.device && m.arx == INACTIVE {
      var waiting := m.(callback := StartTransmission);
      OpenAudioKeeps(waiting, e);
      CallbackKeeps(m, StartTransmission, OpenAudio(waiting, e));
    } else if e.device && m.atx == INACTIVE && m.arx.active {
      var fetched := m.(callback := NoCallback);
      StartAudioKeeps(fetched, e);
      CallbackKeeps(m, NoCallback, StartAudio(fetched, e));
    }
  }

  /** The part of answer completion before the connected indication. */
  function Completing(m: Media, e: Env): Media {
    var started := StartAudio(m, e);
    if started.mode != Off && e.videoSupported then OpenVideo(started, e) else started
  }

  lemma CompletingKeeps(m: Media, e: Env)
    ensures Keeps(m, Completing(m, e)) && (VideoPaired(m) ==> VideoPaired(Completing(m, e)))
    ensures m.audio && m.arx != INACTIVE ==> Completing(m, e).audio && Completing(m, e).arx == m.arx
  {
    var started := StartAudio(m, e);
    StartAudioKeeps(m, e);
    OpenVideoKeeps(started, e);
    OpenVideoAudio(started, e);
    KeepsTransitive(m, started, Completing(m, e));
  }

  lemma OpenVideoAudio(m: Media, e: Env)
    ensures OpenVideo(m, e).arx == m.arx && OpenVideo(m, e).audio == m.audio
  {
  }

  lemma RunCallbackKeeps(m: Media, e: Env)
    ensures Keeps(m, RunCallback(m, e))
    ensures VideoPaired(m) ==> VideoPaired(RunCallback(m, e))
    ensures m.audio && m.arx != INACTIVE ==> RunCallback(m, e).arx == m.arx
  {
    hide Keeps, StartAudio, ConnectedIndication, OpenVideo;
    AsideKeeps(m, m);
    AsideKeeps(m, m.(callback := NoCallback));
    var fetched := m.(callback := NoCallback);
    if m.arx.active && m.callback.StartTransmission? {
      StartAudioKeeps(fetched, e);
      CallbackKeeps(m, NoCallback, StartAudio(fetched, e));
    } else if m.arx.active && m.callback.CompleteAnswer? && e.device && e.owner {
      var shown := Completing(fetched, e);
      var done := ConnectedIndication(shown, e);
      CompletingKeeps(fetched, e);
      ConnectedKeeps(shown, e);
      KeepsTransitive(fetched, shown, done);
      CallbackKeeps(m, NoCallback, done);
      assert RunCallback(m, e) == done;
    }
  }

  // ---------------------------------------------------------------- acknowledgements

  lemma StartPunchKeeps(m: Media, e: Env)
    ensures Keeps(m, StartPunch(m, e))
    ensures VideoPaired(m) ==> VideoPaired(StartPunch(m, e))
    ensures m.audio && m.arx != INACTIVE ==> StartPunch(m, e).arx == m.arx
  {
    hide Keeps, StartAudio;
    var begun := m.(punching := true);
    AsideKeeps(m, m);
    AsideKeeps(m, begun);
    StartAudioKeeps(begun, e);
    KeepsTransitive(m, begun, StartAudio(begun, e));
  }

  lemma ConfirmKeeps(m: Media)
    requires m.arx.progress
    ensures Keeps(m, m.(arx := Or(m.arx, ACTIVE))) && Keeps(m, m.(arx := ACTIVE))
  {
  }

  lemma ReceptionOpenedKeeps(m: Media, e: Env)
    requires m.arx.progress && m.audio
    ensures Keeps(m, ReceptionOpened(m, e))
    ensures VideoPaired(m) ==> VideoPaired(ReceptionOpened(m, e))
    ensures ReceptionOpened(m, e).arx == (if Dying(m, e) || e.terminating then ACTIVE else Or(m.arx, ACTIVE))
  {
    ConfirmKeeps(m);
    if !Dying(m, e) && !e.terminating {
      var confirmed := m.(arx := Or(m.arx, ACTIVE));
      var called := RunCallback(confirmed, e);
      RunCallbackKeeps(confirmed, e);
      StartPunchKeeps(called, e);
      KeepsTransitive(confirmed, called, StartPunch(called, e));
      KeepsTransitive(m, confirmed, ReceptionOpened(m, e));
    }
  }

  /** A close that leaves an error behind. */
  lemma MarkErrorKeeps(m: Media, n: Media, x: Stream, hangup: bool)
    requires Keeps(m, n) && Get(m, x).progress && HasInstance(m, x)
    ensures Keeps(m, Set(n.(hangingUp := n.hangingUp || hangup), x, ERROR))
  {
    hide IsOpen, Separated, Opens;
  }

  lemma AckAudioRxKeeps(m: Media, status: Status, e: Env)
    requires Good(m)
    ensures Keeps(m, AckAudioRx(m, status, e)) && VideoPaired(AckAudioRx(m, status, e))
  {
    if m.arx.progress {
      if status == Ok {
        ReceptionOpenedKeeps(m, e);
      } else {
        CloseAllKeeps(m, e);
        MarkErrorKeeps(m, CloseAll(m, e), AudioRx, status == Failure);
      }
    }
  }

  lemma AckAudioTxKeeps(m: Media, status: Status, e: Env)
    requires Good(m)
    ensures Keeps(m, AckAudioTx(m, status, e)) && VideoPaired(AckAudioTx(m, status, e))
  {
    if m.atx.progress && status != Ok {
      CloseAllKeeps(m, e);
      MarkErrorKeeps(m, CloseAll(m, e), AudioTx, status == Failure);
    }
  }

  lemma FailVideoKeeps(m: Media, status: Status, e: Env)
    requires VideoPaired(m)
    ensures Keeps(m, FailVideo(m, status, e)) && VideoPaired(FailVideo(m, status, e))
  {
    hide Keeps, CloseVideo;
    var closed := CloseVideo(m, e);
    var stopped := Close(closed, VideoTx, e);
    CloseVideoKeeps(m, e);
    CloseKeeps(closed, VideoTx, e);
    KeepsTransitive(m, closed, stopped);
    AsideKeeps(stopped, stopped.(hangingUp := true));
    KeepsTransitive(m, stopped, stopped.(hangingUp := true));
  }

  lemma ConfirmVideoKeeps(m: Media, e: Env)
    requires Good(m) && m.vrx.progress
    ensures var n := StartVideo(m.(vrx := Or(m.vrx, ACTIVE)), e).(vrx := ACTIVE); Keeps(m, n) && VideoPaired(n)
  {
    StartVideoKeeps(m.(vrx := Or(m.vrx, ACTIVE)), e);
  }

  lemma AckVideoRxKeeps(m: Media, status: Status, e: Env)
    requires Good(m)
    ensures Keeps(m, AckVideoRx(m, status, e)) && VideoPaired(AckVideoRx(m, status, e))
  {
    if m.vrx.progress {
      if status != Ok {
        FailVideoKeeps(m, status, e);
        MarkErrorKeeps(m, FailVideo(m, status, e), VideoRx, false);
      } else {
        ConfirmVideoKeeps(m, e);
      }
    }
  }

  lemma AckVideoTxKeeps(m: Media, status: Status, e: Env)
    requires Good(m)
    ensures Keeps(m, AckVideoTx(m, status, e)) && VideoPaired(AckVideoTx(m, status, e))
  {
    if m.vtx.progress && status != Ok {
      FailVideoKeeps(m, status, e);
      MarkErrorKeeps(m, FailVideo(m, status, e), VideoTx, false);
    }
  }

  /**
   Closing everything silences all four streams. What was on is closed in this order: audio reception,
   video with its transmission first, audio transmission, and video that was sent without reception.
   */
  lemma CloseAllSilences(m: Media, e: Env)
    requires e.device
    ensures var n := CloseAll(m, e);
            && n.arx == INACTIVE && n.atx == INACTIVE && n.vrx == INACTIVE && n.vtx == INACTIVE
            && n.sent == m.sent
                 + Note(m.arx, AudioRx)
                 + (if m.vrx != INACTIVE then Note(m.vtx, VideoTx) + [Closed(VideoRx)] else [])
                 + Note(m.atx, AudioTx)
                 + (if m.vrx == INACTIVE then Note(m.vtx, VideoTx) else [])
  {
    var a := Close(m, AudioRx, e);
    var v := if a.vrx != INACTIVE then CloseVideo(a, e) else a;
    var t := Close(v, AudioTx, e);
    CloseSends(m, AudioRx, e);
    CloseSends(a, VideoTx, e);
    CloseSends(Close(a, VideoTx, e), VideoRx, e);
    CloseSends(v, AudioTx, e);
    CloseSends(t, VideoTx, e);
  }

  lemma CloseSends(m: Media, x: Stream, e: Env)
    requires e.device
    ensures var n := Close(m, x, e);
            n == Set(m, x, INACTIVE).(sent := m.sent + Note(Get(m, x), x))
  {
  }

  function Note(b: Bits, x: Stream): seq<Msg> {
    if b != INACTIVE then [Closed(x)] else []
  }

  // ---------------------------------------------------------------- theorems

  lemma AckKeeps(m: Media, x: Stream, status: Status, e: Env)
    requires Good(m)
    ensures Keeps(m, Ack(m, x, status, e)) && VideoPaired(Ack(m, x, status, e))
  {
    match x {
      case AudioRx => AckAudioRxKeeps(m, status, e);
      case AudioTx => AckAudioTxKeeps(m, status, e);
      case VideoRx => AckVideoRxKeeps(m, status, e);
      case VideoTx => AckVideoTxKeeps(m, status, e);
    }
  }

  lemma AudioRequestKeeps(m: Media, ev: Event, e: Env)
    requires Good(m) && (ev.RequestAudio? || ev.Answering? || ev.StopAudio? || ev.PeerChanged? || ev.PunchAnswered?)
    ensures Keeps(m, Step(m, ev, e)) && VideoPaired(Step(m, ev, e))
  {
    hide Keeps, StartAudio, TracksAll;
    AsideKeeps(m, m);
    AsideKeeps(m, m.(punching := false));
    CloseKeeps(m, AudioTx, e);
    var cut := Close(m, AudioTx, e);
    AsideKeeps(cut, cut.(punching := false));
    KeepsTransitive(m, cut, cut.(punching := false));
    match ev {
      case RequestAudio => OpenAudioKeeps(m, e);
      case Answering =>
        var waiting := m.(callback := CompleteAnswer);
        OpenAudioKeeps(waiting, e);
        CallbackKeeps(m, CompleteAnswer, OpenAudio(waiting, e));
      case PeerChanged =>
        var stopped := Close(m, AudioTx, e);
        StartAudioKeeps(stopped, e);
        KeepsTransitive(m, stopped, UpdateAudio(m, e));
      case _ =>
    }
  }

  lemma StepKeeps(m: Media, ev: Event, e: Env)
    requires Good(m)
    ensures Keeps(m, Step(m, ev, e)) && Good(Step(m, ev, e))
  {
    match ev {
      case Connected => ConnectedKeeps(m, e);
      case RequestVideo => OpenVideoKeeps(m, e);
      case StopVideoRx => CloseVideoKeeps(m, e);
      case StopVideoTx => CloseKeeps(m, VideoTx, e);
      case ModeChanged(mode) => SetVideoModeKeeps(m, mode, e);
      case VideoResumed => ReopenVideoKeeps(m, e);
      case VideoKeyPressed => VideoKeyKeeps(m, e);
      case Acked(x, status) => AckKeeps(m, x, status, e);
      case AllClosed => CloseAllKeeps(m, e);
      case CallEnded =>
      case _ => AudioRequestKeeps(m, ev, e);
    }
  }

  lemma FreshGood(mode: VideoMode)
    ensures Good(Fresh(mode))
  {
  }

  lemma {:induction false} RunKeeps(m: Media, events: seq<(Event, Env)>)
    requires Good(m)
    ensures Good(Run(m, events)) && Keeps(m, Run(m, events))
    decreases |events|
  {
    if events != [] {
      var next := Step(m, events[0].0, events[0].1);
      StepKeeps(m, events[0].0, events[0].1);
      RunKeeps(next, events[1..]);
      KeepsTransitive(m, next, Run(next, events[1..]));
    }
  }

  /**
   In every run, whatever the environment answers, the phone never gets two Open/Start messages for one
   stream without a Close/Stop in between, a stream it holds open is never recorded as inactive, and a
   stream recorded as pending or active is one it holds open.
   */
  lemma OpensAreSeparated(mode: VideoMode, events: seq<(Event, Env)>, x: Stream)
    ensures var m := Run(Fresh(mode), events);
            && Separated(m.sent, x)
            && (IsOpen(m.sent, x) ==> Get(m, x) != INACTIVE)
            && (Get(m, x).progress || Get(m, x).active ==> IsOpen(m.sent, x))
  {
    FreshGood(mode);
    RunKeeps(Fresh(mode), events);
    match x { case AudioRx => case AudioTx => case VideoRx => case VideoTx => }
  }

  /** In every run, video being sent means video reception is not inactive. */
  lemma VideoSentIsReceived(mode: VideoMode, events: seq<(Event, Env)>)
    ensures var m := Run(Fresh(mode), events); m.vtx.progress || m.vtx.active ==> m.vrx != INACTIVE
  {
    FreshGood(mode);
    RunKeeps(Fresh(mode), events);
  }

  /**
   After an OK acknowledgement of any stream but audio reception, further acknowledgements for it, with
   any status and at any later time, change nothing and send nothing until the stream is opened again.
   */
  lemma LateAckIgnored(mode: VideoMode, before: seq<(Event, Env)>, x: Stream, e: Env,
                       after: seq<(Event, Env)>, status: Status, e': Env)
    requires x != AudioRx
    ensures
      var m := Run(Fresh(mode), before);
      var acked := Ack(m, x, Ok, e);
      var later := Run(acked, after);
      Get(m, x).progress && Opens(later.sent, x) == Opens(acked.sent, x) ==> Ack(later, x, status, e') == later
  {
    hide Ack, Run, Step, Good, TracksAll, Opens, Get;
    FreshGood(mode);
    RunKeeps(Fresh(mode), before);
    var m := Run(Fresh(mode), before);
    var acked := Ack(m, x, Ok, e);
    StepAcked(m, x, e);
    StepKeeps(m, Acked(x, Ok), e);
    RunKeeps(acked, after);
    if Get(m, x).progress && Opens(Run(acked, after).sent, x) == Opens(acked.sent, x) {
      AckSettles(m, x, e);
      assert Quiet(acked, Run(acked, after), x) by { match x { case AudioRx => case AudioTx => case VideoRx => case VideoTx => } }
      SettledIgnores(Run(acked, after), x, status, e');
    }
  }

  lemma StepAcked(m: Media, x: Stream, e: Env)
    ensures Step(m, Acked(x, Ok), e) == Ack(m, x, Ok, e)
  {
  }

  lemma AckSettles(m: Media, x: Stream, e: Env)
    requires x != AudioRx && Get(m, x).progress
    ensures !Get(Ack(m, x, Ok, e), x).progress
  {
  }

  lemma SettledIgnores(m: Media, x: Stream, status: Status, e: Env)
    requires !Get(m, x).progress
    ensures Ack(m, x, status, e) == m
  {
  }

  /** Audio reception is different: once acknowledged it stays pending exactly if the call was still alive. */
  lemma AudioReceptionStaysPending(mode: VideoMode, before: seq<(Event, Env)>, e: Env)
    requires Run(Fresh(mode), before).arx.progress
    ensures var m := Run(Fresh(mode), before);
            Ack(m, AudioRx, Ok, e).arx.progress <==> !Dying(m, e) && !e.terminating
  {
    FreshGood(mode);
    RunKeeps(Fresh(mode), before);
    ReceptionOpenedKeeps(Run(Fresh(mode), before), e);
  }

  /** So a late failure acknowledgement closes the audio reception of a running call. */
  lemma LateAudioFailureCloses()
    ensures exists before: seq<(Event, Env)>, e: Env ::
              var m := Ack(Run(Fresh(Off), before), AudioRx, Ok, e);
              && Run(Fresh(Off), before).arx.progress
              && m.arx.active && Ack(m, AudioRx, DeviceOnHook, e).sent == m.sent + [Closed(AudioRx)]
  {
    var e := Env(true, true, false, true, true, false, true, true, false, false, false, false, false, false, Off);
    var before := [(RequestAudio, e)];
    var m0 := Step(Fresh(Off), RequestAudio, e);
    assert before[0] == (RequestAudio, e) && before[1..] == [];
    assert Run(Fresh(Off), before) == Run(m0, before[1..]) == m0;
    var m := Ack(m0, AudioRx, Ok, e);
    assert m.arx == Bits(true, true, false);
    assert Ack(m, AudioRx, DeviceOnHook, e).sent == m.sent + [Closed(AudioRx)];
  }
}
