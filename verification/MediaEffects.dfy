/**
 What each media event sends and what it leaves behind, said in the fields of the channel and nothing else: which
 stream is opened or closed, exactly when, and when the caller can be heard.
 */
module MediaEffects {
  import opened MediaStreams
  import opened MediaRuns

  // ---------------------------------------------------------------- audio

  /** Audio reception is asked for exactly if the call lives, has a device, reception is off, and there is or can be
    * an RTP instance. */
  lemma RequestAudioSends(m: Media, e: Env)
    ensures
      var n := Step(m, RequestAudio, e);
      var wanted := !m.hangingUp && e.owner && e.device && m.arx == INACTIVE;
      n == if wanted && (m.audio || e.audioServer)
           then m.(audio := true, arx := PROGRESS, sent := m.sent + [Opened(AudioRx)])
           else if wanted then m.(audio := e.audioMade)
           else m
  {
  }

  /** Answering asks for the same and leaves the answer to be completed once reception is confirmed. */
  lemma AnsweringSends(m: Media, e: Env)
    ensures Step(m, Answering, e) == Step(m, RequestAudio, e).(callback := CompleteAnswer)
  {
  }

  /** Audio transmission is started exactly if the call lives, has a device and an instance, is not transmitting, and
    * its reception is on. Without an instance the reception is closed instead. */
  lemma StartAudioSends(m: Media, e: Env)
    ensures
      var n := StartAudio(m, e);
      var wanted := !m.hangingUp && e.owner && e.device && m.atx == INACTIVE && m.arx != INACTIVE;
      n == if wanted && m.audio then m.(atx := PROGRESS, sent := m.sent + [Opened(AudioTx)])
           else if wanted then m.(arx := INACTIVE, sent := m.sent + [Closed(AudioRx)])
           else m
  {
  }

  /** Indicating the connected state asks for reception that is off, and starts transmission exactly if reception is
    * confirmed; while the confirmation is missing it leaves a callback that starts it. */
  lemma ConnectedSends(m: Media, e: Env)
    requires e.device && e.owner && !m.hangingUp && m.audio
    ensures
      var n := Step(m, Connected, e);
      && n.sent == m.sent + (if m.arx == INACTIVE then [Opened(AudioRx)]
                             else if m.atx == INACTIVE && m.arx.active then [Opened(AudioTx)]
                             else [])
      && n.arx == (if m.arx == INACTIVE then PROGRESS else m.arx)
      && n.atx == (if m.arx != INACTIVE && m.atx == INACTIVE && m.arx.active then PROGRESS else m.atx)
      && n.callback == (if m.arx == INACTIVE || (m.atx == INACTIVE && !m.arx.active) then StartTransmission
                        else NoCallback)
      && n == m.(sent := n.sent, arx := n.arx, atx := n.atx, callback := n.callback)
  {
  }

  /** The same for a call that is ending or was given no instance yet. */
  lemma ConnectedOtherwise(m: Media, e: Env)
    requires !e.device || !e.owner || m.hangingUp || !m.audio
    ensures
      var n := Step(m, Connected, e);
      var alive := e.device && e.owner && !m.hangingUp;
      var closes := alive && m.atx == INACTIVE && m.arx.active;
      && (!e.device ==> n == m)
      && n.sent == m.sent + (if alive && m.arx == INACTIVE && e.audioServer then [Opened(AudioRx)]
                             else if closes then [Closed(AudioRx)]
                             else [])
      && n.atx == m.atx
      && n.arx == (if alive && m.arx == INACTIVE && e.audioServer then PROGRESS
                   else if closes then INACTIVE else m.arx)
  {
  }

  /** Stopping closes what is on, and needs the device. */
  lemma StopAudioSends(m: Media, e: Env)
    ensures Step(m, StopAudio, e) ==
            if e.device && m.atx != INACTIVE then m.(atx := INACTIVE, sent := m.sent + [Closed(AudioTx)]) else m
  {
  }

  /** A new peer address stops the transmission and starts it again. */
  lemma PeerChangedSends(m: Media, e: Env)
    ensures
      var n := Step(m, PeerChanged, e);
      var stopped := e.device && m.atx != INACTIVE;
      var back := stopped && !m.hangingUp && e.owner && m.arx != INACTIVE;
      && n.sent == m.sent + (if stopped then [Closed(AudioTx)] else [])
                   + (if back && m.audio then [Opened(AudioTx)] else if back then [Closed(AudioRx)] else [])
      && n.atx == (if back && m.audio then PROGRESS else if stopped then INACTIVE else m.atx)
      && n.arx == (if back && !m.audio then INACTIVE else m.arx)
      && n == m.(sent := n.sent, atx := n.atx, arx := n.arx)
  {
    var stopped := Close(m, AudioTx, e);
    assert Step(m, PeerChanged, e) == if e.device && m.atx != INACTIVE then StartAudio(stopped, e) else m;
    hide Step, StartAudio;
    StartAudioSends(stopped, e);
  }

  /** Early transmission is begun exactly while nobody answered, if it is wanted and nothing is transmitted. */
  lemma StartPunchSends(m: Media, e: Env)
    requires m.audio && m.arx != INACTIVE && e.device && e.owner && !m.hangingUp
    ensures
      var n := StartPunch(m, e);
      var begins := m.atx == INACTIVE && !e.pbxUp && e.punch;
      n == if begins then m.(punching := true, atx := PROGRESS, sent := m.sent + [Opened(AudioTx)]) else m
  {
  }

  /** It is stopped once, exactly if it was begun, is confirmed, and the PBX channel is still not up. */
  lemma PunchAnsweredSends(m: Media, e: Env)
    ensures
      var n := Step(m, PunchAnswered, e);
      var over := !e.pbxUp && m.punching && m.atx.active;
      n == if over && e.device
           then m.(punching := false, atx := INACTIVE, sent := m.sent + [Closed(AudioTx)])
           else if over || e.pbxUp then m.(punching := false)
           else m
  {
  }

  // ---------------------------------------------------------------- video

  /** Closing both directions: transmission first, and the mode of the line comes back. */
  lemma StopVideoSends(m: Media, e: Env)
    ensures Step(m, StopVideoRx, e) ==
            if e.device
            then m.(vtx := INACTIVE, vrx := INACTIVE, mode := e.lineMode,
                    sent := m.sent + Note(m.vtx, VideoTx) + Note(m.vrx, VideoRx))
            else m
    ensures Step(m, StopVideoTx, e) ==
            if e.device then m.(vtx := INACTIVE, sent := m.sent + Note(m.vtx, VideoTx)) else m
  {
    assert Step(m, StopVideoRx, e) == CloseVideo(m, e) && Step(m, StopVideoTx, e) == Close(m, VideoTx, e);
    hide Step;
  }

  /** Switching video off closes what an instance has open, and nothing else. */
  lemma VideoOffSends(m: Media, e: Env)
    ensures Step(m, ModeChanged(Off), e) ==
            if e.device && m.video
            then m.(vtx := INACTIVE, vrx := INACTIVE, mode := Off,
                    sent := m.sent + Note(m.vtx, VideoTx) + Note(m.vrx, VideoRx))
            else m.(mode := Off)
    ensures Step(m, ModeChanged(User), e) == m.(mode := User)
  {
    hide OpenVideo, StartConfirmedVideo, Step, SetVideoMode, Close, CloseVideo;
    VideoParts(m, e);
    StopVideoSends(m, e);
    if e.device {
      CloseSends(m, VideoTx, e);
      CloseSends(CloseVideo(m, e), VideoTx, e);
    }
    ChoosingUser(m, e);
  }

  lemma ChoosingUser(m: Media, e: Env)
    ensures Step(m, ModeChanged(User), e) == m.(mode := User)
    ensures !e.device ==> Close(m, VideoTx, e) == m
  {
  }

  /** Video reception is asked for exactly if the call lives, has a device, reception is off, video is on and
    * supported, there is or can be an instance, and a codec is known. With no instance to be had video is switched
    * off. */
  lemma RequestVideoSends(m: Media, e: Env)
    ensures
      var n := Step(m, RequestVideo, e);
      var wanted := !m.hangingUp && e.owner && e.device && m.vrx == INACTIVE && m.mode != Off && e.videoSupported;
      var served := m.video || e.videoServer;
      n == if wanted && served && e.videoCodec
           then m.(video := true, vrx := PROGRESS, sent := m.sent + [Opened(VideoRx)])
           else if wanted && served then m.(video := true)
           else if wanted && e.videoMade
           then m.(video := true, mode := Off, vtx := INACTIVE, sent := m.sent + Note(m.vtx, VideoTx))
           else if wanted then m.(mode := Off)
           else m
  {
  }

  /** Video transmission is started exactly if the call lives, has a device and an instance, is not transmitting, and
    * video is on and supported. */
  lemma StartVideoSends(m: Media, e: Env)
    ensures
      var n := StartVideo(m, e);
      var wanted := !m.hangingUp && e.owner && e.device && m.vtx == INACTIVE && m.mode != Off && e.videoSupported;
      n == if wanted && m.video then m.(vtx := PROGRESS, sent := m.sent + [Opened(VideoTx)])
           else if wanted then m.(mode := Off)
           else m
  {
  }

  /** Choosing automatic video asks for reception that is off, and starts transmission exactly if reception is
    * confirmed and transmission is off. */
  lemma AutoVideoSends(m: Media, e: Env)
    requires m.video
    ensures
      var n := Step(m, ModeChanged(Auto), e);
      var able := e.settled && !m.hangingUp && e.owner && e.device && e.videoSupported;
      var asks := able && m.vrx == INACTIVE && e.videoCodec;
      var starts := able && m.vrx.active && m.vtx == INACTIVE;
      && n.sent == m.sent + (if asks then [Opened(VideoRx)] else if starts then [Opened(VideoTx)] else [])
      && n == m.(mode := Auto, sent := n.sent, vrx := if asks then PROGRESS else m.vrx,
                 vtx := if starts then PROGRESS else m.vtx)
  {
  }

  /** Without an instance one is made first; reception is asked for only with one. */
  lemma AutoVideoMakesInstance(m: Media, e: Env)
    requires !m.video && m.vrx == INACTIVE && m.vtx == INACTIVE
    ensures
      var n := Step(m, ModeChanged(Auto), e);
      var able := e.settled && !m.hangingUp && e.owner && e.device && e.videoSupported;
      var asks := able && e.videoServer && e.videoCodec;
      && n.sent == m.sent + (if asks then [Opened(VideoRx)] else [])
      && n == m.(mode := Auto, sent := n.sent, vrx := if asks then PROGRESS else INACTIVE,
                 video := able && (e.videoServer || e.videoMade))
  {
  }

  /** Resuming a call brings back the video it had. */
  lemma VideoResumedSends(m: Media, e: Env)
    ensures
      var n := Step(m, VideoResumed, e);
      var able := !m.hangingUp && e.owner && e.device && e.videoSupported && m.video && m.mode != Off;
      var asks := able && m.vrx == INACTIVE && e.videoCodec;
      var starts := able && m.vrx.active && m.vtx == INACTIVE;
      && n.sent == m.sent + (if asks then [Opened(VideoRx)] else if starts then [Opened(VideoTx)] else [])
      && n == m.(sent := n.sent, vrx := if asks then PROGRESS else m.vrx, vtx := if starts then PROGRESS else m.vtx)
  {
  }

  /** The video key starts what is confirmed and leaves the mode to the user. It asks for reception only while there
    * is no instance. */
  lemma VideoKeySends(m: Media, e: Env)
    requires m.video || (m.vrx == INACTIVE && m.vtx == INACTIVE)
    ensures
      var n := Step(m, VideoKeyPressed, e);
      var works := e.videoSupported && e.videoPreferred;
      var able := works && !m.hangingUp && e.owner && e.device && m.mode != Off;
      var asks := able && !m.video && e.videoServer && e.videoCodec;
      var starts := able && m.video && m.vrx.active && m.vtx == INACTIVE;
      && n.sent == m.sent + (if asks then [Opened(VideoRx)] else if starts then [Opened(VideoTx)] else [])
      && n == m.(sent := n.sent, vrx := if asks then PROGRESS else m.vrx, vtx := if starts then PROGRESS else m.vtx,
                 mode := if works then User else m.mode,
                 video := m.video || (able && (e.videoServer || e.videoMade)))
  {
  }

  // ---------------------------------------------------------------- acknowledgements

  /** What the completion of an answer asks for besides transmission: video, while it is on. */
  predicate VideoToo(m: Media, e: Env) {
    && m.callback == CompleteAnswer
    && m.mode != Off && e.videoSupported && m.vrx == INACTIVE && (m.video || e.videoServer) && e.videoCodec
  }

  /**
   Confirmed reception of a live call: transmission is started by this acknowledgement exactly if it is off, the
   channel has a device, and somebody waits for it or early media is wanted before the answer; a completed answer
   also asks for video. Nothing is started for a call that ends.
   */
  lemma ReceptionConfirmed(m: Media, e: Env)
    requires Good(m) && m.arx.progress
    ensures
      var n := Step(m, Acked(AudioRx, Ok), e);
      var alive := !m.hangingUp && e.owner && !e.terminating;
      var starts := alive && e.device && m.atx == INACTIVE
                    && (m.callback != NoCallback || (e.punch && !e.pbxUp));
      var films := alive && e.device && VideoToo(m, e);
      && Opens(n.sent, AudioTx) == Opens(m.sent, AudioTx) + (if starts then 1 else 0)
      && Opens(n.sent, VideoRx) == Opens(m.sent, VideoRx) + (if films then 1 else 0)
      && n.atx == (if starts then PROGRESS else m.atx)
      && n.arx == (if alive then Bits(true, true, m.arx.error) else ACTIVE)
      && n.callback == (if alive then NoCallback else m.callback)
      && n.hangingUp == m.hangingUp
  {
    hide Separated, IsOpen, Opens;
    if !m.hangingUp && e.owner && !e.terminating {
      LiveReceptionConfirmed(m, e);
    }
  }

  /** Confirmed transmission, and confirmed video transmission, are active from then on; nothing is sent. */
  lemma TransmissionConfirmed(m: Media, x: Stream, e: Env)
    requires x == AudioTx || x == VideoTx
    requires Get(m, x).progress
    ensures
      var n := Step(m, Acked(x, Ok), e);
      n == if HasInstance(m, x) then Set(m, x, ACTIVE) else Set(m, x, INACTIVE).(hangingUp := true)
  {
  }

  /** Confirmed video reception: transmission is started exactly if the call lives and is connected, video is automatic
    * and supported, and nothing is transmitted yet. */
  lemma VideoReceptionConfirmed(m: Media, e: Env)
    requires m.vrx.progress && m.video
    ensures
      var n := Step(m, Acked(VideoRx, Ok), e);
      var starts := !m.hangingUp && e.owner && !e.terminating && e.connected && m.mode == Auto && m.vtx == INACTIVE
                    && e.device && e.videoSupported;
      n == if starts then m.(vrx := ACTIVE, vtx := PROGRESS, sent := m.sent + [Opened(VideoTx)])
           else m.(vrx := ACTIVE)
  {
  }

  /** A confirmation for which there is no instance ends the call. */
  lemma ConfirmedWithoutInstance(m: Media, x: Stream, e: Env)
    requires x == AudioRx || x == VideoRx
    requires Get(m, x).progress && !HasInstance(m, x)
    ensures Step(m, Acked(x, Ok), e) == Set(m, x, INACTIVE).(hangingUp := true)
  {
  }

  /** Closing everything leaves nothing open, keeps the instances, and gives the mode of the line back to video that
    * was received. Without a device nothing happens. */
  lemma AllClosedLeaves(m: Media, e: Env)
    ensures
      var n := Step(m, AllClosed, e);
      n == if e.device
           then m.(arx := INACTIVE, atx := INACTIVE, vrx := INACTIVE, vtx := INACTIVE,
                   mode := if m.vrx != INACTIVE then e.lineMode else m.mode, sent := n.sent)
           else m
  {
    hide Step, CloseAll;
    ClosingEverything(m, e);
    if e.device {
      var a := Close(m, AudioRx, e);
      CloseSends(m, AudioRx, e);
      ReceivedVideoClosed(a, e);
      RestClosed(m, a, e);
    }
  }

  lemma ReceivedVideoClosed(a: Media, e: Env)
    requires e.device
    ensures
      var v := if a.vrx != INACTIVE then CloseVideo(a, e) else a;
      v == a.(vrx := INACTIVE, vtx := v.vtx, sent := v.sent,
              mode := if a.vrx != INACTIVE then e.lineMode else a.mode)
  {
  }

  lemma RestClosed(m: Media, a: Media, e: Env)
    requires e.device && a == Close(m, AudioRx, e)
    ensures
      var n := CloseAll(m, e);
      var v := if a.vrx != INACTIVE then CloseVideo(a, e) else a;
      n == v.(atx := INACTIVE, vtx := INACTIVE, sent := n.sent)
  {
    hide CloseVideo, Close, Note;
    var v := if a.vrx != INACTIVE then CloseVideo(a, e) else a;
    CloseSends(v, AudioTx, e);
    CloseSends(Close(v, AudioTx, e), VideoTx, e);
  }

  lemma ClosingEverything(m: Media, e: Env)
    ensures Step(m, AllClosed, e) == CloseAll(m, e)
    ensures !e.device ==> CloseAll(m, e) == m
  {
  }

  lemma ClosingVideo(m: Media, e: Env)
    ensures Step(m, StopVideoRx, e) == CloseVideo(m, e)
  {
  }

  /** A pending audio stream that the phone refuses takes all other streams with it, keeps the error, and ends the call
    * unless the phone is merely on hook. */
  lemma AudioRefused(m: Media, x: Stream, status: Status, e: Env)
    requires x == AudioRx || x == AudioTx
    requires Get(m, x).progress && status != Ok
    ensures
      var closed := Step(m, AllClosed, e);
      Step(m, Acked(x, status), e) == Set(closed, x, ERROR).(hangingUp := m.hangingUp || status == Failure)
  {
    hide CloseAll;
    AllClosedLeaves(m, e);
  }

  /** A pending video stream that the phone refuses takes the other direction with it, and leaves audio alone. */
  lemma VideoRefused(m: Media, x: Stream, status: Status, e: Env)
    requires x == VideoRx || x == VideoTx
    requires Get(m, x).progress && status != Ok
    ensures
      var closed := if e.device
                    then m.(vtx := INACTIVE, vrx := INACTIVE, mode := e.lineMode,
                            sent := m.sent + Note(m.vtx, VideoTx) + Note(m.vrx, VideoRx))
                    else m;
      Step(m, Acked(x, status), e) == Set(closed, x, ERROR).(hangingUp := m.hangingUp || status == Failure)
  {
    hide Step, FailVideo, CloseVideo, Note;
    StopVideoSends(m, e);
    ClosingVideo(m, e);
    FailedVideoCloses(m, status, e);
    RefusedVideo(m, x, status, e);
  }

  lemma RefusedVideo(m: Media, x: Stream, status: Status, e: Env)
    requires x == VideoRx || x == VideoTx
    requires Get(m, x).progress && status != Ok
    ensures Step(m, Acked(x, status), e) == Set(FailVideo(m, status, e), x, ERROR)
  {
    hide FailVideo;
  }

  lemma FailedVideoCloses(m: Media, status: Status, e: Env)
    ensures FailVideo(m, status, e) == CloseVideo(m, e).(hangingUp := m.hangingUp || status == Failure)
  {
    hide Step, CloseVideo, Note;
    StopVideoSends(m, e);
    ClosingVideo(m, e);
  }

  lemma LiveReceptionConfirmed(m: Media, e: Env)
    requires Good(m) && m.arx.progress && !m.hangingUp && e.owner && !e.terminating
    ensures
      var n := Step(m, Acked(AudioRx, Ok), e);
      var starts := e.device && m.atx == INACTIVE && (m.callback != NoCallback || (e.punch && !e.pbxUp));
      && Opens(n.sent, AudioTx) == Opens(m.sent, AudioTx) + (if starts then 1 else 0)
      && Opens(n.sent, VideoRx) == Opens(m.sent, VideoRx) + (if e.device && VideoToo(m, e) then 1 else 0)
      && n.atx == (if starts then PROGRESS else m.atx)
      && n.arx == Bits(true, true, m.arx.error)
      && n.callback == NoCallback
      && n.hangingUp == m.hangingUp
  {
    assert m.audio;
    var confirmed := m.(arx := Or(m.arx, ACTIVE));
    var called := RunCallback(confirmed, e);
    assert Step(m, Acked(AudioRx, Ok), e) == if e.punch then StartPunch(called, e) else called;
    hide Good, Opens, Step, RunCallback, StartPunch;
    CallbackSends(confirmed, e);
    PunchOpens(called, e);
  }

  lemma PunchOpens(m: Media, e: Env)
    requires m.audio && m.arx != INACTIVE && e.owner && !m.hangingUp
    ensures
      var n := StartPunch(m, e);
      var begins := m.atx == INACTIVE && !e.pbxUp && e.punch && e.device;
      && Opens(n.sent, AudioTx) == Opens(m.sent, AudioTx) + (if begins then 1 else 0)
      && Opens(n.sent, VideoRx) == Opens(m.sent, VideoRx)
      && n.atx == (if begins then PROGRESS else m.atx)
      && n.arx == m.arx && n.callback == m.callback && n.hangingUp == m.hangingUp
  {
    SendOpens(m.sent, Opened(AudioTx), AudioTx);
    SendOpens(m.sent, Opened(AudioTx), VideoRx);
  }

  /** What runs once the reception of a live call is confirmed. */
  lemma CallbackSends(m: Media, e: Env)
    requires m.audio && m.arx.active && e.owner && !m.hangingUp
    ensures
      var n := RunCallback(m, e);
      var starts := e.device && m.atx == INACTIVE && m.callback != NoCallback;
      && Opens(n.sent, AudioTx) == Opens(m.sent, AudioTx) + (if starts then 1 else 0)
      && Opens(n.sent, VideoRx) == Opens(m.sent, VideoRx) + (if e.device && VideoToo(m, e) then 1 else 0)
      && n.atx == (if starts then PROGRESS else m.atx)
      && n.arx == m.arx && n.audio && n.callback == NoCallback && n.hangingUp == m.hangingUp
  {
    hide Opens, OpenVideo, ConnectedIndication, StartAudio;
    StartOpens(m.(callback := NoCallback), e);
    if m.callback == CompleteAnswer && e.device {
      CompletionSends(m, e);
    }
  }

  lemma StartOpens(m: Media, e: Env)
    requires m.audio && m.arx != INACTIVE && e.owner && !m.hangingUp
    ensures
      var n := StartAudio(m, e);
      var starts := e.device && m.atx == INACTIVE;
      && Opens(n.sent, AudioTx) == Opens(m.sent, AudioTx) + (if starts then 1 else 0)
      && Opens(n.sent, VideoRx) == Opens(m.sent, VideoRx)
      && n == m.(atx := if starts then PROGRESS else m.atx, sent := n.sent)
  {
    SendOpens(m.sent, Opened(AudioTx), AudioTx);
    SendOpens(m.sent, Opened(AudioTx), VideoRx);
    hide Opens;
  }

  lemma CompletionSends(m: Media, e: Env)
    requires m.audio && m.arx.active && e.owner && !m.hangingUp && m.callback == CompleteAnswer && e.device
    ensures
      var n := RunCallback(m, e);
      && Opens(n.sent, AudioTx) == Opens(m.sent, AudioTx) + (if m.atx == INACTIVE then 1 else 0)
      && Opens(n.sent, VideoRx) == Opens(m.sent, VideoRx) + (if VideoToo(m, e) then 1 else 0)
      && n.atx == (if m.atx == INACTIVE then PROGRESS else m.atx)
      && n.arx == m.arx && n.audio && n.callback == NoCallback && n.hangingUp == m.hangingUp
  {
    hide Opens, OpenVideo, ConnectedIndication, StartAudio;
    var fetched := m.(callback := NoCallback);
    var started := StartAudio(fetched, e);
    var filmed := if started.mode != Off && e.videoSupported then OpenVideo(started, e) else started;
    StartOpens(fetched, e);
    VideoOpens(started, e);
    assert RunCallback(m, e) == ConnectedIndication(filmed, e);
    ConnectedIndicationKeeps(filmed, e);
  }

  lemma ConnectedIndicationKeeps(m: Media, e: Env)
    requires m.arx != INACTIVE && m.atx != INACTIVE && m.callback == NoCallback
    ensures ConnectedIndication(m, e) == m
  {
  }

  lemma VideoOpens(m: Media, e: Env)
    requires e.owner && !m.hangingUp && e.device
    ensures
      var n := OpenVideo(m, e);
      var films := m.mode != Off && e.videoSupported && m.vrx == INACTIVE && (m.video || e.videoServer) && e.videoCodec;
      && Opens(n.sent, AudioTx) == Opens(m.sent, AudioTx)
      && Opens(n.sent, VideoRx) == Opens(m.sent, VideoRx) + (if films then 1 else 0)
      && n.atx == m.atx && n.arx == m.arx && n.audio == m.audio && n.callback == m.callback
      && n.hangingUp == m.hangingUp
  {
    SendOpens(m.sent, Opened(VideoRx), AudioTx);
    SendOpens(m.sent, Opened(VideoRx), VideoRx);
    SendOpens(m.sent, Closed(VideoTx), AudioTx);
    SendOpens(m.sent, Closed(VideoTx), VideoRx);
    hide Opens;
  }

  // ---------------------------------------------------------------- when the caller is heard

  /** The caller is heard, will be heard once reception is confirmed, or the call ends. */
  predicate Promised(m: Media) {
    m.hangingUp || m.atx != INACTIVE || m.callback != NoCallback
  }

  /** While these events are handled the phone is there, and so is the PBX channel. */
  ghost predicate Steady(events: seq<(Event, Env)>) {
    forall i | 0 <= i < |events| :: events[i].1.device && events[i].1.owner
  }

  /** From m to n nothing said is taken back, and a promise is kept unless transmission was closed. */
  ghost predicate KeepsPromise(m: Media, n: Media) {
    && m.sent <= n.sent && (m.hangingUp ==> n.hangingUp)
    && (Promised(m) ==> Promised(n) || Closed(AudioTx) in n.sent[|m.sent|..])
  }

  lemma AudioKeepsPromise(m: Media, ev: Event, e: Env)
    requires e.device && e.owner
    requires ev.RequestAudio? || ev.Answering? || ev.StopAudio? || ev.PeerChanged? || ev.PunchAnswered?
    ensures KeepsPromise(m, Step(m, ev, e))
  {
    RequestAudioSends(m, e);
    AnsweringSends(m, e);
    StopAudioSends(m, e);
    PeerChangedSends(m, e);
    PunchAnsweredSends(m, e);
    hide Step;
    Said(m.sent, [], [], Closed(AudioTx));
    assert m.sent + [] == m.sent && m.sent + [Closed(AudioTx)] + [] == m.sent + [Closed(AudioTx)];
    Said(m.sent, [], [Closed(AudioRx)], Closed(AudioTx));
    Said(m.sent, [], [Opened(AudioTx)], Closed(AudioTx));
  }

  lemma Said(log: seq<Msg>, before: seq<Msg>, after: seq<Msg>, msg: Msg)
    ensures msg in (log + before + [msg] + after)[|log|..]
  {
    assert (log + before + [msg] + after)[|log|..][|before|] == msg;
  }

  lemma ConnectedKeepsPromise(m: Media, e: Env)
    requires Good(m) && e.device && e.owner
    ensures KeepsPromise(m, Step(m, Connected, e)) && Promised(Step(m, Connected, e))
  {
    assert m.arx != INACTIVE ==> m.audio;
    hide Good;
  }

  lemma VideoKeepsPromise(m: Media, ev: Event, e: Env)
    requires ev.RequestVideo? || ev.StopVideoRx? || ev.StopVideoTx? || ev.ModeChanged? || ev.VideoResumed?
             || ev.VideoKeyPressed?
    ensures KeepsPromise(m, Step(m, ev, e))
  {
    VideoLeavesAudio(m, ev, e);
    hide Step;
  }

  /** Audio transmission, the callback and the end of the call are left alone; the log only grows. */
  predicate Aside(m: Media, n: Media) {
    m.sent <= n.sent && n.atx == m.atx && n.callback == m.callback && n.hangingUp == m.hangingUp
  }

  lemma VideoLeavesAudio(m: Media, ev: Event, e: Env)
    requires ev.RequestVideo? || ev.StopVideoRx? || ev.StopVideoTx? || ev.ModeChanged? || ev.VideoResumed?
             || ev.VideoKeyPressed?
    ensures Aside(m, Step(m, ev, e))
  {
    hide OpenVideo, VideoOff, StartConfirmedVideo, CloseVideo, SetVideoMode, VideoKey;
    VideoPartsAside(m, e);
    match ev {
      case ModeChanged(mode) => ModeAside(m, mode, e);
      case VideoKeyPressed => VideoKeyAside(m, e);
      case _ =>
    }
  }

  lemma ModeAside(m: Media, mode: VideoMode, e: Env)
    ensures Aside(m, SetVideoMode(m, mode, e))
  {
    hide OpenVideo, VideoOff, StartConfirmedVideo;
    VideoPartsAside(m, e);
    var wanted := m.(mode := Auto);
    VideoPartsAside(wanted, e);
    VideoPartsAside(OpenVideo(wanted, e), e);
  }

  lemma VideoKeyAside(m: Media, e: Env)
    ensures Aside(m, VideoKey(m, e))
  {
    hide OpenVideo, StartConfirmedVideo, VideoOff;
    VideoPartsAside(m, e);
    VideoPartsAside(OpenVideo(m, e), e);
  }

  lemma VideoPartsAside(m: Media, e: Env)
    ensures Aside(m, OpenVideo(m, e)) && Aside(m, VideoOff(m, e)) && Aside(m, StartConfirmedVideo(m, e))
    ensures Aside(m, CloseVideo(m, e))
  {
    hide Step, OpenVideo, VideoOff, StartVideo, CloseVideo;
    VideoParts(m, e);
    RequestVideoSends(m, e);
    VideoOffSends(m, e);
    StartVideoSends(m, e);
    StopVideoSends(m, e);
  }

  lemma VideoParts(m: Media, e: Env)
    ensures Step(m, RequestVideo, e) == OpenVideo(m, e) && Step(m, ModeChanged(Off), e) == VideoOff(m, e)
    ensures Step(m, StopVideoRx, e) == CloseVideo(m, e)
  {
    hide OpenVideo, VideoOff, CloseVideo;
  }

  lemma RefusalKeepsPromise(m: Media, x: Stream, status: Status, e: Env)
    requires Get(m, x).progress && status != Ok && e.device
    ensures KeepsPromise(m, Step(m, Acked(x, status), e))
  {
    var closed := Step(m, AllClosed, e);
    AllClosedLeaves(m, e);
    AllClosedKeepsPromise(m, e);
    if x == AudioRx || x == AudioTx {
      AudioRefused(m, x, status, e);
    } else {
      VideoRefused(m, x, status, e);
    }
    hide Step;
  }

  lemma AllClosedKeepsPromise(m: Media, e: Env)
    requires e.device
    ensures
      var n := Step(m, AllClosed, e);
      && m.sent <= n.sent && n.hangingUp == m.hangingUp && n.callback == m.callback
      && (m.atx != INACTIVE ==> Closed(AudioTx) in n.sent[|m.sent|..])
  {
    hide Step, CloseAll;
    ClosingEverything(m, e);
    AllClosedLeaves(m, e);
    CloseAllSilences(m, e);
    var video := if m.vrx != INACTIVE then Note(m.vtx, VideoTx) + [Closed(VideoRx)] else [];
    var last := if m.vrx == INACTIVE then Note(m.vtx, VideoTx) else [];
    var before := Note(m.arx, AudioRx) + video;
    assert CloseAll(m, e).sent == m.sent + before + Note(m.atx, AudioTx) + last;
    Said(m.sent, before, last, Closed(AudioTx));
  }

  lemma AckKeepsPromise(m: Media, x: Stream, status: Status, e: Env)
    requires Good(m) && e.device && e.owner
    ensures KeepsPromise(m, Step(m, Acked(x, status), e))
  {
    hide Step, Good, TracksAll, KeepsPromise;
    if !Get(m, x).progress {
      NothingAcked(m, x, status, e);
    } else if status != Ok {
      RefusalKeepsPromise(m, x, status, e);
    } else if x == AudioRx {
      ReceptionKeepsPromise(m, e);
    } else {
      ConfirmationKeepsPromise(m, x, e);
    }
  }

  lemma NothingAcked(m: Media, x: Stream, status: Status, e: Env)
    requires !Get(m, x).progress
    ensures Step(m, Acked(x, status), e) == m && KeepsPromise(m, m)
  {
  }

  lemma ConfirmationKeepsPromise(m: Media, x: Stream, e: Env)
    requires Good(m) && Get(m, x).progress && x != AudioRx
    ensures KeepsPromise(m, Step(m, Acked(x, Ok), e))
  {
    if x == VideoRx { VideoReceptionConfirmed(m, e); } else { TransmissionConfirmed(m, x, e); }
    hide Step;
  }

  lemma StartGrows(m: Media, e: Env)
    ensures m.sent <= StartAudio(m, e).sent
    ensures m.sent <= StartPunch(m, e).sent
    ensures m.sent <= OpenAudio(m, e).sent
  {
  }

  lemma IndicationGrows(m: Media, e: Env)
    ensures m.sent <= ConnectedIndication(m, e).sent
  {
    hide StartAudio, OpenAudio;
    StartGrows(m.(callback := NoCallback), e);
    StartGrows(m.(callback := StartTransmission), e);
  }

  lemma CallbackGrows(m: Media, e: Env)
    ensures m.sent <= RunCallback(m, e).sent
  {
    hide StartAudio, OpenVideo, ConnectedIndication;
    var fetched := m.(callback := NoCallback);
    var started := StartAudio(fetched, e);
    StartGrows(fetched, e);
    VideoPartsAside(started, e);
    IndicationGrows(started, e);
    IndicationGrows(OpenVideo(started, e), e);
  }

  lemma ReceptionGrows(m: Media, e: Env)
    requires m.arx.progress
    ensures m.sent <= Step(m, Acked(AudioRx, Ok), e).sent
  {
    hide RunCallback, StartPunch;
    var called := RunCallback(m.(arx := Or(m.arx, ACTIVE)), e);
    CallbackGrows(m.(arx := Or(m.arx, ACTIVE)), e);
    StartGrows(called, e);
  }

  /** A confirmed reception keeps the promise: whoever waited is heard now. */
  lemma ReceptionKeepsPromise(m: Media, e: Env)
    requires Good(m) && m.arx.progress && e.device && e.owner
    ensures KeepsPromise(m, Step(m, Acked(AudioRx, Ok), e))
  {
    ReceptionConfirmed(m, e);
    ReceptionGrows(m, e);
    hide Step, Good, Opens;
  }

  lemma StepPromises(m: Media, ev: Event, e: Env)
    requires Good(m) && e.device && e.owner
    ensures KeepsPromise(m, Step(m, ev, e))
  {
    hide Step, Good, KeepsPromise;
    match ev {
      case Connected => ConnectedKeepsPromise(m, e);
      case Acked(x, status) => AckKeepsPromise(m, x, status, e);
      case AllClosed => AllClosedPromise(m, e);
      case CallEnded => EndingPromises(m, e);
      case RequestAudio => AudioKeepsPromise(m, ev, e);
      case Answering => AudioKeepsPromise(m, ev, e);
      case StopAudio => AudioKeepsPromise(m, ev, e);
      case PeerChanged => AudioKeepsPromise(m, ev, e);
      case PunchAnswered => AudioKeepsPromise(m, ev, e);
      case _ => VideoKeepsPromise(m, ev, e);
    }
  }

  lemma AllClosedPromise(m: Media, e: Env)
    requires e.device
    ensures KeepsPromise(m, Step(m, AllClosed, e))
  {
    hide Step;
    AllClosedKeepsPromise(m, e);
  }

  lemma EndingPromises(m: Media, e: Env)
    ensures KeepsPromise(m, Step(m, CallEnded, e))
  {
  }

  lemma KeepsPromiseTransitive(a: Media, b: Media, c: Media)
    requires KeepsPromise(a, b) && KeepsPromise(b, c)
    ensures KeepsPromise(a, c)
  {
    if Closed(AudioTx) in b.sent[|a.sent|..] {
      var k :| 0 <= k < |b.sent[|a.sent|..]| && b.sent[|a.sent|..][k] == Closed(AudioTx);
      assert c.sent[|a.sent|..][k] == Closed(AudioTx);
    } else if Closed(AudioTx) in c.sent[|b.sent|..] {
      var k :| 0 <= k < |c.sent[|b.sent|..]| && c.sent[|b.sent|..][k] == Closed(AudioTx);
      assert c.sent[|a.sent|..][|b.sent| - |a.sent| + k] == Closed(AudioTx);
    }
  }

  lemma {:induction false} RunPromises(m: Media, events: seq<(Event, Env)>)
    requires Good(m) && Steady(events)
    ensures Good(Run(m, events)) && KeepsPromise(m, Run(m, events))
    decreases |events|
  {
    hide Step, Good, KeepsPromise;
    if events == [] {
      assert KeepsPromise(m, m) by { NothingKeepsPromise(m); }
    } else {
      var next := Step(m, events[0].0, events[0].1);
      StepPromises(m, events[0].0, events[0].1);
      StepKeeps(m, events[0].0, events[0].1);
      assert Steady(events[1..]) by {
        forall i | 0 <= i < |events[1..]| ensures events[1..][i].1.device && events[1..][i].1.owner {
          assert events[1..][i] == events[i + 1];
        }
      }
      RunPromises(next, events[1..]);
      KeepsPromiseTransitive(m, next, Run(next, events[1..]));
    }
  }

  lemma NothingKeepsPromise(m: Media)
    ensures KeepsPromise(m, m)
  {
  }

  /**
   The caller is heard. Once a call was shown as connected, whatever happens while the phone and the PBX channel
   stay: when its audio reception is acknowledged and the call is not ending, the phone holds a started audio
   transmission, unless it was stopped since, or had been refused.
   */
  lemma ConnectedIsHeard(mode: VideoMode, before: seq<(Event, Env)>, e: Env, between: seq<(Event, Env)>, e': Env)
    requires e.device && e.owner && Steady(between) && e'.device && e'.owner && !e'.terminating
    ensures
      var shown := Step(Run(Fresh(mode), before), Connected, e);
      var pending := Run(shown, between);
      var last := Step(pending, Acked(AudioRx, Ok), e');
      pending.arx.progress && !pending.hangingUp ==>
        && shown.sent <= last.sent
        && (Closed(AudioTx) in last.sent[|shown.sent|..]
            || (last.atx != INACTIVE && (IsOpen(last.sent, AudioTx) || last.atx.error)))
  {
    hide Step, Run, Good, KeepsPromise;
    var m := Run(Fresh(mode), before);
    FreshGood(mode);
    RunKeeps(Fresh(mode), before);
    var shown := Step(m, Connected, e);
    ConnectedKeepsPromise(m, e);
    StepKeeps(m, Connected, e);
    var pending := Run(shown, between);
    RunPromises(shown, between);
    if pending.arx.progress && !pending.hangingUp {
      HeardAtLast(shown, pending, e');
    }
  }

  lemma HeardAtLast(shown: Media, pending: Media, e: Env)
    requires KeepsPromise(shown, pending) && Promised(shown) && Good(pending)
    requires e.device && e.owner && !e.terminating && pending.arx.progress && !pending.hangingUp
    ensures
      var last := Step(pending, Acked(AudioRx, Ok), e);
      && shown.sent <= last.sent
      && (Closed(AudioTx) in last.sent[|shown.sent|..]
          || (last.atx != INACTIVE && (IsOpen(last.sent, AudioTx) || last.atx.error)))
  {
    var last := Step(pending, Acked(AudioRx, Ok), e);
    hide Step, Opens, Good, KeepsPromise;
    ReceptionKeepsPromise(pending, e);
    KeepsPromiseTransitive(shown, pending, last);
    ReceptionConfirmed(pending, e);
    StepKeeps(pending, Acked(AudioRx, Ok), e);
    TransmissionTracked(last);
    assert shown.sent <= last.sent && (Promised(last) || Closed(AudioTx) in last.sent[|shown.sent|..]) by {
      PromiseKept(shown, last);
    }
  }

  lemma PromiseKept(m: Media, n: Media)
    requires KeepsPromise(m, n) && Promised(m)
    ensures m.sent <= n.sent && (Promised(n) || Closed(AudioTx) in n.sent[|m.sent|..])
  {
  }

  lemma TransmissionTracked(m: Media)
    requires Good(m)
    ensures m.atx.progress || m.atx.active ==> IsOpen(m.sent, AudioTx)
  {
  }

  /** And it is this acknowledgement that starts the transmission, if nothing did before: exactly one start. */
  lemma FirstConfirmationStarts(mode: VideoMode, before: seq<(Event, Env)>, e: Env, e': Env)
    requires e.device && e.owner && e'.device && e'.owner && !e'.terminating
    ensures
      var m := Run(Fresh(mode), before);
      var shown := Step(m, Connected, e);
      var last := Step(shown, Acked(AudioRx, Ok), e');
      m.arx == INACTIVE && m.atx == INACTIVE && !m.hangingUp && (m.audio || e.audioServer) ==>
        && shown.sent == m.sent + [Opened(AudioRx)]
        && last.sent == m.sent + [Opened(AudioRx), Opened(AudioTx)]
        && last.atx == PROGRESS
  {
    hide Run, Good, Opens, IsOpen, Separated;
    var m := Run(Fresh(mode), before);
    if m.arx == INACTIVE && m.atx == INACTIVE && !m.hangingUp && (m.audio || e.audioServer) {
      RequestAudioSends(m.(callback := StartTransmission), e);
    }
  }
}
