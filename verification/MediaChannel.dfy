/** The channel's own media functions, updating the stream states in place as the driver does. */
module MediaChannel {
  import opened MediaStreams
  import opened MediaRuns

  /** Closing a stream takes no notice of the video mode, and does nothing to one that is idle. */
  lemma CloseAside(m: Media, x: Stream, e: Env, mode: VideoMode)
    ensures Close(m.(mode := mode), x, e) == Close(m, x, e).(mode := mode)
    ensures Get(m, x) == INACTIVE ==> Close(m, x, e) == m
  {
  }

  lemma CloseVideoAside(m: Media, e: Env)
    ensures CloseVideo(m.(mode := Off), e).(mode := Off) == CloseVideo(m, e).(mode := Off)
  {
    hide Close;
    CloseAside(m, VideoTx, e, Off);
    CloseAside(Close(m, VideoTx, e), VideoRx, e, Off);
  }

  /** Switching the mode off before closing comes to the same as doing so afterwards. */
  lemma OffFirst(m: Media, e: Env)
    ensures
      var received := if m.vrx != INACTIVE then CloseVideo(m.(mode := Off), e) else m.(mode := Off);
      var stopped := if received.vtx != INACTIVE then Close(received, VideoTx, e) else received;
      m.video ==> stopped.(mode := Off) == VideoOff(m, e)
  {
    hide Close, CloseVideo;
    CloseVideoAside(m, e);
    var received := if m.vrx != INACTIVE then CloseVideo(m.(mode := Off), e) else m.(mode := Off);
    var spec := if m.vrx != INACTIVE then CloseVideo(m, e) else m;
    CloseAside(received, VideoTx, e, Off);
    CloseAside(spec, VideoTx, e, Off);
  }

  class Channel {
    var arx: Bits
    var atx: Bits
    var vrx: Bits
    var vtx: Bits
    var audio: bool
    var video: bool
    var punching: bool
    var callback: Callback
    var mode: VideoMode
    var hangingUp: bool
    var sent: seq<Msg>

    function View(): Media
      reads this
    {
      Media(arx, atx, vrx, vtx, audio, video, punching, callback, mode, hangingUp, sent)
    }

    constructor (mode: VideoMode)
      ensures View() == Fresh(mode)
    {
      arx, atx, vrx, vtx := INACTIVE, INACTIVE, INACTIVE, INACTIVE;
      audio, video, punching, hangingUp := false, false, false, false;
      callback, this.mode, sent := NoCallback, mode, [];
    }

    method OpenReceiveChannel(e: Env)
      modifies this
      ensures View() == OpenAudio(old(View()), e)
    {
      if hangingUp || !e.owner { return; }
      if arx != INACTIVE { return; }
      if !e.device { return; }
      if !audio {
        if !e.audioServer {
          audio := e.audioMade;
          return;
        }
        audio := true;
      }
      arx := PROGRESS;
      sent := sent + [Opened(AudioRx)];
    }

    method CloseReceiveChannel(e: Env)
      modifies this
      ensures View() == Close(old(View()), AudioRx, e)
    {
      if !e.device { return; }
      if arx != INACTIVE {
        sent := sent + [Closed(AudioRx)];
        arx := INACTIVE;
      }
    }

    method StartMediaTransmission(e: Env)
      modifies this
      ensures View() == StartAudio(old(View()), e)
    {
      if hangingUp || !e.owner { return; }
      if atx != INACTIVE { return; }
      if !e.device {
        CloseReceiveChannel(e);
        return;
      }
      if !audio || arx == INACTIVE {
        CloseReceiveChannel(e);
        return;
      }
      atx := Or(atx, PROGRESS);
      sent := sent + [Opened(AudioTx)];
    }

    method StopMediaTransmission(e: Env)
      modifies this
      ensures View() == Close(old(View()), AudioTx, e)
    {
      if !e.device { return; }
      if atx != INACTIVE {
        sent := sent + [Closed(AudioTx)];
        atx := INACTIVE;
      }
    }

    method UpdateMediaTransmission(e: Env)
      modifies this
      ensures View() == UpdateAudio(old(View()), e)
    {
      if atx != INACTIVE { StopMediaTransmission(e); }
      if atx == INACTIVE { StartMediaTransmission(e); }
    }

    method StartHolePunch(e: Env)
      modifies this
      ensures View() == StartPunch(old(View()), e)
    {
      if atx == INACTIVE && !e.pbxUp && e.punch {
        punching := true;
        StartMediaTransmission(e);
      }
    }

    method FinishHolePunch(e: Env) returns (still: bool)
      modifies this
      ensures View() == FinishPunch(old(View()), e)
      ensures still == punching
    {
      if e.pbxUp {
        punching := false;
        return false;
      }
      if punching && atx.active {
        StopMediaTransmission(e);
        punching := false;
      }
      return punching;
    }

    method StopMultiMediaTransmission(e: Env)
      modifies this
      ensures View() == Close(old(View()), VideoTx, e)
    {
      if !e.device { return; }
      if vtx != INACTIVE {
        sent := sent + [Closed(VideoTx)];
        vtx := INACTIVE;
      }
    }

    method CloseMultiMediaReceiveChannel(e: Env)
      modifies this
      ensures View() == CloseVideo(old(View()), e)
    {
      if !e.device { return; }
      StopMultiMediaTransmission(e);
      if vrx != INACTIVE {
        sent := sent + [Closed(VideoRx)];
        vrx := INACTIVE;
      }
      mode := e.lineMode;
    }

    method SwitchVideoOff(e: Env)
      modifies this
      ensures View() == VideoOff(old(View()), e)
    {
      OffFirst(View(), e);
      hide CloseVideo, Close;
      mode := Off;
      if video {
        if vrx != INACTIVE { CloseMultiMediaReceiveChannel(e); }
        if vtx != INACTIVE { StopMultiMediaTransmission(e); }
      }
      mode := Off;
    }

    method OpenMultiMediaReceiveChannel(e: Env)
      modifies this
      ensures View() == OpenVideo(old(View()), e)
    {
      if hangingUp || !e.owner { return; }
      if vrx != INACTIVE { return; }
      if !e.device { return; }
      if mode == Off || !e.videoSupported { return; }
      if !video {
        if !e.videoServer {
          video := e.videoMade;
          SwitchVideoOff(e);
          return;
        }
        video := true;
      }
      if !e.videoCodec { return; }
      vrx := PROGRESS;
      sent := sent + [Opened(VideoRx)];
    }

    method StartMultiMediaTransmission(e: Env)
      modifies this
      ensures View() == StartVideo(old(View()), e)
    {
      if hangingUp || !e.owner { return; }
      if vtx != INACTIVE { return; }
      if !e.device {
        CloseMultiMediaReceiveChannel(e);
        return;
      }
      if mode == Off || !e.videoSupported { return; }
      if !video {
        SwitchVideoOff(e);
        return;
      }
      vtx := PROGRESS;
      sent := sent + [Opened(VideoTx)];
    }

    method ChangeVideoMode(wanted: VideoMode, e: Env)
      modifies this
      ensures View() == SetVideoMode(old(View()), wanted, e)
    {
      hide VideoOff, OpenVideo, StartVideo;
      if wanted == Off {
        SwitchVideoOff(e);
        return;
      }
      mode := wanted;
      if e.settled && wanted == Auto && !hangingUp {
        if !video || vrx == INACTIVE { OpenMultiMediaReceiveChannel(e); }
        if vrx.active && vtx == INACTIVE { StartMultiMediaTransmission(e); }
      }
      mode := wanted;
    }

    method ResumeVideo(e: Env)
      modifies this
      ensures View() == ReopenVideo(old(View()), e)
    {
      if video && mode != Off && e.videoSupported {
        if vrx == INACTIVE {
          OpenMultiMediaReceiveChannel(e);
        } else if vrx.active && vtx == INACTIVE {
          StartMultiMediaTransmission(e);
        }
      }
    }

    method PressVideoKey(e: Env)
      modifies this
      ensures View() == VideoKey(old(View()), e)
    {
      if e.videoSupported && e.videoPreferred {
        if !video || vrx != INACTIVE { OpenMultiMediaReceiveChannel(e); }
        if vrx.active && vtx == INACTIVE { StartMultiMediaTransmission(e); }
        ChangeVideoMode(User, e);
      }
    }

    method CloseAllMediaTransmitAndReceive(e: Env)
      modifies this
      ensures View() == CloseAll(old(View()), e)
    {
      if arx != INACTIVE { CloseReceiveChannel(e); }
      if vrx != INACTIVE { CloseMultiMediaReceiveChannel(e); }
      if atx != INACTIVE { StopMediaTransmission(e); }
      if vtx != INACTIVE { StopMultiMediaTransmission(e); }
    }

    method IndicateConnected(e: Env)
      modifies this
      ensures View() == ConnectedIndication(old(View()), e)
    {
      if !e.device { return; }
      callback := StartTransmission;
      if arx == INACTIVE {
        OpenReceiveChannel(e);
      } else if atx == INACTIVE {
        if arx.active {
          callback := NoCallback;
          StartMediaTransmission(e);
        }
      } else {
        callback := NoCallback;
      }
    }

    method RunReceptionCallback(e: Env)
      modifies this
      ensures View() == RunCallback(old(View()), e)
    {
      if callback == NoCallback || !arx.active { return; }
      var fetched := callback;
      callback := NoCallback;
      if fetched == StartTransmission {
        StartMediaTransmission(e);
      } else if e.device && e.owner {
        StartMediaTransmission(e);
        if mode != Off && e.videoSupported { OpenMultiMediaReceiveChannel(e); }
        IndicateConnected(e);
      }
    }

    method ReceiveChannelOpen(e: Env) returns (result: Bits)
      modifies this
      ensures View().(arx := result) == ReceptionOpened(old(View()), e)
    {
      if !audio {
        hangingUp := true;
        return INACTIVE;
      }
      if hangingUp || !e.owner || e.terminating { return ACTIVE; }
      arx := Or(arx, ACTIVE);
      RunReceptionCallback(e);
      if e.punch { StartHolePunch(e); }
      return arx;
    }

    method HandleOpenReceiveChannelAck(status: Status, e: Env)
      modifies this
      ensures View() == AckAudioRx(old(View()), status, e)
    {
      if !arx.progress { return; }
      var result := ERROR;
      match status {
        case Ok => result := ReceiveChannelOpen(e);
        case DeviceOnHook => CloseAllMediaTransmitAndReceive(e);
        case Failure =>
          CloseAllMediaTransmitAndReceive(e);
          hangingUp := true;
      }
      arx := result;
    }

    method HandleStartMediaTransmissionAck(status: Status, e: Env)
      modifies this
      ensures View() == AckAudioTx(old(View()), status, e)
    {
      if !atx.progress { return; }
      var result := ERROR;
      match status {
        case Ok =>
          if !audio {
            hangingUp := true;
            result := INACTIVE;
          } else {
            if !(hangingUp || !e.owner || e.terminating) { atx := Or(atx, ACTIVE); }
            result := ACTIVE;
          }
        case DeviceOnHook => CloseAllMediaTransmitAndReceive(e);
        case Failure =>
          CloseAllMediaTransmitAndReceive(e);
          hangingUp := true;
      }
      atx := result;
    }

    method CloseFailedVideo(status: Status, e: Env)
      modifies this
      ensures View() == FailVideo(old(View()), status, e)
    {
      CloseMultiMediaReceiveChannel(e);
      StopMultiMediaTransmission(e);
      if status == Failure { hangingUp := true; }
    }

    method HandleOpenMultiMediaReceiveAck(status: Status, e: Env)
      modifies this
      ensures View() == AckVideoRx(old(View()), status, e)
    {
      if !vrx.progress { return; }
      var result := ERROR;
      if status != Ok {
        CloseFailedVideo(status, e);
      } else if !video {
        hangingUp := true;
        result := INACTIVE;
      } else {
        result := ACTIVE;
        if !(hangingUp || !e.owner || e.terminating) {
          vrx := Or(vrx, ACTIVE);
          if e.connected && !vtx.active && mode == Auto { StartMultiMediaTransmission(e); }
        }
      }
      vrx := result;
    }

    method HandleStartMultiMediaTransmissionAck(status: Status, e: Env)
      modifies this
      ensures View() == AckVideoTx(old(View()), status, e)
    {
      if !vtx.progress { return; }
      var result := ERROR;
      if status != Ok {
        CloseFailedVideo(status, e);
      } else if !video {
        hangingUp := true;
        result := INACTIVE;
      } else {
        result := ACTIVE;
        if !(hangingUp || !e.owner || e.terminating) { vtx := Or(vtx, ACTIVE); }
      }
      vtx := result;
    }

    method HandleAck(x: Stream, status: Status, e: Env)
      modifies this
      ensures View() == Ack(old(View()), x, status, e)
    {
      match x
      case AudioRx => HandleOpenReceiveChannelAck(status, e);
      case AudioTx => HandleStartMediaTransmissionAck(status, e);
      case VideoRx => HandleOpenMultiMediaReceiveAck(status, e);
      case VideoTx => HandleStartMultiMediaTransmissionAck(status, e);
    }

    /** Whatever happens to the channel, what its phone was told stays in order. */
    method Handle(ev: Event, e: Env)
      modifies this
      ensures View() == Step(old(View()), ev, e)
      ensures Good(old(View())) ==> Good(View()) && Keeps(old(View()), View())
    {
      hide OpenAudio, ConnectedIndication, Close, UpdateAudio, FinishPunch, OpenVideo, CloseVideo, SetVideoMode;
      hide ReopenVideo, VideoKey, Ack, CloseAll, Good, Keeps;
      ghost var was := View();
      match ev {
        case RequestAudio => OpenReceiveChannel(e);
        case Answering =>
          callback := CompleteAnswer;
          OpenReceiveChannel(e);
        case Connected => IndicateConnected(e);
        case StopAudio => StopMediaTransmission(e);
        case PeerChanged => if atx != INACTIVE { UpdateMediaTransmission(e); }
        case PunchAnswered =>
          var still := FinishHolePunch(e);
        case RequestVideo => OpenMultiMediaReceiveChannel(e);
        case StopVideoRx => CloseMultiMediaReceiveChannel(e);
        case StopVideoTx => StopMultiMediaTransmission(e);
        case ModeChanged(wanted) => ChangeVideoMode(wanted, e);
        case VideoResumed => ResumeVideo(e);
        case VideoKeyPressed => PressVideoKey(e);
        case Acked(x, status) => HandleAck(x, status, e);
        case AllClosed => CloseAllMediaTransmitAndReceive(e);
        case CallEnded => hangingUp := true;
      }
      if Good(was) { StepKeeps(was, ev, e); }
    }
  }
}
