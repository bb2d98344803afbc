/**
 * The caregiver's web monitor (agora_web_quickstart/src/main.js): it stays
 * silently joined to the channel, rings an alarm when a caller publishes
 * audio, and on "accept" subscribes to the caller, publishes its own
 * microphone and runs a call timer.
 *
 * One `Monitor` object holds the file's module-level variables, and each
 * handler of the file is a method on it. Every call into the RTC SDK is
 * recorded as an `Effect`; whether an awaited SDK call succeeds or throws is
 * an input of the handler that awaits it. The Web Audio objects become
 * on/off flags and an integer frequency; the DOM becomes two visibility flags
 * and the timer text. The browser's registered intervals are counted in
 * ghost fields, and a tick of an interval is a method that may only run while
 * one is registered.
 */
module WebMonitor {
  import opened Options
  import opened TimerDisplay
  import opened AlarmTone

  type Uid = int

  /** The `mediaType` argument of the SDK's "user-published" event. */
  datatype MediaKind = Audio | Video

  /** `Notification.permission`. */
  datatype Permission = Granted | Denied | Default

  const NotificationTitle: string := "EMERGENCY ALERT"
  const NotificationBody: string := "User needs help now! Click to respond."

  /** What the monitor asks of the RTC client and of the browser. */
  datatype Effect =
    | Subscribe(user: Uid)
    | CreateMicrophoneTrack
    | Publish
    | Unpublish
    | Unsubscribe(user: Uid)
    | ShowNotification(title: string, body: string)

  /** The commands acceptCall issues for `user`, up to the first one that throws. */
  function AcceptEffects(user: Uid, subscribeOk: bool, micOk: bool): seq<Effect> {
    [Subscribe(user)] + if subscribeOk then [CreateMicrophoneTrack] + (if micOk then [Publish] else []) else []
  }

  class Monitor {
    /** `remoteUser`: the caller, by uid. */
    var remoteUser: Option<Uid>
    /** `localAudioTrack` is set. */
    var localAudioTrack: bool

    /** `oscillator`, `gainNode` and `window.alarmInterval` are set. */
    var oscillator: bool
    var gainNode: bool
    var alarmInterval: bool
    /** The oscillator's frequency and the interval callback's `isHigh` flag. */
    var frequency: int
    var isHigh: bool
    /** Ticks of the current alarm interval so far. */
    ghost var alarmTicks: nat
    /** Alarm intervals registered with the browser and not yet cleared. */
    ghost var liveAlarmIntervals: nat

    /** `callTimerIntent` is set. */
    var callTimer: bool
    /** Timer intervals registered with the browser and not yet cleared. */
    ghost var liveTimerIntervals: nat
    var seconds: nat
    /** The `.timer` element's text once updateTimerDisplay has written it. */
    var timerText: Option<string>

    /** `incoming-alert` and `active-call` are displayed. */
    var incomingAlertShown: bool
    var activeCallShown: bool

    /** Every SDK command and notification issued so far, in order. */
    var effects: seq<Effect>

    /**
     * The alarm's three handles are set together, exactly one interval is
     * registered while they are, none otherwise, and the tone is the one the
     * ticks so far have produced.
     */
    ghost predicate AlarmValid()
      reads this`alarmInterval, this`oscillator, this`gainNode, this`liveAlarmIntervals,
        this`frequency, this`isHigh, this`alarmTicks
    {
      alarmInterval == oscillator && gainNode == oscillator
      && liveAlarmIntervals == (if alarmInterval then 1 else 0)
      && (oscillator ==> Tone(frequency, isHigh) == AfterTicks(alarmTicks))
    }

    /**
     * Exactly one timer interval is registered while the handle is set, the
     * count is 0 while it is not, and the display shows the count.
     */
    ghost predicate TimerValid()
      reads this`liveTimerIntervals, this`callTimer, this`seconds, this`timerText
    {
      liveTimerIntervals == (if callTimer then 1 else 0)
      && (!callTimer ==> seconds == 0)
      && (timerText.Some? ==> timerText.value == TimerText(seconds))
    }

    /**
     * Between handlers: the alarm only sounds with a known caller and the
     * incoming alert shown, and the call box is shown exactly while the
     * timer runs.
     */
    ghost predicate Valid()
      reads this
    {
      AlarmValid() && TimerValid()
      && (oscillator ==> remoteUser.Some? && incomingAlertShown)
      && (activeCallShown <==> callTimer)
    }

    /** Nothing rings, nothing counts, nothing is shown, no caller, no local track. */
    ghost predicate Quiet()
      reads this
    {
      !oscillator && !gainNode && !alarmInterval && liveAlarmIntervals == 0
      && !callTimer && liveTimerIntervals == 0 && seconds == 0 && timerText == Some(TimerText(0))
      && !incomingAlertShown && !activeCallShown
      && remoteUser == None && !localAudioTrack
    }

    /** The page as loaded: every variable unset, `seconds` 0. */
    constructor ()
      ensures Valid()
      ensures remoteUser == None && !localAudioTrack
      ensures !oscillator && !gainNode && !alarmInterval && liveAlarmIntervals == 0
      ensures !callTimer && liveTimerIntervals == 0 && seconds == 0 && timerText == None
      ensures !incomingAlertShown && !activeCallShown && effects == []
    {
      remoteUser, localAudioTrack := None, false;
      oscillator, gainNode, alarmInterval := false, false, false;
      frequency, isHigh, alarmTicks, liveAlarmIntervals := StartFrequency, true, 0, 0;
      callTimer, liveTimerIntervals, seconds, timerText := false, 0, 0, None;
      incomingAlertShown, activeCallShown := false, false;
      effects := [];
    }

    /** playAlarm: a no-op while an oscillator exists; otherwise one oscillator and one interval. */
    method PlayAlarm()
      requires AlarmValid()
      modifies this`oscillator, this`gainNode, this`alarmInterval, this`liveAlarmIntervals,
        this`frequency, this`isHigh, this`alarmTicks
      ensures AlarmValid() && oscillator
      ensures old(oscillator) ==> unchanged(this)
      ensures !old(oscillator) ==> Tone(frequency, isHigh) == Initial && alarmTicks == 0
      ensures liveAlarmIntervals == 1
    {
      if oscillator {
        return;
      }
      oscillator, gainNode := true, true;
      frequency, isHigh, alarmTicks := StartFrequency, true, 0;
      alarmInterval, liveAlarmIntervals := true, liveAlarmIntervals + 1;
    }

    /** One run of the 400 ms alarm interval's callback. */
    method AlarmTick()
      requires Valid() && liveAlarmIntervals > 0
      modifies this`frequency, this`isHigh, this`alarmTicks
      ensures Valid() && oscillator
      ensures alarmTicks == old(alarmTicks) + 1
      ensures frequency == if alarmTicks % 2 == 1 then LowFrequency else HighFrequency
    {
      if oscillator {
        frequency := if isHigh then LowFrequency else HighFrequency;
        isHigh := !isHigh;
        alarmTicks := alarmTicks + 1;
        AfterTicksParity(alarmTicks);
      }
    }

    /** stopAlarm: clears the interval and drops the oscillator and the gain node; a no-op when stopped. */
    method StopAlarm()
      requires AlarmValid()
      modifies this`oscillator, this`gainNode, this`alarmInterval, this`liveAlarmIntervals
      ensures AlarmValid()
      ensures !oscillator && !gainNode && !alarmInterval && liveAlarmIntervals == 0
      ensures !old(oscillator) ==> unchanged(this)
    {
      if alarmInterval {
        alarmInterval, liveAlarmIntervals := false, liveAlarmIntervals - 1;
      }
      if oscillator {
        oscillator := false;
      }
      if gainNode {
        gainNode := false;
      }
    }

    /** updateTimerDisplay. */
    method UpdateTimerDisplay()
      modifies this`timerText
      ensures timerText == Some(TimerText(seconds))
    {
      timerText := Some(TimerText(seconds));
    }

    /** startTimer: stops any running interval, resets to 0 and registers exactly one interval. */
    method StartTimer()
      requires TimerValid()
      modifies this`callTimer, this`liveTimerIntervals, this`seconds, this`timerText
      ensures TimerValid() && callTimer && liveTimerIntervals == 1
      ensures seconds == 0 && timerText == Some(TimerText(0))
    {
      StopTimer();
      seconds := 0;
      UpdateTimerDisplay();
      callTimer, liveTimerIntervals := true, liveTimerIntervals + 1;
    }

    /** stopTimer: clears the interval if there is one and resets to 0. */
    method StopTimer()
      requires TimerValid()
      modifies this`callTimer, this`liveTimerIntervals, this`seconds, this`timerText
      ensures TimerValid() && !callTimer && liveTimerIntervals == 0
      ensures seconds == 0 && timerText == Some(TimerText(0))
    {
      if callTimer {
        callTimer, liveTimerIntervals := false, liveTimerIntervals - 1;
      }
      seconds := 0;
      UpdateTimerDisplay();
    }

    /** One run of the 1000 ms timer interval's callback. */
    method TimerTick()
      requires Valid() && liveTimerIntervals > 0
      modifies this`seconds, this`timerText
      ensures Valid() && callTimer
      ensures seconds == old(seconds) + 1 && timerText == Some(TimerText(seconds))
    {
      seconds := seconds + 1;
      UpdateTimerDisplay();
    }

    /**
     * handleUserPublished: an audio publish makes `user` the caller (the
     * latest one wins), starts the alarm, raises a notification only when
     * the page is hidden, the API exists and permission is "granted", and
     * shows the incoming alert. Any other publish changes nothing.
     */
    method HandleUserPublished(user: Uid, mediaType: MediaKind, documentHidden: bool,
                               notificationApi: bool, permission: Permission)
      requires Valid()
      modifies this`remoteUser, this`oscillator, this`gainNode, this`alarmInterval,
        this`liveAlarmIntervals, this`frequency, this`isHigh, this`alarmTicks,
        this`effects, this`incomingAlertShown
      ensures Valid()
      ensures mediaType != Audio ==> unchanged(this)
      ensures mediaType == Audio ==> remoteUser == Some(user) && oscillator && incomingAlertShown
      ensures mediaType == Audio ==>
        effects == old(effects) + if documentHidden && notificationApi && permission == Granted
          then [ShowNotification(NotificationTitle, NotificationBody)] else []
      ensures mediaType == Audio && old(oscillator) ==>
        unchanged(this`frequency, this`isHigh, this`alarmTicks, this`liveAlarmIntervals)
      ensures mediaType == Audio && !old(oscillator) ==>
        Tone(frequency, isHigh) == Initial && alarmTicks == 0 && liveAlarmIntervals == 1
    {
      if mediaType == Audio {
        remoteUser := Some(user);
        PlayAlarm();
        if documentHidden && notificationApi && permission == Granted {
          effects := effects + [ShowNotification(NotificationTitle, NotificationBody)];
        }
        incomingAlertShown := true;
      }
    }

    /** handleUserUnpublished: resets the call when the caller stops publishing; other users are ignored. */
    method HandleUserUnpublished(user: Uid)
      requires Valid()
      modifies this`remoteUser, this`localAudioTrack, this`oscillator, this`gainNode,
        this`alarmInterval, this`liveAlarmIntervals, this`callTimer, this`liveTimerIntervals,
        this`seconds, this`timerText, this`incomingAlertShown, this`activeCallShown, this`effects
      ensures Valid()
      ensures old(remoteUser) != Some(user) ==> unchanged(this)
      ensures old(remoteUser) == Some(user) ==>
        Quiet() && effects == old(effects) + if old(localAudioTrack) then [Unpublish] else []
    {
      if remoteUser.Some? && user == remoteUser.value {
        ResetCallState();
      }
    }

    /** handleUserLeft: resets the call when the caller leaves; other users are ignored. */
    method HandleUserLeft(user: Uid)
      requires Valid()
      modifies this`remoteUser, this`localAudioTrack, this`oscillator, this`gainNode,
        this`alarmInterval, this`liveAlarmIntervals, this`callTimer, this`liveTimerIntervals,
        this`seconds, this`timerText, this`incomingAlertShown, this`activeCallShown, this`effects
      ensures Valid()
      ensures old(remoteUser) != Some(user) ==> unchanged(this)
      ensures old(remoteUser) == Some(user) ==>
        Quiet() && effects == old(effects) + if old(localAudioTrack) then [Unpublish] else []
    {
      if remoteUser.Some? && user == remoteUser.value {
        ResetCallState();
      }
    }

    /**
     * acceptCall: always stops the alarm; with no caller it issues nothing.
     * Otherwise it subscribes, creates the microphone track and publishes it,
     * stopping at the first of these that throws; only when all three succeed
     * does it swap the incoming alert for the call box and start the timer.
     */
    method AcceptCall(subscribeOk: bool, micOk: bool, publishOk: bool)
      requires Valid()
      modifies this`localAudioTrack, this`oscillator, this`gainNode, this`alarmInterval,
        this`liveAlarmIntervals, this`callTimer, this`liveTimerIntervals, this`seconds,
        this`timerText, this`incomingAlertShown, this`activeCallShown, this`effects
      ensures Valid()
      ensures !oscillator && !gainNode && !alarmInterval && liveAlarmIntervals == 0
      ensures old(remoteUser).None? ==> effects == old(effects)
      ensures old(remoteUser).Some? ==>
        effects == old(effects) + AcceptEffects(old(remoteUser).value, subscribeOk, micOk)
      ensures localAudioTrack == (old(localAudioTrack) || (old(remoteUser).Some? && subscribeOk && micOk))
      ensures old(remoteUser).Some? && subscribeOk && micOk && publishOk ==>
        !incomingAlertShown && activeCallShown
        && callTimer && liveTimerIntervals == 1 && seconds == 0 && timerText == Some(TimerText(0))
      ensures !(old(remoteUser).Some? && subscribeOk && micOk && publishOk) ==>
        unchanged(this`incomingAlertShown, this`activeCallShown, this`callTimer,
          this`liveTimerIntervals, this`seconds, this`timerText)
    {
      StopAlarm();
      if remoteUser.None? {
        return;
      }
      var user := remoteUser.value;
      effects := effects + [Subscribe(user)];
      if !subscribeOk {
        StopAlarm();
        return;
      }
      effects := effects + [CreateMicrophoneTrack];
      if !micOk {
        StopAlarm();
        return;
      }
      localAudioTrack := true;
      effects := effects + [Publish];
      if !publishOk {
        StopAlarm();
        return;
      }
      incomingAlertShown, activeCallShown := false, true;
      StartTimer();
    }

    /** rejectCall: stops the alarm, hides the alert and forgets the caller; issues no command. */
    method RejectCall()
      requires Valid()
      modifies this`oscillator, this`gainNode, this`alarmInterval, this`liveAlarmIntervals,
        this`incomingAlertShown, this`remoteUser
      ensures Valid()
      ensures !oscillator && !gainNode && !alarmInterval && liveAlarmIntervals == 0
      ensures !incomingAlertShown && remoteUser == None
      ensures effects == old(effects)
    {
      StopAlarm();
      incomingAlertShown := false;
      remoteUser := None;
    }

    /**
     * endCall: releases the local track, unpublishes, unsubscribes from the
     * caller if there is one, then hides the call box and stops the timer.
     * A throwing unpublish or unsubscribe skips everything after it. The
     * caller is kept.
     */
    method EndCall(unpublishOk: bool, unsubscribeOk: bool)
      requires Valid()
      modifies this`localAudioTrack, this`effects, this`activeCallShown,
        this`callTimer, this`liveTimerIntervals, this`seconds, this`timerText
      ensures Valid()
      ensures !localAudioTrack && remoteUser == old(remoteUser)
      ensures effects == old(effects) + [Unpublish] +
        if unpublishOk && remoteUser.Some? then [Unsubscribe(remoteUser.value)] else []
      ensures unpublishOk && (remoteUser.None? || unsubscribeOk) ==>
        !activeCallShown && !callTimer && liveTimerIntervals == 0
        && seconds == 0 && timerText == Some(TimerText(0))
      ensures !(unpublishOk && (remoteUser.None? || unsubscribeOk)) ==>
        unchanged(this`activeCallShown, this`callTimer, this`liveTimerIntervals,
          this`seconds, this`timerText)
    {
      if localAudioTrack {
        localAudioTrack := false;
      }
      effects := effects + [Unpublish];
      if !unpublishOk {
        return;
      }
      if remoteUser.Some? {
        effects := effects + [Unsubscribe(remoteUser.value)];
        if !unsubscribeOk {
          return;
        }
      }
      activeCallShown := false;
      StopTimer();
    }

    /**
     * resetCallState: alarm and timer off, both panels hidden, no caller;
     * a local track is released and unpublished (without waiting).
     */
    method ResetCallState()
      requires Valid()
      modifies this`remoteUser, this`localAudioTrack, this`oscillator, this`gainNode,
        this`alarmInterval, this`liveAlarmIntervals, this`callTimer, this`liveTimerIntervals,
        this`seconds, this`timerText, this`incomingAlertShown, this`activeCallShown, this`effects
      ensures Valid() && Quiet()
      ensures effects == old(effects) + if old(localAudioTrack) then [Unpublish] else []
    {
      StopAlarm();
      StopTimer();
      incomingAlertShown, activeCallShown := false, false;
      remoteUser := None;
      if localAudioTrack {
        localAudioTrack := false;
        effects := effects + [Unpublish];
      }
    }
  }

  /**
   * A caller publishes audio, the alarm switches tone twice, the caregiver
   * accepts, the call runs for a second, and the caller leaves: the monitor
   * is quiet again and unpublished its microphone.
   */
  method AnsweredCall(caller: Uid) {
    var m := new Monitor();
    m.HandleUserPublished(caller, Audio, false, true, Granted);
    assert m.oscillator && m.incomingAlertShown && m.remoteUser == Some(caller) && m.effects == [];
    m.AlarmTick();
    assert m.frequency == LowFrequency;
    m.AlarmTick();
    assert m.frequency == HighFrequency;
    m.AcceptCall(true, true, true);
    assert !m.oscillator && m.activeCallShown && m.callTimer && m.seconds == 0;
    m.TimerTick();
    assert m.seconds == 1;
    m.HandleUserLeft(caller);
    assert m.Quiet();
    assert m.effects == [Subscribe(caller), CreateMicrophoneTrack, Publish, Unpublish];
  }

  /**
   * Hanging up keeps the caller: a later unpublish of that caller still
   * reaches resetCallState, and a throwing unsubscribe leaves the timer running.
   */
  method HangUpKeepsCaller(caller: Uid) {
    var m := new Monitor();
    m.HandleUserPublished(caller, Audio, true, true, Denied);
    m.AcceptCall(true, true, true);
    m.EndCall(true, false);
    assert m.remoteUser == Some(caller) && m.callTimer && m.activeCallShown && !m.localAudioTrack;
    m.HandleUserUnpublished(caller);
    assert m.Quiet();
    assert m.effects == [Subscribe(caller), CreateMicrophoneTrack, Publish, Unpublish, Unsubscribe(caller)];
  }

  /**
   * The latest audio publisher wins, even during a call: a second publisher
   * becomes the caller and rings the alarm again beside the running call.
   */
  method PublishDuringCall(first: Uid, second: Uid) {
    var m := new Monitor();
    m.HandleUserPublished(first, Audio, false, false, Default);
    m.AcceptCall(true, true, true);
    m.HandleUserPublished(second, Video, false, false, Default);
    assert m.remoteUser == Some(first) && !m.oscillator;
    m.HandleUserPublished(second, Audio, false, false, Default);
    assert m.remoteUser == Some(second) && m.oscillator && m.incomingAlertShown;
    assert m.activeCallShown && m.callTimer;
  }
}
