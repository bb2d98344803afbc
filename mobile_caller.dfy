/**
 * The caller's mobile app (agora_mobile_quickstart/App.js): the EMERGENCY
 * button joins the channel as broadcaster, engine callbacks keep three pieces
 * of React state, and the screen is derived from that state on each render.
 *
 * A `CallerApp` object holds the state hooks; each handler and engine
 * callback is a method that updates it in one atomic step (React's deferred
 * `setState` and the interleaving of callbacks are not modelled). Engine
 * calls are recorded as `EngineCall`s; whether a synchronous engine call
 * throws is an input of the handler.
 */
module MobileCaller {
  import opened Options

  type Uid = int

  const ChannelName: string := "emergency-channel"
  /** The uid passed to joinChannel: 0 lets the service assign one. */
  const LocalUid: int := 0

  datatype ClientRole = Broadcaster

  /** What the app asks of the RTC engine. */
  datatype EngineCall =
    | SetClientRole(role: ClientRole)
    | JoinChannel(channel: string, uid: int, role: ClientRole)
    | LeaveChannel

  /** The state the screen is rendered from. */
  datatype AppState = AppState(isInitialized: bool, isJoined: bool, isEmergency: bool, peerIds: seq<Uid>)

  /** The single button of the button group. */
  datatype Button = EmergencyButton | CancelCallButton

  /**
   * What a render shows: the loading screen, or the card with its status
   * text, the alert box (absent, or its text), the spinner in the alert box,
   * and the button.
   */
  datatype Screen =
    | Initializing
    | Card(status: string, alert: Option<string>, spinner: bool, button: Button)

  /** `[...prev, uid]`, the onUserJoined update. */
  function WithPeer(prev: seq<Uid>, uid: Uid): (r: seq<Uid>)
    ensures |r| == |prev| + 1 && r[..|prev|] == prev && r[|prev|] == uid
  {
    prev + [uid]
  }

  /** `prev.filter(id => id !== uid)`, the onUserOffline update. */
  function WithoutPeer(prev: seq<Uid>, uid: Uid): (r: seq<Uid>)
    ensures uid !in r
    ensures forall x :: x != uid ==> multiset(r)[x] == multiset(prev)[x]
    ensures |r| == |prev| - multiset(prev)[uid]
    ensures uid !in prev ==> r == prev
  {
    if prev == [] then []
    else
      assert prev == [prev[0]] + prev[1..];
      (if prev[0] == uid then [] else [prev[0]]) + WithoutPeer(prev[1..], uid)
  }

  /** Filtering keeps the order: it distributes over concatenation. */
  lemma {:induction false} WithoutPeerConcat(a: seq<Uid>, b: seq<Uid>, uid: Uid)
    ensures WithoutPeer(a + b, uid) == WithoutPeer(a, uid) + WithoutPeer(b, uid)
  {
    if a == [] {
      assert a + b == b;
    } else {
      assert (a + b)[0] == a[0];
      assert (a + b)[1..] == a[1..] + b;
      WithoutPeerConcat(a[1..], b, uid);
    }
  }

  /** An entry survives filtering exactly when it is not the removed uid. */
  lemma WithoutPeerMembership(prev: seq<Uid>, uid: Uid, x: Uid)
    ensures x in WithoutPeer(prev, uid) <==> x in prev && x != uid
  {
    var r := WithoutPeer(prev, uid);
    if x != uid {
      assert multiset(r)[x] == multiset(prev)[x];
      assert x in r <==> x in multiset(r);
      assert x in prev <==> x in multiset(prev);
    }
  }

  /** Removing twice is removing once. */
  lemma WithoutPeerIdempotent(prev: seq<Uid>, uid: Uid)
    ensures WithoutPeer(WithoutPeer(prev, uid), uid) == WithoutPeer(prev, uid)
  {
  }

  /** A uid that joins and goes offline leaves no trace; others are unaffected by it. */
  lemma WithoutPeerAfterWithPeer(prev: seq<Uid>, joined: Uid, uid: Uid)
    ensures WithoutPeer(WithPeer(prev, joined), uid) ==
      if joined == uid then WithoutPeer(prev, uid) else WithPeer(WithoutPeer(prev, uid), joined)
  {
    WithoutPeerConcat(prev, [joined], uid);
    assert WithoutPeer([joined], uid) == if joined == uid then [] else [joined] by {
      assert [joined][1..] == [];
    }
  }

  /** The screen App renders from a state. */
  function Render(s: AppState): (v: Screen)
    ensures v.Initializing? <==> !s.isInitialized
    ensures v.Card? ==> (v.status == "Active" <==> s.isJoined) && (v.status == "Standby" <==> !s.isJoined)
    ensures v.Card? ==> (v.alert.Some? <==> s.isEmergency && s.isJoined)
    ensures v.Card? && v.alert.Some? ==>
      (v.alert.value == "Call Connected" <==> |s.peerIds| > 0)
      && (v.alert.value == "Calling caregiver..." <==> |s.peerIds| == 0)
    ensures v.Card? ==> (v.spinner <==> v.alert.Some? && |s.peerIds| == 0)
    ensures v.Card? ==> (v.button == EmergencyButton <==> !s.isJoined)
  {
    if !s.isInitialized then Initializing
    else
      var showAlert := s.isEmergency && s.isJoined;
      Card(
        if s.isJoined then "Active" else "Standby",
        if showAlert then Some(if |s.peerIds| > 0 then "Call Connected" else "Calling caregiver...") else None,
        showAlert && |s.peerIds| == 0,
        if !s.isJoined then EmergencyButton else CancelCallButton)
  }

  class CallerApp {
    var isInitialized: bool
    var isJoined: bool
    var isEmergency: bool
    var peerIds: seq<Uid>
    /** Every engine call made so far, in order. */
    var engineCalls: seq<EngineCall>

    function State(): AppState
      reads this
    {
      AppState(isInitialized, isJoined, isEmergency, peerIds)
    }

    /** The initial values of the `useState` hooks. */
    constructor ()
      ensures !isInitialized && !isJoined && !isEmergency && peerIds == [] && engineCalls == []
    {
      isInitialized, isJoined, isEmergency, peerIds := false, false, false, [];
      engineCalls := [];
    }

    /**
     * setupVoiceSDK: the app becomes initialized when no step of the setup
     * throws. The permission request's result is never read, so it is no
     * input here.
     */
    method SetupVoiceSdk(throws: bool)
      modifies this`isInitialized
      ensures isInitialized == (old(isInitialized) || !throws)
    {
      if !throws {
        isInitialized := true;
      }
    }

    /**
     * triggerEmergency: a no-op once joined. Otherwise it raises the
     * emergency flag, sets the broadcaster role and joins the channel as
     * broadcaster; if either engine call throws, the flag is lowered again
     * (and a throwing role change skips the join).
     */
    method TriggerEmergency(roleThrows: bool, joinThrows: bool)
      modifies this`isEmergency, this`engineCalls
      ensures old(isJoined) ==> unchanged(this)
      ensures !old(isJoined) ==>
        engineCalls == old(engineCalls) + [SetClientRole(Broadcaster)]
          + (if roleThrows then [] else [JoinChannel(ChannelName, LocalUid, Broadcaster)])
      ensures !old(isJoined) ==> (isEmergency <==> !roleThrows && !joinThrows)
    {
      if isJoined {
        return;
      }
      isEmergency := true;
      engineCalls := engineCalls + [SetClientRole(Broadcaster)];
      if roleThrows {
        isEmergency := false;
        return;
      }
      engineCalls := engineCalls + [JoinChannel(ChannelName, LocalUid, Broadcaster)];
      if joinThrows {
        isEmergency := false;
      }
    }

    /** leave: asks the engine to leave; the state changes only when onLeaveChannel fires. */
    method Leave()
      modifies this`engineCalls
      ensures engineCalls == old(engineCalls) + [LeaveChannel]
    {
      engineCalls := engineCalls + [LeaveChannel];
    }

    /** Pressing the button the current render offers. */
    method PressButton(roleThrows: bool, joinThrows: bool)
      requires isInitialized
      modifies this`isEmergency, this`engineCalls
      ensures old(isJoined) ==> isEmergency == old(isEmergency) && engineCalls == old(engineCalls) + [LeaveChannel]
      ensures !old(isJoined) ==>
        engineCalls == old(engineCalls) + [SetClientRole(Broadcaster)]
          + (if roleThrows then [] else [JoinChannel(ChannelName, LocalUid, Broadcaster)])
      ensures !old(isJoined) ==> (isEmergency <==> !roleThrows && !joinThrows)
    {
      var screen := Render(State());
      if screen.button == EmergencyButton {
        TriggerEmergency(roleThrows, joinThrows);
      } else {
        Leave();
      }
    }

    /** onJoinChannelSuccess. */
    method OnJoinChannelSuccess()
      modifies this`isJoined
      ensures isJoined
    {
      isJoined := true;
    }

    /** onUserJoined. */
    method OnUserJoined(uid: Uid)
      modifies this`peerIds
      ensures peerIds == WithPeer(old(peerIds), uid)
    {
      peerIds := WithPeer(peerIds, uid);
    }

    /** onUserOffline. */
    method OnUserOffline(uid: Uid)
      modifies this`peerIds
      ensures peerIds == WithoutPeer(old(peerIds), uid)
    {
      peerIds := WithoutPeer(peerIds, uid);
    }

    /** onLeaveChannel: back to not joined, no peers, no emergency, whatever came before. */
    method OnLeaveChannel()
      modifies this`isJoined, this`peerIds, this`isEmergency
      ensures !isJoined && peerIds == [] && !isEmergency
    {
      isJoined := false;
      peerIds := [];
      isEmergency := false;
    }
  }

  /**
   * The join guard reads `isJoined`, which only the join-success callback
   * sets: pressing EMERGENCY twice before that callback joins twice.
   */
  method DoubleTriggerBeforeJoinSuccess() {
    var app := new CallerApp();
    app.SetupVoiceSdk(false);
    app.TriggerEmergency(false, false);
    app.TriggerEmergency(false, false);
    var join := JoinChannel(ChannelName, LocalUid, Broadcaster);
    assert app.engineCalls == [SetClientRole(Broadcaster), join, SetClientRole(Broadcaster), join];
    app.OnJoinChannelSuccess();
    app.TriggerEmergency(false, false);
    assert |app.engineCalls| == 4;
  }

  /**
   * An emergency call: the alert reads "Calling caregiver..." until the
   * caregiver joins, "Call Connected" while they are there, and the whole
   * card returns to standby when the channel is left.
   */
  method EmergencyCall(caregiver: Uid) {
    var app := new CallerApp();
    app.SetupVoiceSdk(false);
    app.PressButton(false, false);
    app.OnJoinChannelSuccess();
    assert Render(app.State()) == Card("Active", Some("Calling caregiver..."), true, CancelCallButton);
    app.OnUserJoined(caregiver);
    assert Render(app.State()) == Card("Active", Some("Call Connected"), false, CancelCallButton);
    app.OnUserOffline(caregiver);
    assert app.peerIds == [];
    app.PressButton(false, false);
    app.OnLeaveChannel();
    assert Render(app.State()) == Card("Standby", None, false, EmergencyButton);
    assert app.engineCalls[|app.engineCalls| - 1] == LeaveChannel;
  }
}
