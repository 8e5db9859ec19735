/**
 * The WeChat-style "hold to talk" screen (Shared/Wechat.swift). A drag
 * gesture over the screen is sorted into three zones: the speech band at the
 * bottom, and the cancel and convert halves above it. Pressing into the
 * speech band starts a recording session; releasing the finger stops the
 * session, or cancels it when the finger is released over the cancel half.
 */
module WechatScreen {
  import opened Common

  /** `Wechat.UI.Component`: the zones of the screen. */
  datatype Component = Speech | Cancel | Convert

  /** A pointer location (`CGPoint`); y grows downwards. */
  datatype Point = Point(x: real, y: real)

  /** The size of the tracked surface (`CGSize`). */
  datatype Size = Size(width: real, height: real)

  /** Height of the speech band while speech is the active zone, and otherwise. */
  const ActiveSpeechHeight: real := 94.0
  const InactiveSpeechHeight: real := 78.0

  /** `isSpeechActive`. */
  predicate IsSpeechActive(active: Option<Component>) {
    active == Some(Speech)
  }

  /** `speechHeight`: the band grows while speech is active. */
  function SpeechHeight(active: Option<Component>): real {
    if IsSpeechActive(active) then ActiveSpeechHeight else InactiveSpeechHeight
  }

  /** `component(under:size:)`, evaluated while `active` is the active zone. */
  function ComponentUnder(active: Option<Component>, location: Point, size: Size): Component {
    var speechTop := size.height - SpeechHeight(active);
    if location.y > speechTop then Speech
    else if location.x <= size.width / 2.0 then Cancel
    else Convert
  }

  /** Where a location lies: in the speech band, else in the left or right half. */
  lemma Classification(active: Option<Component>, location: Point, size: Size)
    ensures ComponentUnder(active, location, size) == Speech <==> location.y > size.height - SpeechHeight(active)
    ensures ComponentUnder(active, location, size) == Cancel <==>
              location.y <= size.height - SpeechHeight(active) && location.x <= size.width / 2.0
    ensures ComponentUnder(active, location, size) == Convert <==>
              location.y <= size.height - SpeechHeight(active) && location.x > size.width / 2.0
  {
  }

  /**
   * The band between 94 and 78 units above the bottom edge is speech only
   * while speech is already active.
   */
  lemma Hysteresis(active: Option<Component>, location: Point, size: Size)
    requires size.height - ActiveSpeechHeight < location.y <= size.height - InactiveSpeechHeight
    ensures ComponentUnder(active, location, size) == Speech <==> IsSpeechActive(active)
  {
  }

  /**
   * Activating speech only widens the speech band: a location in the band
   * stays in it, and outside the wider band the active zone does not matter.
   */
  lemma SpeechIsSticky(active: Option<Component>, location: Point, size: Size)
    ensures ComponentUnder(active, location, size) == Speech ==> ComponentUnder(Some(Speech), location, size) == Speech
    ensures location.y <= size.height - ActiveSpeechHeight ==>
              ComponentUnder(active, location, size) == ComponentUnder(Some(Speech), location, size)
  {
  }

  /** A call of one of the closures the gesture holds: `startRecording`, `stopRecording`, `cancelRecording`. */
  datatype Call = StartCall | StopCall | CancelCall

  /** The `@State` of `Wechat.UI`. */
  datatype GestureState = GestureState(activeComponent: Option<Component>, isRecording: bool)

  /** No finger down, nothing recording. */
  const Rest := GestureState(None, false)

  /** A handler's new state and the closures it called, in order. */
  datatype Step = Step(state: GestureState, calls: seq<Call>)

  /** The drag gesture's `onChanged` handler. */
  function OnChanged(s: GestureState, location: Point, size: Size): (r: Step)
    ensures location.y > size.height ==> r == Step(s, [])
    ensures location.y <= size.height ==>
              r.state.activeComponent == Some(ComponentUnder(s.activeComponent, location, size))
    ensures r.calls == [] || r.calls == [StartCall]
    ensures r.calls == [StartCall] <==>
              location.y <= size.height && s.activeComponent == None && ComponentUnder(None, location, size) == Speech
    ensures r.state.isRecording <==> s.isRecording || r.calls == [StartCall]
  {
    if location.y > size.height then Step(s, [])
    else
      var toComponent := ComponentUnder(s.activeComponent, location, size);
      if s.activeComponent == None && toComponent == Speech then
        Step(GestureState(Some(toComponent), true), [StartCall])
      else
        Step(s.(activeComponent := Some(toComponent)), [])
  }

  /** The drag gesture's `onEnded` handler. */
  function OnEnded(s: GestureState, location: Point, size: Size): (r: Step)
    ensures r.state == Rest
    ensures |r.calls| == if s.isRecording then 1 else 0
    ensures CancelCall in r.calls <==> s.isRecording && ComponentUnder(s.activeComponent, location, size) == Cancel
    ensures StopCall in r.calls <==> s.isRecording && ComponentUnder(s.activeComponent, location, size) != Cancel
  {
    var endComponent := ComponentUnder(s.activeComponent, location, size);
    if s.isRecording then
      Step(Rest, if endComponent == Cancel then [CancelCall] else [StopCall])
    else
      Step(Rest, [])
  }

  /** What the gesture recogniser delivers. */
  datatype DragEvent = Changed(location: Point, size: Size) | Ended(location: Point, size: Size)

  function Handle(s: GestureState, e: DragEvent): Step {
    match e
    case Changed(location, size) => OnChanged(s, location, size)
    case Ended(location, size) => OnEnded(s, location, size)
  }

  /** The state after a series of events, with every call made on the way. */
  function Run(s: GestureState, events: seq<DragEvent>): Step
    decreases |events|
  {
    if events == [] then Step(s, [])
    else
      var first := Handle(s, events[0]);
      var rest := Run(first.state, events[1..]);
      Step(rest.state, first.calls + rest.calls)
  }

  /** Only moves, no release. */
  predicate AllChanged(events: seq<DragEvent>) {
    forall i :: 0 <= i < |events| ==> events[i].Changed?
  }

  /** A move that the `onChanged` guard lets through. */
  predicate Counted(e: DragEvent) {
    e.Changed? && e.location.y <= e.size.height
  }

  /** The zone of the first counted move of a gesture, which meets no active zone yet. */
  function FirstCountedZone(moves: seq<DragEvent>): Option<Component> {
    if moves == [] then None
    else if Counted(moves[0]) then Some(ComponentUnder(None, moves[0].location, moves[0].size))
    else FirstCountedZone(moves[1..])
  }

  lemma {:induction false} RunConcat(s: GestureState, a: seq<DragEvent>, b: seq<DragEvent>)
    ensures Run(s, a + b) == Step(Run(Run(s, a).state, b).state, Run(s, a).calls + Run(Run(s, a).state, b).calls)
    decreases |a|
  {
    if a == [] {
      assert a + b == b;
    } else {
      var first := Handle(s, a[0]);
      assert (a + b)[0] == a[0];
      assert (a + b)[1..] == a[1..] + b;
      RunConcat(first.state, a[1..], b);
      var mid := Run(first.state, a[1..]);
      var last := Run(mid.state, b);
      assert first.calls + (mid.calls + last.calls) == (first.calls + mid.calls) + last.calls;
    }
  }

  /** Once a zone is active, moves never start a recording and never clear the zone. */
  lemma {:induction false} MovesWhileActive(s: GestureState, moves: seq<DragEvent>)
    requires AllChanged(moves)
    requires s.activeComponent != None
    ensures Run(s, moves).calls == []
    ensures Run(s, moves).state.isRecording == s.isRecording
    ensures Run(s, moves).state.activeComponent != None
    decreases |moves|
  {
    if moves != [] {
      MovesWhileActive(Handle(s, moves[0]).state, moves[1..]);
    }
  }

  /**
   * From rest, the moves of a gesture start a recording exactly when the
   * first counted move lands in the speech band; later moves into the band
   * start nothing.
   */
  lemma {:induction false} MovesFromRest(moves: seq<DragEvent>)
    requires AllChanged(moves)
    ensures Run(Rest, moves).state.isRecording <==> FirstCountedZone(moves) == Some(Speech)
    ensures Run(Rest, moves).calls == if FirstCountedZone(moves) == Some(Speech) then [StartCall] else []
    ensures Run(Rest, moves).state.activeComponent == None <==> FirstCountedZone(moves) == None
  {
    if moves != [] {
      if Counted(moves[0]) {
        MovesWhileActive(Handle(Rest, moves[0]).state, moves[1..]);
      } else {
        MovesFromRest(moves[1..]);
      }
    }
  }

  /**
   * A whole gesture from rest: either no call at all, or a start followed by
   * exactly one of cancel (released over the cancel half) or stop; and the
   * gesture ends at rest.
   */
  lemma WholeGesture(moves: seq<DragEvent>, location: Point, size: Size)
    requires AllChanged(moves)
    ensures Run(Rest, moves + [Ended(location, size)]).state == Rest
    ensures Run(Rest, moves + [Ended(location, size)]).calls ==
              if FirstCountedZone(moves) != Some(Speech) then []
              else if ComponentUnder(Run(Rest, moves).state.activeComponent, location, size) == Cancel
              then [StartCall, CancelCall]
              else [StartCall, StopCall]
  {
    RunConcat(Rest, moves, [Ended(location, size)]);
    MovesFromRest(moves);
  }

  /**
   * The surface of 300 by 500 units: a gesture that first touches the cancel
   * half and then drags into the speech band never records, so releasing it
   * over the cancel half calls nothing.
   */
  lemma CancelThenSpeechRecordsNothing()
    ensures Run(Rest, [Changed(Point(10.0, 100.0), Size(300.0, 500.0)),
                       Changed(Point(10.0, 490.0), Size(300.0, 500.0)),
                       Ended(Point(10.0, 100.0), Size(300.0, 500.0))]).calls == []
  {
    var moves := [Changed(Point(10.0, 100.0), Size(300.0, 500.0)), Changed(Point(10.0, 490.0), Size(300.0, 500.0))];
    assert FirstCountedZone(moves) == Some(Cancel);
    WholeGesture(moves, Point(10.0, 100.0), Size(300.0, 500.0));
    assert moves + [Ended(Point(10.0, 100.0), Size(300.0, 500.0))] ==
           [Changed(Point(10.0, 100.0), Size(300.0, 500.0)),
            Changed(Point(10.0, 490.0), Size(300.0, 500.0)),
            Ended(Point(10.0, 100.0), Size(300.0, 500.0))];
  }

  /**
   * On the surface of 300 by 500 units the speech band starts below y = 422,
   * or below y = 406 while speech is active: y = 421 is speech only while
   * speech is active, and y = 405 is never speech.
   */
  lemma HysteresisOnTallSurface()
    ensures ComponentUnder(None, Point(10.0, 421.0), Size(300.0, 500.0)) == Cancel
    ensures ComponentUnder(Some(Speech), Point(10.0, 421.0), Size(300.0, 500.0)) == Speech
    ensures ComponentUnder(Some(Speech), Point(10.0, 405.0), Size(300.0, 500.0)) == Cancel
    ensures ComponentUnder(Some(Speech), Point(200.0, 405.0), Size(300.0, 500.0)) == Convert
  {
  }

  /** What `Wechat` tells the library about a session: its start, stop and cancel calls, each with the delegate's callback. */
  datatype SessionCall = SessionStart(id: SessionId) | SessionStop(id: SessionId) | SessionCancel(id: SessionId)

  /** `Wechat.Model`, together with the calls made on sessions so far. */
  datatype ModelState = ModelState(
    recognizedText: string,
    isRecognitionInProgress: bool,
    recordingSession: Option<SessionId>,
    sessionCalls: seq<SessionCall>)

  /** `Wechat.startRecording`, where the library made the session `session`. */
  function Started(m: ModelState, session: SessionId): ModelState {
    m.(recordingSession := Some(session), isRecognitionInProgress := true,
       sessionCalls := m.sessionCalls + [SessionStart(session)])
  }

  /** `Wechat.stopRecording`. */
  function Stopped(m: ModelState): ModelState {
    match m.recordingSession
    case None => m
    case Some(id) => m.(sessionCalls := m.sessionCalls + [SessionStop(id)])
  }

  /** `Wechat.cancelRecording`. */
  function Cancelled(m: ModelState): ModelState {
    match m.recordingSession
    case None => m
    case Some(id) => m.(recognizedText := "", sessionCalls := m.sessionCalls + [SessionCancel(id)])
  }

  /** The effect of one closure call on the model. */
  function Perform(m: ModelState, call: Call, session: SessionId): ModelState {
    match call
    case StartCall => Started(m, session)
    case StopCall => Stopped(m)
    case CancelCall => Cancelled(m)
  }

  function PerformAll(m: ModelState, calls: seq<Call>, session: SessionId): ModelState
    decreases |calls|
  {
    if calls == [] then m else PerformAll(Perform(m, calls[0], session), calls[1..], session)
  }

  /** Without a session, stopping and cancelling do nothing; cancelling a session clears the text. */
  lemma StopAndCancelGuarded(m: ModelState)
    ensures m.recordingSession == None ==> Stopped(m) == m && Cancelled(m) == m
    ensures m.recordingSession != None ==>
              && Cancelled(m).recognizedText == ""
              && Cancelled(m).sessionCalls == m.sessionCalls + [SessionCancel(m.recordingSession.value)]
              && Stopped(m).sessionCalls == m.sessionCalls + [SessionStop(m.recordingSession.value)]
  {
  }

  /**
   * A whole gesture from rest, seen from the model: the model is untouched,
   * or the session started by the gesture is the one stopped or cancelled at
   * its end, and a cancel clears the recognised text.
   */
  lemma WholeGestureOnModel(m: ModelState, moves: seq<DragEvent>, location: Point, size: Size, session: SessionId)
    requires AllChanged(moves)
    ensures var m' := PerformAll(m, Run(Rest, moves + [Ended(location, size)]).calls, session);
            var cancelled := ComponentUnder(Run(Rest, moves).state.activeComponent, location, size) == Cancel;
            && (FirstCountedZone(moves) != Some(Speech) ==> m' == m)
            && (FirstCountedZone(moves) == Some(Speech) ==>
                  && m'.recordingSession == Some(session)
                  && m'.isRecognitionInProgress
                  && m'.sessionCalls == m.sessionCalls + [SessionStart(session),
                                                          if cancelled then SessionCancel(session) else SessionStop(session)]
                  && m'.recognizedText == if cancelled then "" else m.recognizedText)
  {
    WholeGesture(moves, location, size);
    var calls := Run(Rest, moves + [Ended(location, size)]).calls;
    if calls != [] {
      var m1 := Started(m, session);
      var last := calls[1];
      assert calls[1..] == [last] && calls[1..][1..] == [];
      var m2 := Perform(m1, last, session);
      assert calls[0] == StartCall;
      assert PerformAll(m, calls, session) == PerformAll(m1, [last], session);
      assert PerformAll(m1, [last], session) == PerformAll(m2, [], session);
      if last == CancelCall {
        assert m2 == Cancelled(m1);
      } else {
        assert m2 == Stopped(m1);
      }
    }
  }

  /** `Wechat`: the model fields and the three recording functions the UI calls. */
  class Wechat {
    var recognizedText: string
    var isRecognitionInProgress: bool
    var recordingSession: Option<SessionId>
    ghost var sessionCalls: seq<SessionCall>

    ghost function State(): ModelState
      reads this
    {
      ModelState(recognizedText, isRecognitionInProgress, recordingSession, sessionCalls)
    }

    constructor()
      ensures State() == ModelState("", false, None, [])
    {
      recognizedText := "";
      isRecognitionInProgress := false;
      recordingSession := None;
      sessionCalls := [];
    }

    /** `startRecording`; `session` is the session the library creates for it. */
    method StartRecording(session: SessionId)
      modifies this
      ensures State() == Started(old(State()), session)
    {
      recordingSession := Some(session);
      isRecognitionInProgress := true;
      sessionCalls := sessionCalls + [SessionStart(session)];
    }

    /** `stopRecording`, guarded by the optional session. */
    method StopRecording()
      modifies this
      ensures State() == Stopped(old(State()))
    {
      if recordingSession == None {
        return;
      }
      var session := recordingSession.value;
      sessionCalls := sessionCalls + [SessionStop(session)];
    }

    /** `cancelRecording`, guarded by the optional session. */
    method CancelRecording()
      modifies this
      ensures State() == Cancelled(old(State()))
    {
      if recordingSession == None {
        return;
      }
      var session := recordingSession.value;
      recognizedText := "";
      sessionCalls := sessionCalls + [SessionCancel(session)];
    }

    /** The string publisher's sink receiving a recognised text. */
    method ReceiveText(text: string)
      modifies this
      ensures State() == old(State()).(recognizedText := text)
    {
      recognizedText := text;
    }

    /** The string publisher's sink receiving its completion. */
    method ReceiveCompletion()
      modifies this
      ensures State() == old(State()).(isRecognitionInProgress := false)
    {
      isRecognitionInProgress := false;
    }
  }

  /** `Wechat.UI`: the gesture state, and the `Wechat` whose functions it calls. */
  class UI {
    var activeComponent: Option<Component>
    var isRecording: bool
    const wechat: Wechat
    ghost var calls: seq<Call>

    ghost function Gesture(): GestureState
      reads this
    {
      GestureState(activeComponent, isRecording)
    }

    /** A recording under way has an active zone and a session to stop or cancel. */
    ghost predicate Valid()
      reads this, wechat
    {
      isRecording ==> activeComponent != None && wechat.recordingSession != None
    }

    constructor(wechat: Wechat)
      ensures this.wechat == wechat && Gesture() == Rest && calls == [] && Valid()
    {
      this.wechat := wechat;
      activeComponent := None;
      isRecording := false;
      calls := [];
    }

    /** The `onChanged` handler; `session` is the session a start would create. */
    method DragChanged(location: Point, size: Size, session: SessionId)
      requires Valid()
      modifies this, wechat
      ensures Valid()
      ensures Gesture() == OnChanged(old(Gesture()), location, size).state
      ensures calls == old(calls) + OnChanged(old(Gesture()), location, size).calls
      ensures wechat.State() == PerformAll(old(wechat.State()), OnChanged(old(Gesture()), location, size).calls, session)
    {
      if location.y > size.height {
        return;
      }
      var fromComponent := activeComponent;
      var toComponent := ComponentUnder(activeComponent, location, size);
      if fromComponent == None && toComponent == Speech {
        isRecording := true;
        wechat.StartRecording(session);
        calls := calls + [StartCall];
      }
      activeComponent := Some(toComponent);
    }

    /** The `onEnded` handler. */
    method DragEnded(location: Point, size: Size)
      requires Valid()
      modifies this, wechat
      ensures Valid()
      ensures Gesture() == Rest
      ensures calls == old(calls) + OnEnded(old(Gesture()), location, size).calls
      ensures wechat.State() ==
                if !old(isRecording) then old(wechat.State())
                else if ComponentUnder(old(activeComponent), location, size) == Cancel then Cancelled(old(wechat.State()))
                else Stopped(old(wechat.State()))
      ensures old(isRecording) ==>
                && |wechat.sessionCalls| == |old(wechat.sessionCalls)| + 1
                && wechat.sessionCalls[|wechat.sessionCalls| - 1].id == old(wechat.recordingSession).value
      ensures !old(isRecording) ==> wechat.sessionCalls == old(wechat.sessionCalls)
    {
      var endComponent := ComponentUnder(activeComponent, location, size);
      if isRecording {
        if endComponent == Cancel {
          wechat.CancelRecording();
          calls := calls + [CancelCall];
        } else {
          wechat.StopRecording();
          calls := calls + [StopCall];
        }
        isRecording := false;
      }
      activeComponent := None;
    }
  }
}
