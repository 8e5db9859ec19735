/**
 * The "List" screen (Shared/Medium/List.swift): every recording session gets
 * a row holding its transcript, which later recognition results overwrite,
 * and a failed or cancelled session loses its row.
 */
module ListScreen {
  import opened Common

  /** One row of `ViewModel.list`: a session and its transcript so far. */
  datatype Entry = Entry(id: SessionId, text: string)

  /** What the screen uses of a `SwiftSpeech.Session`: its id and whether it offers a result publisher. */
  datatype Session = Session(id: SessionId, hasResultPublisher: bool)

  /** One value delivered by a session's result publisher: a recognition result or an error. */
  datatype RecognitionResult = Recognized(transcription: string, isFinal: bool) | Failed

  /** The `map` closure: the text a result shows, or nothing for an error. */
  function DisplayText(result: RecognitionResult): (s: Option<string>)
    ensures s.None? <==> result.Failed?
    ensures result.Recognized? && result.isFinal ==> s == Some(result.transcription)
    ensures result.Recognized? && !result.isFinal ==> s == Some(result.transcription + " ...")
  {
    match result
    case Failed => None
    case Recognized(transcription, isFinal) =>
      Some(if isFinal then transcription else transcription + " ...")
  }

  /** Some row of `list` belongs to session `id`. */
  predicate HasSession(list: seq<Entry>, id: SessionId) {
    exists j :: 0 <= j < |list| && list[j].id == id
  }

  /** No two rows belong to the same session. */
  predicate UniqueIds(list: seq<Entry>) {
    forall i, j :: 0 <= i < j < |list| ==> list[i].id != list[j].id
  }

  /** `list.firstIndex(where: { pair in pair.id == id })`. */
  function FirstIndexOf(list: seq<Entry>, id: SessionId): (r: Option<nat>)
    ensures r.Some? ==> r.value < |list| && list[r.value].id == id
                        && forall j :: 0 <= j < r.value ==> list[j].id != id
    ensures r.None? <==> !HasSession(list, id)
  {
    if list == [] then None
    else if list[0].id == id then Some(0)
    else
      match FirstIndexOf(list[1..], id)
      case None => None
      case Some(k) => Some(k + 1)
  }

  /** The list after the first row of session `id` gets the text `text`. */
  function WithText(list: seq<Entry>, id: SessionId, text: string): (r: seq<Entry>)
    ensures |r| == |list|
    ensures forall j :: 0 <= j < |r| ==> r[j].id == list[j].id
  {
    if list == [] then []
    else if list[0].id == id then [list[0].(text := text)] + list[1..]
    else [list[0]] + WithText(list[1..], id, text)
  }

  /** The list after the first row of session `id` is removed. */
  function Without(list: seq<Entry>, id: SessionId): (r: seq<Entry>)
    ensures |r| == if HasSession(list, id) then |list| - 1 else |list|
  {
    if list == [] then []
    else if list[0].id == id then list[1..]
    else [list[0]] + Without(list[1..], id)
  }

  /** The effect of one result of session `id` arriving at the sink. */
  function AfterResult(list: seq<Entry>, id: SessionId, result: RecognitionResult): seq<Entry> {
    match DisplayText(result)
    case Some(text) => WithText(list, id, text)
    case None => Without(list, id)
  }

  /** Setting the text changes exactly the first row of the session, and only its text. */
  lemma {:induction false} WithTextAt(list: seq<Entry>, id: SessionId, text: string)
    ensures FirstIndexOf(list, id).None? ==> WithText(list, id, text) == list
    ensures FirstIndexOf(list, id).Some? ==>
              var i := FirstIndexOf(list, id).value;
              WithText(list, id, text) == list[i := Entry(id, text)]
  {
    if list != [] && list[0].id != id {
      WithTextAt(list[1..], id, text);
    }
  }

  /** Removing takes out exactly the first row of the session and keeps the others in order. */
  lemma {:induction false} WithoutAt(list: seq<Entry>, id: SessionId)
    ensures FirstIndexOf(list, id).None? ==> Without(list, id) == list
    ensures FirstIndexOf(list, id).Some? ==>
              var i := FirstIndexOf(list, id).value;
              Without(list, id) == list[..i] + list[i + 1..]
  {
    if list != [] && list[0].id != id {
      WithoutAt(list[1..], id);
      assert list == [list[0]] + list[1..];
    }
  }

  /** A result for a session without a row leaves the list as it is. */
  lemma AbsentSessionIgnored(list: seq<Entry>, id: SessionId, result: RecognitionResult)
    requires !HasSession(list, id)
    ensures AfterResult(list, id, result) == list
  {
    match DisplayText(result)
    case Some(text) => WithTextAt(list, id, text);
    case None => WithoutAt(list, id);
  }

  /** Cancelling a session just started takes its row out again: the list is as before the start. */
  lemma {:induction false} StartThenRemove(list: seq<Entry>, id: SessionId)
    requires !HasSession(list, id)
    ensures Without(list + [Entry(id, "")], id) == list
  {
    if list != [] {
      assert (list + [Entry(id, "")])[1..] == list[1..] + [Entry(id, "")];
      StartThenRemove(list[1..], id);
    }
  }

  /** A recognised text for a session just started lands in its row, at the end of the list. */
  lemma {:induction false} StartThenText(list: seq<Entry>, id: SessionId, text: string)
    requires !HasSession(list, id)
    ensures WithText(list + [Entry(id, "")], id, text) == list + [Entry(id, text)]
  {
    if list != [] {
      assert (list + [Entry(id, "")])[1..] == list[1..] + [Entry(id, "")];
      StartThenText(list[1..], id, text);
    }
  }

  /** The first result of a fresh session either fills its new row or, for an error, removes it. */
  lemma StartThenResult(list: seq<Entry>, id: SessionId, result: RecognitionResult)
    requires !HasSession(list, id)
    ensures AfterResult(list + [Entry(id, "")], id, result) ==
              match DisplayText(result)
              case Some(text) => list + [Entry(id, text)]
              case None => list
  {
    match DisplayText(result)
    case Some(text) => StartThenText(list, id, text);
    case None => StartThenRemove(list, id);
  }

  /** With one row per session, removing a session's row leaves no row of it and keeps the rows unique. */
  lemma WithoutKeepsUnique(list: seq<Entry>, id: SessionId)
    requires UniqueIds(list)
    ensures UniqueIds(Without(list, id))
    ensures !HasSession(Without(list, id), id)
    ensures forall k :: HasSession(Without(list, id), k) <==> k != id && HasSession(list, k)
  {
    WithoutAt(list, id);
    var r := Without(list, id);
    if FirstIndexOf(list, id).Some? {
      var i := FirstIndexOf(list, id).value;
      assert forall j :: 0 <= j < |r| ==> r[j] == list[if j < i then j else j + 1];
      forall k | k != id && HasSession(list, k) ensures HasSession(r, k) {
        var j :| 0 <= j < |list| && list[j].id == k;
        assert r[if j < i then j else j - 1].id == k;
      }
    }
  }

  /** Setting a text keeps every row's session, so it keeps the rows unique. */
  lemma WithTextKeepsUnique(list: seq<Entry>, id: SessionId, text: string)
    requires UniqueIds(list)
    ensures UniqueIds(WithText(list, id, text))
  {
  }

  /** Appending the row of a session keeps the rows unique exactly when the session had no row yet. */
  lemma AppendKeepsUnique(list: seq<Entry>, id: SessionId)
    requires UniqueIds(list)
    ensures UniqueIds(list + [Entry(id, "")]) <==> !HasSession(list, id)
  {
    var appended := list + [Entry(id, "")];
    if HasSession(list, id) {
      var j :| 0 <= j < |list| && list[j].id == id;
      assert appended[j].id == appended[|list|].id;
    }
  }

  lemma {:induction false} TextsCommute(list: seq<Entry>, a: SessionId, ta: string, b: SessionId, tb: string)
    requires a != b
    ensures WithText(WithText(list, a, ta), b, tb) == WithText(WithText(list, b, tb), a, ta)
  {
    if list != [] {
      TextsCommute(list[1..], a, ta, b, tb);
    }
  }

  lemma {:induction false} TextAndRemovalCommute(list: seq<Entry>, a: SessionId, ta: string, b: SessionId)
    requires a != b
    ensures WithText(Without(list, b), a, ta) == Without(WithText(list, a, ta), b)
  {
    if list != [] {
      TextAndRemovalCommute(list[1..], a, ta, b);
    }
  }

  lemma {:induction false} RemovalsCommute(list: seq<Entry>, a: SessionId, b: SessionId)
    requires a != b
    ensures Without(Without(list, a), b) == Without(Without(list, b), a)
  {
    if list != [] {
      RemovalsCommute(list[1..], a, b);
    }
  }

  /** Results of two different sessions lead to the same list in either order of arrival. */
  lemma ResultsCommute(list: seq<Entry>, a: SessionId, ra: RecognitionResult, b: SessionId, rb: RecognitionResult)
    requires a != b
    ensures AfterResult(AfterResult(list, a, ra), b, rb) == AfterResult(AfterResult(list, b, rb), a, ra)
  {
    match (DisplayText(ra), DisplayText(rb))
    case (Some(ta), Some(tb)) => TextsCommute(list, a, ta, b, tb);
    case (Some(ta), None) => TextAndRemovalCommute(list, a, ta, b);
    case (None, Some(tb)) => TextAndRemovalCommute(list, b, tb, a);
    case (None, None) => RemovalsCommute(list, a, b);
  }

  /** `List.ViewModel`: the rows shown by the screen, changed in place as sessions report. */
  class ViewModel {
    var list: seq<Entry>

    constructor()
      ensures list == []
    {
      list := [];
    }

    /** A linear search for the first row of session `id`. */
    method FirstIndex(id: SessionId) returns (index: Option<nat>)
      ensures index == FirstIndexOf(list, id)
    {
      var i := 0;
      while i < |list|
        invariant 0 <= i <= |list|
        invariant forall j :: 0 <= j < i ==> list[j].id != id
      {
        if list[i].id == id {
          return Some(i);
        }
        i := i + 1;
      }
      return None;
    }

    /** `recordingDidStart(session:)`: a session with a result publisher gets an empty row at the end. */
    method RecordingDidStart(session: Session)
      modifies this
      ensures list == if session.hasResultPublisher then old(list) + [Entry(session.id, "")] else old(list)
    {
      if !session.hasResultPublisher {
        return;
      }
      list := list + [Entry(session.id, "")];
    }

    /** The sink of session `id`'s publisher receiving `result`. */
    method ReceiveResult(id: SessionId, result: RecognitionResult)
      modifies this
      ensures list == AfterResult(old(list), id, result)
    {
      var text := DisplayText(result);
      var index := FirstIndex(id);
      match index {
        case None =>
          AbsentSessionIgnored(list, id, result);
        case Some(i) =>
          match text {
            case Some(t) =>
              WithTextAt(list, id, t);
              list := list[i := list[i].(text := t)];
            case None =>
              WithoutAt(list, id);
              list := list[..i] + list[i + 1..];
          }
      }
    }

    /** `recordingDidCancel(session:)`: the session's first row is removed, if it has one. */
    method RecordingDidCancel(session: Session)
      modifies this
      ensures list == Without(old(list), session.id)
    {
      WithoutAt(list, session.id);
      var index := FirstIndex(session.id);
      match index {
        case None =>
        case Some(i) =>
          list := list[..i] + list[i + 1..];
      }
    }
  }
}
