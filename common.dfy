/** Helpers shared by the screens: Swift's `Optional`, and the identity of a recognition session. */
module Common {

  datatype Option<T> = None | Some(value: T)

  /** The identity of a `SwiftSpeech.Session` (`SpeechRecognizer.ID`), made by the recognition library. */
  type SessionId = nat
}
