/**
 * The three kinds of social token, and the callbacks a view can call.
 */
module Kinds {

  /** The pattern kinds, in the fixed order in which the colorize pass applies them. */
  datatype Kind = Hashtag | Mention | Hyperlink

  /** The identity of a registered Kotlin lambda; what it does is not modelled. */
  type Callback = nat

  /** One call of a user callback, recorded in the view's log instead of being run. */
  datatype Invocation =
    | WatcherCall(kind: Kind, callback: Callback, text: string)  // a text-changed watcher
    | ClickCall(kind: Kind, callback: Callback, text: string)    // a click listener, from a clickable span
}
