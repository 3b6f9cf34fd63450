/**
 * The error handlers of the top-level script: the startup handler that
 * detects another window manager, and the standing handler that classifies
 * every asynchronously reported protocol error as ignorable or reports it
 * and delegates to the handler that was installed before.
 */
module ErrorHandling {
  import opened Wrappers

  /** `error_code` and `request_code` are unsigned chars widened to `Int32`. */
  type Byte = x: int | 0 <= x < 0x100

  // Error codes (X.h)
  const BAD_WINDOW: Byte := 3
  const BAD_MATCH: Byte := 8
  const BAD_DRAWABLE: Byte := 9
  const BAD_ACCESS: Byte := 10

  // Major request codes (Xproto.h)
  const X_CONFIGURE_WINDOW: Byte := 12
  const X_GRAB_BUTTON: Byte := 28
  const X_GRAB_KEY: Byte := 33
  const X_SET_INPUT_FOCUS: Byte := 42
  const X_COPY_AREA: Byte := 62
  const X_POLY_SEGMENT: Byte := 66
  const X_POLY_FILL_RECTANGLE: Byte := 70
  const X_POLY_TEXT8: Byte := 74

  datatype XErrorEvent = XErrorEvent(errorCode: Byte, requestCode: Byte)

  datatype Disposition = Ignore | Report

  /** The (error code, request code) patterns of the second `case` of the switch, in source order. */
  const IGNORED_CASES: seq<(Byte, Byte)> := [
    (BAD_MATCH, X_SET_INPUT_FOCUS),
    (BAD_DRAWABLE, X_POLY_TEXT8),
    (BAD_DRAWABLE, X_POLY_FILL_RECTANGLE),
    (BAD_DRAWABLE, X_POLY_SEGMENT),
    (BAD_MATCH, X_CONFIGURE_WINDOW),
    (BAD_ACCESS, X_GRAB_BUTTON),
    (BAD_ACCESS, X_GRAB_KEY),
    (BAD_DRAWABLE, X_COPY_AREA)
  ]

  /**
   * The ignorable errors grouped by error code: for each error code, the
   * request codes whose failure with that code is a harmless race with a
   * window that is already gone.  BadWindow is ignorable for every request.
   */
  predicate Ignorable(errorCode: Byte, requestCode: Byte) {
    if errorCode == BAD_WINDOW then true
    else if errorCode == BAD_MATCH then requestCode in {X_SET_INPUT_FOCUS, X_CONFIGURE_WINDOW}
    else if errorCode == BAD_DRAWABLE then requestCode in {X_POLY_TEXT8, X_POLY_FILL_RECTANGLE, X_POLY_SEGMENT, X_COPY_AREA}
    else if errorCode == BAD_ACCESS then requestCode in {X_GRAB_BUTTON, X_GRAB_KEY}
    else false
  }

  /** The `switch` on the pair: BadWindow with any request, then the listed pairs, else report. */
  function Classify(errorCode: Byte, requestCode: Byte): (d: Disposition)
    ensures d == Ignore <==> Ignorable(errorCode, requestCode)
  {
    if errorCode == BAD_WINDOW then Ignore
    else if (errorCode, requestCode) in IGNORED_CASES then Ignore
    else Report
  }

  /** What one call of the handler does: its return value, what it logged, and the calls it made to the fallback. */
  datatype HandlerCall = HandlerCall(result: int, logged: seq<XErrorEvent>, delegated: seq<Option<XErrorEvent>>)

  /**
   * The standing handler, called with the error event (None for a nil
   * pointer) and the previously installed handler.  An ignorable error
   * returns 0 and goes no further; any other error is logged once and handed
   * once to the fallback, whose result is returned; a nil event is handed to
   * the fallback without being classified or logged.
   */
  function HandleError(event: Option<XErrorEvent>, fallback: Option<XErrorEvent> -> int): (h: HandlerCall)
    ensures event.Some? && Ignorable(event.value.errorCode, event.value.requestCode) ==>
      h == HandlerCall(0, [], [])
    ensures event.Some? && !Ignorable(event.value.errorCode, event.value.requestCode) ==>
      h == HandlerCall(fallback(event), [event.value], [event])
    ensures event.None? ==> h == HandlerCall(fallback(event), [], [event])
  {
    if event.Some? && Classify(event.value.errorCode, event.value.requestCode) == Ignore then
      HandlerCall(0, [], [])
    else
      var logged := if event.Some? then [event.value] else [];
      HandlerCall(fallback(event), logged, [event])
  }

  /** Every call either returns 0 without delegating or delegates exactly once and returns the fallback's result. */
  lemma HandleErrorIsTotal(event: Option<XErrorEvent>, fallback: Option<XErrorEvent> -> int)
    ensures var h := HandleError(event, fallback);
      (h.result == 0 && h.delegated == [] && h.logged == []) ||
      (h.delegated == [event] && h.result == fallback(event) && |h.logged| <= 1)
  {
  }

  /** A BadWindow error is ignored whatever the request, and never reaches the fallback. */
  lemma BadWindowNeverDelegated(requestCode: Byte, fallback: Option<XErrorEvent> -> int)
    ensures HandleError(Some(XErrorEvent(BAD_WINDOW, requestCode)), fallback) == HandlerCall(0, [], [])
  {
  }

  /**
   * Apart from BadWindow, the table grouped by error code and the switch's
   * own list of eight distinct cases ignore the same pairs.
   */
  lemma {:induction false} IgnoredPairsAreTheListedOnes(errorCode: Byte, requestCode: Byte)
    requires errorCode != BAD_WINDOW
    ensures Ignorable(errorCode, requestCode) <==> (errorCode, requestCode) in IGNORED_CASES
    ensures |IGNORED_CASES| == 8
    ensures forall i, j :: 0 <= i < j < |IGNORED_CASES| ==> IGNORED_CASES[i] != IGNORED_CASES[j]
  {
  }

  /** Whether the build defines DEBUG. */
  datatype BuildMode = Debug | Release

  datatype StartupOutcome = Returned(result: int) | Fatal(message: string)

  /**
   * The startup handler: called when another client already redirects the
   * root window's substructure.  A debug build warns and returns 0; any other
   * build stops the process.
   */
  function AnotherWmCheck(mode: BuildMode): (o: StartupOutcome)
    ensures o.Returned? <==> mode == Debug
    ensures o.Returned? ==> o.result == 0
  {
    match mode
    case Debug => Returned(0)
    case Release => Fatal("swm: another window manager is already running!")
  }

  /** The handlers that can be installed. */
  datatype Handler = XlibDefault | AnotherWm | Classifier(fallback: Handler)

  /** `XSetErrorHandler`: installs `h` and returns the handler it replaces. */
  function SetErrorHandler(current: Handler, h: Handler): (Handler, Handler) {
    (h, current)
  }

  /**
   * The two installations of the script: the startup handler, whose return
   * value (the handler it replaced) is kept as `defaultXErrorHandler`, and
   * then the classifier, closed over that value.  The classifier therefore
   * falls back to the handler installed before the startup handler, never
   * to the startup handler itself.
   */
  function InstallHandlers(initial: Handler): (active: Handler)
    ensures active.Classifier? && active.fallback == initial
    ensures initial != AnotherWm ==> active.fallback != AnotherWm
  {
    var (afterStartup, defaultHandler) := SetErrorHandler(initial, AnotherWm);
    var (afterClassifier, _) := SetErrorHandler(afterStartup, Classifier(defaultHandler));
    afterClassifier
  }

  /** In the process as started, the classifier's fallback is Xlib's own default handler. */
  lemma ClassifierFallsBackToXlibDefault()
    ensures InstallHandlers(XlibDefault) == Classifier(XlibDefault)
  {
  }
}
