/** The single-slot notification banner (the `errorContainer` element) and
    the two writers `showSuccess` and `showError` with their auto-hide
    timer callbacks, as transitions on a banner value. */
module Notifications {
  import opened Wrappers

  /** The bold prefix the banner's markup carries: "Success:" or "Error:". */
  datatype Kind = Success | Error

  /** What the banner says: its kind and the message after the prefix. */
  datatype Notice = Notice(kind: Kind, message: string)

  /** The banner's observable state: its inline `display` and `background`
      styles, its content, and how many auto-hide callbacks of each writer
      are scheduled and have not yet run. */
  datatype Banner = Banner(
    display: string,
    background: string,
    content: Option<Notice>,
    pendingSuccessTimers: nat,
    pendingErrorTimers: nat)

  const Block: string := "block"
  const Hidden: string := "none"
  /** The background `showSuccess` paints. */
  const Green: string := "rgba(46, 204, 113, 0.9)"
  /** The background the success timer restores. */
  const Red: string := "rgba(231, 76, 60, 0.9)"

  /** A banner no writer has touched: no inline styles, nothing scheduled. */
  const Untouched: Banner := Banner("", "", None, 0, 0)

  /** `showSuccess(message)`. When the container handle is missing, the
      first style write throws, the writer's own handler swallows it and
      nothing changes (no timer is scheduled either). */
  function ShowSuccess(b: Banner, containerPresent: bool, message: string): Banner
  {
    if !containerPresent then b
    else b.(display := Block, background := Green,
            content := Some(Notice(Success, message)),
            pendingSuccessTimers := b.pendingSuccessTimers + 1)
  }

  /** `showError(message)`: like `showSuccess`, but the background is
      never written. */
  function ShowError(b: Banner, containerPresent: bool, message: string): Banner
  {
    if !containerPresent then b
    else b.(display := Block,
            content := Some(Notice(Error, message)),
            pendingErrorTimers := b.pendingErrorTimers + 1)
  }

  /** The callback `showSuccess` schedules: hide the banner and restore the
      red background. The content is left in place. */
  function SuccessTimerFires(b: Banner): Banner
    requires b.pendingSuccessTimers > 0
  {
    b.(display := Hidden, background := Red,
       pendingSuccessTimers := b.pendingSuccessTimers - 1)
  }

  /** The callback `showError` schedules: hide the banner, nothing else. */
  function ErrorTimerFires(b: Banner): Banner
    requires b.pendingErrorTimers > 0
  {
    b.(display := Hidden, pendingErrorTimers := b.pendingErrorTimers - 1)
  }

  /** Both writers are inert when the container handle is missing. */
  lemma MissingContainerChangesNothing(b: Banner, message: string)
    ensures ShowSuccess(b, false, message) == b
    ensures ShowError(b, false, message) == b
  {
  }

  /** The banner holds one notice: the newest write replaces whatever was
      shown, and shows the banner. */
  lemma NewestReplacesOldest(b: Banner, k: Kind, message: string)
    ensures var r := if k == Success then ShowSuccess(b, true, message)
                     else ShowError(b, true, message);
      r.display == Block && r.content == Some(Notice(k, message))
  {
  }

  /** A success shows the banner on green; followed by its own timer it
      leaves the banner hidden on the red background, with the timer count back where it was. */
  lemma SuccessThenItsTimer(b: Banner, message: string)
    ensures ShowSuccess(b, true, message).display == Block
    ensures ShowSuccess(b, true, message).background == Green
    ensures SuccessTimerFires(ShowSuccess(b, true, message)) ==
      b.(display := Hidden, background := Red,
         content := Some(Notice(Success, message)))
  {
  }

  /** An error followed by its own timer leaves the banner hidden and the
      background whatever it was before the error. */
  lemma ErrorThenItsTimer(b: Banner, message: string)
    ensures ErrorTimerFires(ShowError(b, true, message)) ==
      b.(display := Hidden, content := Some(Notice(Error, message)))
  {
  }

  /** An error posted while a success is still up is shown on the green
      success background, since `showError` does not set one. */
  lemma ErrorAfterSuccessIsGreen(b: Banner, ok: string, failure: string)
    ensures var r := ShowError(ShowSuccess(b, true, ok), true, failure);
      r.background == Green && r.content == Some(Notice(Error, failure))
  {
  }

  /** The earlier success timer still fires after a later error and hides
      it (and repaints the background red) before the error's own timer. */
  lemma StaleSuccessTimerHidesError(b: Banner, ok: string, failure: string)
    ensures var shown := ShowError(ShowSuccess(b, true, ok), true, failure);
      shown.pendingSuccessTimers > 0 &&
      SuccessTimerFires(shown).display == Hidden &&
      SuccessTimerFires(shown).background == Red &&
      SuccessTimerFires(shown).content == Some(Notice(Error, failure)) &&
      SuccessTimerFires(shown).pendingErrorTimers > 0
  {
  }
}
