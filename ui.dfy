/** The mapping `updateUI` applies from a status to the visible page regions. */
module Ui {
  /** The `status` argument of `updateUI`; any string other than the four known ones is `Other`. */
  datatype Status = Loading | Ready | Done | Error | Other(name: string)

  /** Which of the progress, download and error areas are visible. */
  datatype Regions = Regions(progress: bool, download: bool, error: bool)

  function VisibleCount(r: Regions): nat
  {
    (if r.progress then 1 else 0) + (if r.download then 1 else 0) + (if r.error then 1 else 0)
  }

  /**
   * All three areas are hidden first and at most one is shown again:
   * progress for `loading` and `ready`, error for `error`, download for
   * `done`, none for anything else.
   */
  function Project(status: Status): (r: Regions)
    ensures VisibleCount(r) <= 1
    ensures VisibleCount(r) == 0 <==> status.Other?
    ensures r.progress ==> status == Loading || status == Ready
    ensures r.download ==> status == Done
    ensures r.error ==> status == Error
  {
    match status
    case Loading => Regions(true, false, false)
    case Ready => Regions(true, false, false)
    case Error => Regions(false, false, true)
    case Done => Regions(false, true, false)
    case Other(_) => Regions(false, false, false)
  }
}
