/** The bar record that the Gantt chart component draws (its `Task` type). */
module Gantt {
  import opened Wrappers

  datatype BarType = TaskBar | ProjectBar

  datatype BarStyles = BarStyles(
    backgroundColor: string,
    backgroundSelectedColor: string,
    progressColor: string,
    progressSelectedColor: string)

  /**
   * One bar. `start`/`end` carry the record's timestamps through unchanged
   * (`None` where the source builds an invalid date from a missing one).
   */
  datatype GanttBar = GanttBar(
    start: Option<int>,
    end: Option<int>,
    name: string,
    id: string,
    kind: BarType,
    progress: int,
    isDisabled: bool,
    styles: Option<BarStyles>,
    description: Option<string>,
    status: Option<string>)
}
