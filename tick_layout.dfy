/** The label layout that both "dynamic sizing" heuristics choose. */
module TickLayout {

  /** Figure width, tick-label rotation in degrees, and tick-label font size. */
  datatype LabelLayout = LabelLayout(width: int, tickAngle: int, fontSize: int)
}
