/**
 * The colours and icons the dashboard panels choose between. Only the choice
 * is modelled, not the CSS class strings built around it.
 */
module Palette {

  /** Green is #00C851, Red is #ff4444, Amber is #ffbb33, Primary is the theme colour. */
  datatype Colour = Green | Red | Amber | Primary

  /** The lucide-react glyphs the panels use. */
  datatype Icon = CheckCircle | XCircle | AlertTriangle | AlertCircle | Construction | Info
}
