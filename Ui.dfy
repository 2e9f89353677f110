/** The presentational vocabulary the components choose from. */
module Ui {

  /** The `variant` of a badge component. */
  datatype BadgeVariant = Default | Secondary | Outline | Destructive
}
