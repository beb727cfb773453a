/** The constants of the second program (demoexam-final/constants.py) that its bookkeeping uses. */
module Constants {

  /** Palette value meaning "no figure kind is armed". */
  const NONE_FIGURE: int := 0

  /** The three figure kinds offered by the palette. */
  const FIRST_FIGURE: int := 1
  const SECOND_FIGURE: int := 2
  const THIRD_FIGURE: int := 3

  /** Vertex counts of the three kinds. */
  const FIRST_FIGURE_ANGLES: nat := 3
  const SECOND_FIGURE_ANGLES: nat := 6
  const THIRD_FIGURE_ANGLES: nat := 7

  /** Capacity of the drawing field. */
  const MAX_NUMBER_OF_FIGURES_ON_FIELD: nat := 5

  /** Default radius of a figure placed on the field (the class attribute Figure.size). */
  const FIGURE_SIZE: int := 80
}
