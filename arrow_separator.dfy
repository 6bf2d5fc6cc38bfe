/** The arrow between two pictures of the DMS console: each of its two labels is
    green once its step is done, orange while it waits on an operator, white
    otherwise, and its arrow blinks while the step is under way. */
module ArrowSeparator {
  datatype Color = Green | White | Orange

  /** The CSS colour of each choice. */
  function ColorCode(c: Color): string
  {
    match c
    case Green => "#25ee32"
    case White => "#B2B3B7"
    case Orange => "#FFA32A"
  }

  /** `topColor` / `bottomColor`. */
  function LabelColor(loaded: bool, loading: bool, useWarn: bool): (c: Color)
    ensures loaded ==> c == Green
    ensures !loaded && loading && useWarn ==> c == Orange
    ensures !loaded && !(loading && useWarn) ==> c == White
  {
    if loaded then Green else if loading then (if useWarn then Orange else White) else White
  }

  datatype Animation = Blink | Still

  /** The animation of a label's arrow: it depends on `loading` alone, so a
      label that is both loaded and loading blinks green. */
  function ArrowAnimation(loading: bool): (a: Animation)
    ensures a == Blink <==> loading
  {
    if loading then Blink else Still
  }
}
