/**
 * `getOrientation` of src/utils/layout.ts: a terminal is laid out wide
 * when its width is at least one and a half times its height. Terminal
 * dimensions are whole numbers of cells.
 */
module Layout {
  datatype Orientation = Tall | Wide

  /** In whole numbers: wide exactly when 2 * width >= 3 * height. */
  function GetOrientation(width: int, height: int): (o: Orientation)
    ensures o == Wide <==> 2 * width >= 3 * height
    ensures o == Tall <==> 2 * width < 3 * height
  {
    if width as real >= height as real * 1.5 then Wide else Tall
  }

  // ---------------------------------------------------------------- properties

  /** Widening a wide terminal keeps it wide. */
  lemma WiderStaysWide(width: int, height: int, width2: int)
    requires width <= width2 && GetOrientation(width, height) == Wide
    ensures GetOrientation(width2, height) == Wide
  {
  }

  /** Heightening a tall terminal keeps it tall. */
  lemma TallerStaysTall(width: int, height: int, height2: int)
    requires height <= height2 && GetOrientation(width, height) == Tall
    ensures GetOrientation(width, height2) == Tall
  {
  }

  /** The layout tests: 100 x 30 is wide, 80 x 60 is tall; exactly 1.5 times is wide. */
  lemma LayoutScenarios()
    ensures GetOrientation(100, 30) == Wide
    ensures GetOrientation(80, 60) == Tall
    ensures GetOrientation(3, 2) == Wide && GetOrientation(2, 2) == Tall
  {
  }
}
