/**
 * The label encoder of `training/data.py`: a ground-truth box of the
 * tracking data set becomes a YOLO box (centre and size as fractions of the
 * image), and each track id gets a class id: 0 ball, 1 player,
 * 2 goalkeeper, 3 referee.
 */
module YoloLabels {
  import opened Numerics

  /** A ground-truth box: top-left corner, width and height in pixels. */
  datatype Box = Box(x: real, y: real, w: real, h: real)

  /** A YOLO box: centre, width and height as fractions of the image size. */
  datatype YoloBox = YoloBox(cx: real, cy: real, w: real, h: real)

  /**
   * `convert(box, width, height)`: both coordinates and both sizes are
   * divided by the image size, and the corner is moved to the centre. A zero
   * image size raises `ZeroDivisionError`: `None` here.
   */
  function Convert(box: Box, width: real, height: real): (r: Option<YoloBox>)
    ensures r.None? <==> width == 0.0 || height == 0.0
    ensures r.Some? ==> Mul(r.value.w, width) == box.w && Mul(r.value.h, height) == box.h
  {
    if width == 0.0 || height == 0.0 then None
    else
      QuotientTimesDivisor(box.w, width);
      QuotientTimesDivisor(box.h, height);
      var x, w := box.x / width, box.w / width;
      var y, h := box.y / height, box.h / height;
      Some(YoloBox(x + w / 2.0, y + h / 2.0, w, h))
  }

  /** The pixel box a YOLO box describes: the inverse of `Convert`. */
  function Corner(b: YoloBox, width: real, height: real): Box
  {
    Box(Mul(b.cx - b.w / 2.0, width), Mul(b.cy - b.h / 2.0, height), Mul(b.w, width), Mul(b.h, height))
  }

  /** Converting and scaling back gives the original box. */
  lemma ConvertRoundTrip(box: Box, width: real, height: real)
    ensures Convert(box, width, height).Some? ==> Corner(Convert(box, width, height).value, width, height) == box
  {
    if width != 0.0 && height != 0.0 {
      QuotientTimesDivisor(box.x, width);
      QuotientTimesDivisor(box.y, height);
      QuotientTimesDivisor(box.w, width);
      QuotientTimesDivisor(box.h, height);
    }
  }

  /**
   * A box lying inside a `width` by `height` image has its YOLO extent
   * `[cx - w/2, cx + w/2]` inside `[0, 1]` (and likewise vertically): the
   * values are normalised between 0 and 1.
   */
  lemma InsideImageIsNormalised(box: Box, width: real, height: real)
    requires 0.0 < width && 0.0 < height
    requires 0.0 <= box.x && 0.0 <= box.w && box.x + box.w <= width
    requires 0.0 <= box.y && 0.0 <= box.h && box.y + box.h <= height
    ensures Convert(box, width, height).Some?
    ensures var r := Convert(box, width, height).value;
      && 0.0 <= r.cx - r.w / 2.0 && r.cx + r.w / 2.0 <= 1.0 && 0.0 <= r.w
      && 0.0 <= r.cy - r.h / 2.0 && r.cy + r.h / 2.0 <= 1.0 && 0.0 <= r.h
  {
    UnitSpan(box.x, box.w, width);
    UnitSpan(box.y, box.h, height);
  }

  /** `a / s` and `(a + b) / s` lie in `[0, 1]` when `[a, a + b]` lies in `[0, s]`. */
  lemma UnitSpan(a: real, b: real, s: real)
    requires 0.0 < s && 0.0 <= a && 0.0 <= b && a + b <= s
    ensures 0.0 <= a / s && 0.0 <= b / s && a / s + b / s <= 1.0
  {
    var p, q := a / s, b / s;
    QuotientNonneg(a, s);
    QuotientNonneg(b, s);
    QuotientTimesDivisor(a, s);
    QuotientTimesDivisor(b, s);
    if 1.0 < p + q {
      ProductPositive(p + q - 1.0, s, (p + q - 1.0) * s);
    }
  }

  // ---------------------------------------------------------------------------
  // Class ids

  /** A line of the game-information file, with the track id its key carries. */
  datatype InfoLine = InfoLine(text: string, id: int)

  /** `word` occurs in `line` starting at index `i`. */
  predicate OccursAt(line: string, word: string, i: int)
  {
    0 <= i <= |line| - |word| && line[i..i + |word|] == word
  }

  /** Python's `word in line`. */
  predicate Mentions(line: string, word: string)
  {
    exists i :: 0 <= i <= |line| - |word| && OccursAt(line, word, i)
  }

  /** The ids of the lines that mention `word`, in file order. */
  function IdsMentioning(lines: seq<InfoLine>, word: string): (ids: seq<int>)
    ensures forall id :: id in ids <==> exists k :: 0 <= k < |lines| && lines[k].id == id && Mentions(lines[k].text, word)
  {
    if |lines| == 0 then []
    else
      var rest := IdsMentioning(lines[..|lines| - 1], word);
      var last := lines[|lines| - 1];
      assert forall k :: 0 <= k < |lines| - 1 ==> lines[..|lines| - 1][k] == lines[k];
      if Mentions(last.text, word) then rest + [last.id] else rest
  }

  /** The three id lists `make_labels` reads; with `ball=True` only the ball ids are collected. */
  datatype IdLists = IdLists(ballIds: seq<int>, goalkeeperIds: seq<int>, refereeIds: seq<int>)

  function CollectIds(lines: seq<InfoLine>, ballOnly: bool): (r: IdLists)
    ensures ballOnly ==> r.goalkeeperIds == [] && r.refereeIds == []
  {
    IdLists(
      IdsMentioning(lines, "ball"),
      if ballOnly then [] else IdsMentioning(lines, "goalkeeper"),
      if ballOnly then [] else IdsMentioning(lines, "referee"))
  }

  /** The class id `make_labels` writes for a ground-truth row of track `track`. */
  function ClassId(track: int, ballOnly: bool, lists: IdLists): (c: int)
    ensures 0 <= c <= 3
  {
    if ballOnly then 0
    else if track in lists.ballIds then 0
    else if track in lists.goalkeeperIds then 2
    else if track in lists.refereeIds then 3
    else 1
  }

  /**
   * The lists are tried in the order ball, goalkeeper, referee: a track
   * gets the class of the first list that names it, and 1 when none does.
   */
  lemma ClassPriority(track: int, lists: IdLists)
    ensures track in lists.ballIds ==> ClassId(track, false, lists) == 0
    ensures track !in lists.ballIds && track in lists.goalkeeperIds ==> ClassId(track, false, lists) == 2
    ensures track !in lists.ballIds && track !in lists.goalkeeperIds && track in lists.refereeIds ==>
      ClassId(track, false, lists) == 3
    ensures ClassId(track, false, lists) == 1 <==>
      track !in lists.ballIds && track !in lists.goalkeeperIds && track !in lists.refereeIds
  {
  }

  /** With the ball flag every row is labelled as the ball, whatever the game information says. */
  lemma BallModeLabelsEverythingBall(track: int, lines: seq<InfoLine>)
    ensures ClassId(track, true, CollectIds(lines, true)) == 0
  {
  }

  /**
   * A track is labelled goalkeeper exactly when some line mentions
   * "goalkeeper" with its id and no line mentions "ball" with it.
   */
  lemma GoalkeeperFromInfo(track: int, lines: seq<InfoLine>)
    ensures ClassId(track, false, CollectIds(lines, false)) == 2 <==>
      && (exists k :: 0 <= k < |lines| && lines[k].id == track && Mentions(lines[k].text, "goalkeeper"))
      && !(exists k :: 0 <= k < |lines| && lines[k].id == track && Mentions(lines[k].text, "ball"))
  {
  }

  /** One label line: the class id and the converted box. */
  datatype Label = Label(classId: int, box: YoloBox)

  /**
   * The label line of one ground-truth row, or `None` where `convert`
   * raises on a zero image size, before any line is written.
   */
  function LabelOf(track: int, box: Box, width: real, height: real, ballOnly: bool, lists: IdLists): (l: Option<Label>)
    ensures l.None? <==> width == 0.0 || height == 0.0
    ensures l.Some? ==> Corner(l.value.box, width, height) == box
    ensures l.Some? ==> (l.value.classId == 0 <==> ballOnly || track in lists.ballIds)
  {
    ConvertRoundTrip(box, width, height);
    match Convert(box, width, height)
    case None => None
    case Some(b) => Some(Label(ClassId(track, ballOnly, lists), b))
  }
}
