/**
 * The page packer of `generatePDF`: rendered badges are laid out on PDF pages left to right
 * in rows, one forward pass over the badge list, with the cursors `offX`, `offY` (the next free
 * position on the current row) and `largestH` (the tallest badge on the current page). All
 * positions are in PDF user space: the origin is the lower-left corner of the page and y
 * grows upward, so the first row sits on the bottom margin and later rows stack up. The
 * PDF document, its content streams and the image encoding are not modelled: each badge is
 * its physical size and whether its image could be converted, and the result is the list of
 * rectangles drawn and the number of pages.
 */
module Packer {
  import opened Wrappers

  /** What the caller chose: the page size in PDF units (1/72 in), margin and spacing in the chosen unit. */
  datatype PageSetup = PageSetup(
    pageWidth: real,
    pageHeight: real,
    pageMargin: real,
    badgeSpacing: real,
    mm: bool,
    landscape: bool)

  /**
   * One badge of the list: `getWidth()` and `getHeight()` in the chosen unit, and whether
   * its render was turned into a PDF image (`createFromImage` throws an `IOException`
   * otherwise, which the loop catches).
   */
  datatype Item = Item(width: real, height: real, converted: bool)

  /** One `drawImage` call: which badge, on which page (from 1), its lower-left corner, and how large. */
  datatype Placement = Placement(index: nat, page: nat, x: real, y: real, w: real, h: real)

  /** The saved document: the page size and how many pages were added, and what was drawn on them. */
  datatype Document = Document(pageWidth: real, pageHeight: real, pages: nat, placed: seq<Placement>)

  /** The fixed quantities of one run, all in PDF units. */
  datatype Geometry = Geometry(
    mm: bool,
    margin: real,
    spacing: real,
    pageWidth: real,
    pageHeight: real,
    limitW: real,
    limitH: real)

  /**
   * The loop state: pages opened so far (`page == null` is 0), the cursors, how many badges
   * were processed, and the placements made.
   */
  datatype State = State(pages: nat, offX: real, offY: real, largestH: real, count: nat, placed: seq<Placement>)

  /** A length in the chosen unit converted to PDF units: 72 per inch, or 72 per 25.4 mm. */
  function Points(mm: bool, v: real): (r: real)
    ensures v >= 0.0 ==> r >= 0.0
  {
    if mm then 1.0 / 25.4 * v * 72.0 else v * 72.0
  }

  /** An inch is 72 PDF units, and so are 25.4 mm. */
  lemma OneInch()
    ensures Points(false, 1.0) == 72.0 && Points(true, 25.4) == 72.0
  {
  }

  /** Margin and spacing converted, the page turned for landscape, and the usable area inside two margins. */
  function GeometryOf(setup: PageSetup): (g: Geometry)
    ensures g.limitW == g.pageWidth - 2.0 * g.margin && g.limitH == g.pageHeight - 2.0 * g.margin
    ensures {g.pageWidth, g.pageHeight} == {setup.pageWidth, setup.pageHeight}
  {
    var margin := Points(setup.mm, setup.pageMargin);
    var pageW := if setup.landscape then setup.pageHeight else setup.pageWidth;
    var pageH := if setup.landscape then setup.pageWidth else setup.pageHeight;
    Geometry(setup.mm, margin, Points(setup.mm, setup.badgeSpacing), pageW, pageH,
      pageW - 2.0 * margin, pageH - 2.0 * margin)
  }

  /** Landscape is portrait on the page turned by a quarter: width and height swap, nothing else changes. */
  lemma LandscapeSwaps(setup: PageSetup)
    requires setup.landscape
    ensures var g := GeometryOf(setup);
      var p := GeometryOf(setup.(landscape := false, pageWidth := setup.pageHeight, pageHeight := setup.pageWidth));
      g == p && g.pageWidth == setup.pageHeight && g.pageHeight == setup.pageWidth
  {
  }

  /** Before the first badge: no page, both cursors at the margin, no tallest badge yet. */
  function Start(g: Geometry): State {
    State(0, g.margin, g.margin, -1.0, 0, [])
  }

  /**
   * A later badge needs a new page only when it fits neither on the current row nor on a
   * next row above it, judged with the tallest height seen before this badge.
   */
  predicate Overflows(g: Geometry, s: State, w: real, h: real) {
    s.offX + g.spacing + w > g.limitW && s.offY + s.largestH + g.spacing + h > g.limitH
  }

  /** A badge `w` x `h` opens a page when there is none yet, or when it overflows the current one. */
  predicate OpensPage(g: Geometry, s: State, w: real, h: real) {
    s.pages == 0 || Overflows(g, s, w, h)
  }

  /** The state once the page for the next badge is settled: a new page puts the cursors back at the margin. */
  function Settled(g: Geometry, s: State, w: real, h: real): (r: State)
    ensures r.placed == s.placed && r.count == s.count
    ensures r.pages >= 1
    ensures r.pages == s.pages + 1 <==> OpensPage(g, s, w, h)
    ensures !OpensPage(g, s, w, h) ==> r == s
  {
    if OpensPage(g, s, w, h) then s.(pages := s.pages + 1, offX := g.margin, offY := g.margin, largestH := -1.0)
    else s
  }

  /**
   * One iteration of the placement loop. After the page is settled, a converted badge first
   * raises `largestH`, then starts a new row if it does not fit on this one (the row above the
   * tallest badge of the page), is drawn one spacing right of the cursor, and moves the cursor
   * past itself. A badge whose image failed moves no cursor.
   */
  function Advance(g: Geometry, s: State, item: Item): (r: State)
    ensures r.count == s.count + 1
  {
    var w := Points(g.mm, item.width);
    var h := Points(g.mm, item.height);
    var t := Settled(g, s, w, h);
    if item.converted then Place(g, t, w, h) else t.(count := s.count + 1)
  }

  /**
   * Drawing a converted `w` x `h` badge once its page is settled: `largestH` takes the badge
   * in, a badge that does not fit on the row starts the next one, above the tallest badge of
   * the page, and the badge goes one spacing right of the cursor, which then moves past it.
   */
  function Place(g: Geometry, t: State, w: real, h: real): (r: State)
    ensures r.count == t.count + 1 && r.pages == t.pages
  {
    var tallest := if h > t.largestH then h else t.largestH;
    var wraps := t.offX + g.spacing + w > g.limitW;
    var x := (if wraps then g.margin else t.offX) + g.spacing;
    var y := if wraps then t.offY + tallest + g.spacing else t.offY;
    State(t.pages, x + w, y, tallest, t.count + 1, t.placed + [Placement(t.count, t.pages, x, y, w, h)])
  }

  /** One iteration of a loop over the badge list. */
  type Stepper = (State, Item) -> State

  /** The iteration of `generatePDF` on geometry `g`. */
  function Advancer(g: Geometry): Stepper {
    (s, item) => Advance(g, s, item)
  }

  /** A loop over the badge list from badge `s.count` on, each iteration being `step`. */
  function Fold(step: Stepper, s: State, items: seq<Item>): (r: State)
    ensures r.count >= s.count
    ensures r.count < |items| ==> step(r, items[r.count]).count <= r.count
    ensures s.count <= |items| && (forall t, item :: step(t, item).count <= t.count + 1) ==> r.count <= |items|
    decreases |items| - s.count
  {
    if s.count >= |items| then s
    else
      var t := step(s, items[s.count]);
      if t.count <= s.count then s else Fold(step, t, items)
  }

  /** The loop from badge `s.count` to the end of the list. */
  function Pack(g: Geometry, s: State, items: seq<Item>): (r: State)
    ensures s.count <= |items| ==> r.count == |items|
    ensures s.count > |items| ==> r == s
  {
    assert forall t, item :: Advancer(g)(t, item).count == t.count + 1;
    Fold(Advancer(g), s, items)
  }

  lemma FoldStep(step: Stepper, s: State, items: seq<Item>)
    requires s.count < |items| && step(s, items[s.count]).count > s.count
    ensures Fold(step, s, items) == Fold(step, step(s, items[s.count]), items)
  {
  }

  lemma PackStep(g: Geometry, s: State, items: seq<Item>)
    requires s.count < |items|
    ensures Pack(g, s, items) == Pack(g, Advance(g, s, items[s.count]), items)
  {
  }

  /** The document `generatePDF` saves, if any. */
  function DocumentOf(setup: PageSetup, items: seq<Item>): (doc: Document)
    ensures {doc.pageWidth, doc.pageHeight} == {setup.pageWidth, setup.pageHeight}
    ensures items == [] ==> doc.pages == 0 && doc.placed == []
  {
    var g := GeometryOf(setup);
    var s := Pack(g, Start(g), items);
    Document(g.pageWidth, g.pageHeight, s.pages, s.placed)
  }

  /**
   * `generatePDF` reduced to its layout: no document for an empty list; otherwise one pass
   * that opens pages and places each converted badge, as `DocumentOf` describes.
   */
  method GeneratePdf(setup: PageSetup, items: seq<Item>) returns (doc: Option<Document>)
    ensures items == [] ==> doc == None
    ensures items != [] ==> doc == Some(DocumentOf(setup, items))
  {
    var mm := setup.mm;
    var margin := Points(mm, setup.pageMargin);
    var spacing := Points(mm, setup.badgeSpacing);
    if |items| == 0 {
      return None;
    }
    var offX := margin;
    var offY := margin;
    var pageW := if setup.landscape then setup.pageHeight else setup.pageWidth;
    var pageH := if setup.landscape then setup.pageWidth else setup.pageHeight;
    var limitW := pageW - 2.0 * margin;
    var limitH := pageH - 2.0 * margin;
    var largestH := -1.0;
    var pages := 0;
    var placed: seq<Placement> := [];
    var g := Geometry(mm, margin, spacing, pageW, pageH, limitW, limitH);
    assert g == GeometryOf(setup);
    ghost var step := Advancer(g);
    var i := 0;
    while i < |items|
      invariant i <= |items|
      invariant Pack(g, Start(g), items) == Fold(step, State(pages, offX, offY, largestH, i, placed), items)
    {
      ghost var before := State(pages, offX, offY, largestH, i, placed);
      pages, offX, offY, largestH, placed := PlaceNext(g, pages, offX, offY, largestH, i, placed, items[i]);
      FoldStep(step, before, items);
      i := i + 1;
    }
    doc := Some(Document(pageW, pageH, pages, placed));
  }

  /**
   * The body of the placement loop for badge `i`: open a page if needed, then place the badge
   * if its image was converted.
   */
  method PlaceNext(g: Geometry, pages0: nat, offX0: real, offY0: real, largestH0: real, i: nat,
                   placed0: seq<Placement>, item: Item)
    returns (pages: nat, offX: real, offY: real, largestH: real, placed: seq<Placement>)
    ensures State(pages, offX, offY, largestH, i + 1, placed) == Advance(g, State(pages0, offX0, offY0, largestH0, i, placed0), item)
  {
    pages, offX, offY, largestH, placed := pages0, offX0, offY0, largestH0, placed0;
    var badgeW := Points(g.mm, item.width);
    var badgeH := Points(g.mm, item.height);
    if pages == 0 || (offX + g.spacing + badgeW > g.limitW && offY + largestH + g.spacing + badgeH > g.limitH) {
      pages := pages + 1;
      offX := g.margin;
      offY := g.margin;
      largestH := -1.0;
    }
    if item.converted {
      largestH := if badgeH > largestH then badgeH else largestH;
      if offX + g.spacing + badgeW > g.limitW {
        offX := g.margin;
        offY := offY + largestH + g.spacing;
      }
      offX := offX + g.spacing;
      placed := placed + [Placement(i, pages, offX, offY, badgeW, badgeH)];
      offX := offX + badgeW;
    }
  }

  // ---------------------------------------------------------------------------
  // What the layout guarantees

  /** `q` is drawn behind the cursor of the current page: in an earlier (lower) row, or earlier on this row. */
  predicate Behind(s: State, q: Placement) {
    0.0 <= q.h <= s.largestH && (q.y + q.h <= s.offY || (q.y == s.offY && q.x + q.w <= s.offX))
  }

  /** Two rectangles that share no interior point. */
  predicate Disjoint(p: Placement, q: Placement) {
    p.x + p.w <= q.x || q.x + q.w <= p.x || p.y + p.h <= q.y || q.y + q.h <= p.y
  }

  /** Badges follow the input order, pages never go back, and on a page no badge's lower edge is below that of one before it: rows stack upward. */
  predicate InOrder(placed: seq<Placement>) {
    forall i, j :: 0 <= i < j < |placed| ==>
      placed[i].index < placed[j].index && placed[i].page <= placed[j].page &&
      (placed[i].page == placed[j].page ==> placed[i].y <= placed[j].y)
  }

  /** No two badges on the same page overlap. */
  predicate Apart(placed: seq<Placement>) {
    forall i, j :: 0 <= i < j < |placed| && placed[i].page == placed[j].page ==> Disjoint(placed[i], placed[j])
  }

  /** Every placement is of a converted badge of the list, at that badge's size in PDF units. */
  predicate Names(g: Geometry, items: seq<Item>, q: Placement) {
    q.index < |items| && items[q.index].converted &&
    q.w == Points(g.mm, items[q.index].width) && q.h == Points(g.mm, items[q.index].height)
  }

  /** A badge either starts its row or ends within the usable width. */
  predicate FitsRow(g: Geometry, q: Placement) {
    q.x == g.margin + g.spacing || q.x + q.w <= g.limitW
  }

  /** What holds of every state the loop reaches. */
  predicate Good(g: Geometry, items: seq<Item>, s: State) {
    s.count <= |items| && InOrder(s.placed) && Apart(s.placed) &&
    forall q :: q in s.placed ==>
      1 <= q.page <= s.pages && q.index < s.count && Names(g, items, q) && FitsRow(g, q) &&
      (q.page == s.pages ==> Behind(s, q))
  }

  /** Sizes that can be laid out: none is negative. */
  predicate Sized(items: seq<Item>) {
    forall i :: 0 <= i < |items| ==> items[i].width >= 0.0 && items[i].height >= 0.0
  }

  lemma {:induction false} AppendInOrder(placed: seq<Placement>, p: Placement)
    requires InOrder(placed)
    requires forall q :: q in placed ==> q.index < p.index && q.page <= p.page && (q.page == p.page ==> q.y <= p.y)
    ensures InOrder(placed + [p])
  {
    var all := placed + [p];
    forall i, j | 0 <= i < j < |all|
      ensures all[i].index < all[j].index && all[i].page <= all[j].page && (all[i].page == all[j].page ==> all[i].y <= all[j].y)
    {
      if j == |placed| {
        assert all[i] in placed;
      }
    }
  }

  lemma {:induction false} AppendApart(placed: seq<Placement>, p: Placement)
    requires Apart(placed)
    requires forall q :: q in placed && q.page == p.page ==> Disjoint(q, p)
    ensures Apart(placed + [p])
  {
    var all := placed + [p];
    forall i, j | 0 <= i < j < |all| && all[i].page == all[j].page
      ensures Disjoint(all[i], all[j])
    {
      if j == |placed| {
        assert all[i] in placed;
      }
    }
  }

  /** Opening a page leaves every earlier badge on an earlier page. */
  lemma {:induction false} SettledKeepsGood(g: Geometry, items: seq<Item>, s: State, w: real, h: real)
    requires Good(g, items, s)
    ensures Good(g, items, Settled(g, s, w, h))
  {
  }

  /**
   * A converted badge placed on the settled state `t` comes after each earlier badge `q`,
   * on the same page or a later one; on the same page its lower edge is not below `q`'s,
   * it does not overlap `q`, and `q` stays behind the moved cursor.
   */
  lemma {:induction false} PlaceAfter(g: Geometry, t: State, w: real, h: real, q: Placement)
    requires q.page <= t.pages && q.index < t.count && (q.page == t.pages ==> Behind(t, q))
    requires w >= 0.0 && h >= 0.0 && g.spacing >= 0.0
    ensures var r := Place(g, t, w, h); var p := r.placed[|r.placed| - 1];
      q.index < p.index && q.page <= p.page &&
      (q.page == p.page ==> q.y <= p.y && Disjoint(q, p) && Behind(r, q))
  {
  }

  /** The new badge itself: it is the badge of the list at its index, fits its row, and is behind the cursor. */
  lemma {:induction false} PlaceNew(g: Geometry, items: seq<Item>, t: State)
    requires t.count < |items| && items[t.count].converted && items[t.count].width >= 0.0 && items[t.count].height >= 0.0
    requires g.spacing >= 0.0 && t.pages >= 1
    ensures var r := Place(g, t, Points(g.mm, items[t.count].width), Points(g.mm, items[t.count].height));
      var p := r.placed[|r.placed| - 1];
      r.placed == t.placed + [p] && 1 <= p.page == r.pages && p.index == t.count &&
      Names(g, items, p) && FitsRow(g, p) && Behind(r, p)
  {
  }

  /** Placing a converted badge keeps the invariant. */
  lemma {:induction false} PlaceKeepsGood(g: Geometry, items: seq<Item>, t: State)
    requires Good(g, items, t) && t.count < |items| && t.pages >= 1
    requires items[t.count].converted && items[t.count].width >= 0.0 && items[t.count].height >= 0.0
    requires g.spacing >= 0.0
    ensures Good(g, items, Place(g, t, Points(g.mm, items[t.count].width), Points(g.mm, items[t.count].height)))
  {
    var item := items[t.count];
    var w := Points(g.mm, item.width);
    var h := Points(g.mm, item.height);
    var r := Place(g, t, w, h);
    PlaceNew(g, items, t);
    var p := r.placed[|r.placed| - 1];
    forall q | q in t.placed
      ensures q.index < p.index && q.page <= p.page && (q.page == p.page ==> q.y <= p.y)
      ensures q.page == p.page ==> Disjoint(q, p) && Behind(r, q)
    {
      PlaceAfter(g, t, w, h, q);
    }
    AppendInOrder(t.placed, p);
    AppendApart(t.placed, p);
    forall q | q in r.placed
      ensures 1 <= q.page <= r.pages && q.index < r.count && Names(g, items, q) && FitsRow(g, q)
      ensures q.page == r.pages ==> Behind(r, q)
    {
      if q != p {
        assert q in t.placed;
      }
    }
  }

  /** One iteration keeps the invariant. */
  lemma {:induction false} AdvanceKeepsGood(g: Geometry, items: seq<Item>, s: State)
    requires Good(g, items, s) && s.count < |items| && Sized(items) && g.spacing >= 0.0
    ensures Good(g, items, Advance(g, s, items[s.count]))
  {
    var item := items[s.count];
    var w := Points(g.mm, item.width);
    var h := Points(g.mm, item.height);
    var t := Settled(g, s, w, h);
    SettledKeepsGood(g, items, s, w, h);
    if item.converted {
      PlaceKeepsGood(g, items, t);
    }
  }

  lemma {:induction false} PackKeepsGood(g: Geometry, items: seq<Item>, s: State)
    requires Good(g, items, s) && Sized(items) && g.spacing >= 0.0
    ensures Good(g, items, Pack(g, s, items))
    decreases |items| - s.count
  {
    if s.count < |items| {
      AdvanceKeepsGood(g, items, s);
      PackKeepsGood(g, items, Advance(g, s, items[s.count]));
    }
  }

  /**
   * With non-negative spacing and sizes, the layout draws each converted badge at its own
   * size, in input order, with non-decreasing heights on each page; no two badges on a page
   * overlap, and each badge either starts its row or ends within the usable width.
   */
  lemma PackedLayout(setup: PageSetup, items: seq<Item>)
    requires setup.badgeSpacing >= 0.0 && Sized(items)
    ensures var doc := DocumentOf(setup, items); var g := GeometryOf(setup);
      InOrder(doc.placed) && Apart(doc.placed) &&
      forall q :: q in doc.placed ==> 1 <= q.page <= doc.pages && Names(g, items, q) && FitsRow(g, q)
  {
    var g := GeometryOf(setup);
    PackKeepsGood(g, items, Start(g));
  }

  /** The number of badges whose image was converted. */
  function Converted(items: seq<Item>): (n: nat)
    ensures n <= |items|
  {
    if items == [] then 0 else (if items[0].converted then 1 else 0) + Converted(items[1..])
  }

  lemma {:induction false} PackCount(g: Geometry, s: State, items: seq<Item>)
    requires s.count <= |items|
    ensures |Pack(g, s, items).placed| == |s.placed| + Converted(items[s.count..])
    decreases |items| - s.count
  {
    if s.count < |items| {
      var rest := items[s.count..];
      assert rest[1..] == items[s.count + 1..];
      PackCount(g, Advance(g, s, items[s.count]), items);
    }
  }

  /** Every converted badge is drawn once: the placements, in order, are exactly the converted badges. */
  lemma EveryConvertedPlaced(setup: PageSetup, items: seq<Item>)
    ensures |DocumentOf(setup, items).placed| == Converted(items)
  {
    var g := GeometryOf(setup);
    PackCount(g, Start(g), items);
    assert items[0..] == items;
  }

  /** A non-empty list gives a document of at least one page. */
  lemma {:induction false} SomePage(setup: PageSetup, items: seq<Item>)
    requires items != []
    ensures DocumentOf(setup, items).pages >= 1
  {
    var g := GeometryOf(setup);
    var s := Advance(g, Start(g), items[0]);
    assert s.pages == 1;
    PackPagesGrow(g, s, items);
  }

  lemma {:induction false} PackPagesGrow(g: Geometry, s: State, items: seq<Item>)
    ensures Pack(g, s, items).pages >= s.pages
    decreases |items| - s.count
  {
    if s.count < |items| {
      PackPagesGrow(g, Advance(g, s, items[s.count]), items);
    }
  }

  /** The new-page rule: a later badge opens a page exactly when both the width and the height checks fail. */
  lemma NewPageRule(g: Geometry, s: State, item: Item)
    requires s.pages >= 1
    ensures Advance(g, s, item).pages == s.pages + 1 <==>
      s.offX + g.spacing + Points(g.mm, item.width) > g.limitW &&
      s.offY + s.largestH + g.spacing + Points(g.mm, item.height) > g.limitH
    ensures Advance(g, s, item).pages in {s.pages, s.pages + 1}
  {
  }

  /** A badge whose image could not be converted moves no cursor (unless it opened a page first) and is not drawn. */
  lemma FailedConversionKeepsCursors(g: Geometry, s: State, item: Item)
    requires !item.converted && s.pages >= 1 && !OpensPage(g, s, Points(g.mm, item.width), Points(g.mm, item.height))
    ensures Advance(g, s, item) == s.(count := s.count + 1)
  {
  }

  /**
   * The tallest height is folded in before the row test and kept across a row wrap: the
   * next row starts above the tallest badge of the whole page so far, not of the row.
   */
  lemma WrapBelowTallest()
    ensures var g := Geometry(false, 0.0, 0.0, 100.0, 100.0, 100.0, 100.0);
      var s := Pack(g, Start(g), [Item(0.5, 0.5, true), Item(1.0, 0.1, true), Item(1.0, 0.1, true)]);
      s.pages == 1 && |s.placed| == 3 && s.placed[1].h == 7.2 && s.placed[2].y == s.placed[1].y + 36.0
  {
    var g := Geometry(false, 0.0, 0.0, 100.0, 100.0, 100.0, 100.0);
    var items := [Item(0.5, 0.5, true), Item(1.0, 0.1, true), Item(1.0, 0.1, true)];
    var s1 := Advance(g, Start(g), items[0]);
    var s2 := Advance(g, s1, items[1]);
    var s3 := Advance(g, s2, items[2]);
    PackStep(g, Start(g), items);
    PackStep(g, s1, items);
    PackStep(g, s2, items);
    assert s1.offX == 36.0 && s1.largestH == 36.0;
    assert s2.offX == 72.0 && s2.offY == 36.0 && s2.largestH == 36.0;
    assert s3.placed[2].y == 72.0;
  }

  /**
   * The height check judges the next row by the tallest badge so far, without the new one:
   * a tall badge that starts a row can reach past the usable height, and even past the top
   * edge of the page, though an empty page would hold it. Here on a 100 x 100 page with no
   * margin, an inch-wide badge 0.2 in high fills the first row, and the next, 0.9 in (64.8)
   * high, passes the height check (14.4 + 64.8 <= 100) but is drawn from y = 64.8 up to 129.6.
   */
  lemma RowCanOverflowPage()
    ensures var g := Geometry(false, 0.0, 0.0, 100.0, 100.0, 100.0, 100.0);
      var s := Pack(g, Start(g), [Item(1.0, 0.2, true), Item(1.0, 0.9, true)]);
      s.pages == 1 && |s.placed| == 2 && s.placed[1].y + s.placed[1].h > g.pageHeight
  {
    var g := Geometry(false, 0.0, 0.0, 100.0, 100.0, 100.0, 100.0);
    var items := [Item(1.0, 0.2, true), Item(1.0, 0.9, true)];
    var s1 := Advance(g, Start(g), items[0]);
    var s2 := Advance(g, s1, items[1]);
    PackStep(g, Start(g), items);
    PackStep(g, s1, items);
    assert s1.offX == 72.0 && s1.largestH == 14.4;
    assert s2.pages == 1 && s2.placed[1].y == 64.8;
  }

  /**
   * A badge that opens a page starts it: the cursors are back at the margin and the badge
   * goes to the lower-left corner, one spacing in, when it fits the usable width.
   */
  lemma FreshPageCorner(g: Geometry, s: State, item: Item)
    requires item.converted && OpensPage(g, s, Points(g.mm, item.width), Points(g.mm, item.height))
    requires g.margin + g.spacing + Points(g.mm, item.width) <= g.limitW
    ensures var r := Advance(g, s, item);
      r.pages == s.pages + 1 && r.placed == s.placed + [Placement(s.count, s.pages + 1, g.margin + g.spacing, g.margin,
        Points(g.mm, item.width), Points(g.mm, item.height))]
  {
  }

  /**
   * A badge wider than the usable width is still placed, but on its fresh page the row test
   * fails at once: it is drawn one row up, its lower edge at margin + its own height + spacing.
   */
  lemma WideBadgeDropsARow(g: Geometry, w: real, h: real)
    requires g.margin + g.spacing + Points(g.mm, w) > g.limitW && Points(g.mm, h) >= 0.0
    ensures var s := Advance(g, Start(g), Item(w, h, true));
      s.pages == 1 && s.placed[0].y == g.margin + Points(g.mm, h) + g.spacing &&
      s.placed[0].x == g.margin + g.spacing
  {
  }
}
