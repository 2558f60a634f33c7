/** The log pane of internal/tui/model.go: the cached lines, and the index that makes
    scrolling them cheap (line positions, content size, width histogram). */
module LogView {
  import opened LogRing

  datatype Entry = Entry(stream: string, line: string, time: int)

  /** Text handling the pane relies on but does not define: formatting an entry,
      removing control sequences, measuring, and counting wrapped rows. */
  datatype TextRules = TextRules(
    format: Entry -> string,
    visible: string -> string,
    measure: string -> nat,
    wrappedRows: (string, nat) -> nat)

  datatype CachedLine = CachedLine(content: string, visible: string, width: nat, height: nat, start: nat)

  /** The rendered form of a line. */
  datatype LogNode = LogNode(content: string, wrap: bool)

  function Max(a: int, b: int): int {
    if a >= b then a else b
  }

  function Min(a: int, b: int): int {
    if a <= b then a else b
  }

  /** Rows a line takes: one, or as many as wrapping needs. */
  function LineHeight(rules: TextRules, wrap: bool, screen: nat, visible: string): (h: nat)
    ensures h >= 1 && (!wrap ==> h == 1)
    ensures wrap ==> h >= rules.wrappedRows(visible, Max(screen, 1)) && (h == 1 || h == rules.wrappedRows(visible, Max(screen, 1)))
  {
    if !wrap then 1 else Max(1, rules.wrappedRows(visible, Max(screen, 1)))
  }

  // ---------- What the index must say ----------

  function Total(lines: seq<CachedLine>): nat {
    if lines == [] then 0 else Total(lines[..|lines| - 1]) + lines[|lines| - 1].height
  }

  function Widths(lines: seq<CachedLine>): multiset<nat> {
    if lines == [] then multiset{} else Widths(lines[..|lines| - 1]) + multiset{lines[|lines| - 1].width}
  }

  lemma {:induction false} DropFirst(lines: seq<CachedLine>)
    requires lines != []
    ensures Total(lines) == lines[0].height + Total(lines[1..])
    ensures Widths(lines) == multiset{lines[0].width} + Widths(lines[1..])
    decreases |lines|
  {
    if |lines| > 1 {
      var front := lines[..|lines| - 1];
      DropFirst(front);
      assert front[1..] == lines[1..][..|lines| - 2];
    }
  }

  ghost predicate Contiguous(lines: seq<CachedLine>) {
    forall i :: 0 <= i < |lines| - 1 ==> lines[i + 1].start == lines[i].start + lines[i].height
  }

  /** Where the line after the last one would start. */
  function After(lines: seq<CachedLine>): nat {
    if lines == [] then 0 else lines[|lines| - 1].start + lines[|lines| - 1].height
  }

  /** counts maps exactly the occurring widths to how often they occur. */
  ghost predicate Histogram(bag: multiset<nat>, counts: map<nat, nat>) {
    && (forall w :: w in counts <==> w in bag)
    && (forall w :: w in counts ==> counts[w] == bag[w])
  }

  ghost predicate Widest(bag: multiset<nat>, width: nat) {
    && (forall w :: w in bag ==> w <= width)
    && (bag == multiset{} ==> width == 0)
    && (bag != multiset{} ==> width in bag)
  }

  /** The position of a line relative to the first one is the height of those before it. */
  lemma {:induction false} StartIsTotal(lines: seq<CachedLine>, i: nat)
    requires Contiguous(lines) && i < |lines|
    ensures lines[i].start - lines[0].start == Total(lines[..i])
    decreases i
  {
    if i > 0 {
      StartIsTotal(lines, i - 1);
      assert lines[..i][..i - 1] == lines[..i - 1];
      assert lines[i - 1 + 1].start == lines[i - 1].start + lines[i - 1].height;
    }
  }

  lemma {:induction false} StartsIncrease(lines: seq<CachedLine>, i: nat, j: nat)
    requires Contiguous(lines) && i < j < |lines|
    ensures lines[i].start + lines[i].height <= lines[j].start
    decreases j
  {
    assert lines[j - 1 + 1].start == lines[j - 1].start + lines[j - 1].height;
    if i < j - 1 { StartsIncrease(lines, i, j - 1); }
  }

  ghost predicate LineOk(rules: TextRules, wrap: bool, screen: nat, line: CachedLine, entry: Entry) {
    && line.content == rules.format(entry)
    && line.visible == rules.visible(line.content)
    && line.width == rules.measure(line.visible)
    && line.height == LineHeight(rules, wrap, screen, line.visible)
  }

  /** The lines show the entries, measured for the current layout. */
  ghost predicate Shows(rules: TextRules, wrap: bool, screen: nat, lines: seq<CachedLine>, shown: seq<Entry>) {
    && |lines| == |shown|
    && forall i :: 0 <= i < |lines| ==> LineOk(rules, wrap, screen, lines[i], shown[i])
  }

  ghost predicate Rendered(lines: seq<CachedLine>, nodes: seq<LogNode>, wrap: bool) {
    && |nodes| == |lines|
    && forall i :: 0 <= i < |nodes| ==> nodes[i] == LogNode(lines[i].content, wrap)
  }

  ghost predicate Placed(lines: seq<CachedLine>, nextY: nat) {
    Contiguous(lines) && nextY == After(lines)
  }

  ghost predicate Summed(lines: seq<CachedLine>, height: int, counts: map<nat, nat>) {
    height == Total(lines) && Histogram(Widths(lines), counts)
  }

  function Bump(counts: map<nat, nat>, width: nat): map<nat, nat> {
    counts[width := (if width in counts then counts[width] else 0) + 1]
  }

  lemma BumpCounts(bag: multiset<nat>, counts: map<nat, nat>, width: nat)
    requires Histogram(bag, counts)
    ensures Histogram(bag + multiset{width}, Bump(counts, width))
  {
  }

  lemma WidestMore(bag: multiset<nat>, widest: nat, width: nat)
    requires Widest(bag, widest)
    ensures Widest(bag + multiset{width}, Max(widest, width))
  {
  }

  lemma AppendLine(lines: seq<CachedLine>, line: CachedLine, nextY: nat, height: int, counts: map<nat, nat>, widest: nat)
    requires Placed(lines, nextY) && Summed(lines, height, counts) && Widest(Widths(lines), widest)
    requires line.start == nextY
    ensures Placed(lines + [line], nextY + line.height)
    ensures Summed(lines + [line], height + line.height, Bump(counts, line.width))
    ensures Widest(Widths(lines + [line]), Max(widest, line.width))
  {
    assert (lines + [line])[..|lines|] == lines;
    BumpCounts(Widths(lines), counts, line.width);
    WidestMore(Widths(lines), widest, line.width);
  }

  /** Takes one occurrence of a width out of the histogram. */
  function Unbump(counts: map<nat, nat>, width: nat): map<nat, nat>
    requires width in counts && counts[width] > 0
  {
    if counts[width] == 1 then counts - {width} else counts[width := counts[width] - 1]
  }

  lemma UnbumpCounts(bag: multiset<nat>, counts: map<nat, nat>, width: nat)
    requires width in counts && counts[width] > 0 && Histogram(bag + multiset{width}, counts)
    ensures Histogram(bag, Unbump(counts, width))
  {
    assert forall w :: w != width ==> (bag + multiset{width})[w] == bag[w];
  }

  lemma UnbumpIs(counts: map<nat, nat>, width: nat)
    requires width in counts && counts[width] > 0
    ensures Unbump(counts, width) ==
            var less := counts[width := counts[width] - 1];
            if less[width] == 0 then less - {width} else less
  {
  }

  lemma RemoveLine(lines: seq<CachedLine>, height: int, counts: map<nat, nat>)
    requires lines != [] && Summed(lines, height, counts)
    ensures lines[0].width in counts && counts[lines[0].width] > 0
    ensures Summed(lines[1..], height - lines[0].height, Unbump(counts, lines[0].width))
  {
    DropFirst(lines);
    assert lines[0].width in Widths(lines);
    assert Widths(lines) == Widths(lines[1..]) + multiset{lines[0].width};
    UnbumpCounts(Widths(lines[1..]), counts, lines[0].width);
  }

  lemma WidestFromCounts(bag: multiset<nat>, counts: map<nat, nat>, widest: nat)
    requires Histogram(bag, counts)
    requires forall w :: w in counts ==> w <= widest
    requires if counts == map[] then widest == 0 else widest in counts
    ensures Widest(bag, widest)
  {
    if counts == map[] {
      assert forall w :: w !in bag;
    } else {
      assert widest in bag;
    }
  }

  /** Line i shows some row of the viewport between top and bottom. */
  ghost predicate Meets(lines: seq<CachedLine>, i: int, top: int, bottom: int) {
    0 <= i < |lines| && Total(lines[..i]) < bottom && Total(lines[..i]) + lines[i].height > top
  }

  /** The lines from start to end are exactly those the viewport meets. */
  ghost predicate ExactlyMet(lines: seq<CachedLine>, start: int, end: int, top: int, bottom: int) {
    forall i :: Meets(lines, i, top, bottom) <==> start <= i < end
  }

  lemma DropKeeps(rules: TextRules, wrap: bool, screen: nat, lines: seq<CachedLine>, shown: seq<Entry>,
                  nodes: seq<LogNode>, nextY: nat, count: nat)
    requires Shows(rules, wrap, screen, lines, shown) && Rendered(lines, nodes, wrap) && Placed(lines, nextY)
    requires count <= |lines|
    ensures Shows(rules, wrap, screen, lines[count..], shown[count..])
    ensures Rendered(lines[count..], nodes[count..], wrap)
    ensures Placed(lines[count..], if count == |lines| then 0 else nextY)
  {
  }

  lemma CountRange(count: int, length: nat)
    ensures 0 <= Min(Max(count, 0), length) <= length
  {
  }

  lemma MaxOfNatural(n: int)
    requires n >= 0
    ensures Max(n, 0) == n
  {
  }

  lemma SummedIsNatural(lines: seq<CachedLine>, height: int, counts: map<nat, nat>)
    requires Summed(lines, height, counts)
    ensures height >= 0
  {
  }

  lemma WidestIsCounted(lines: seq<CachedLine>, height: int, counts: map<nat, nat>, widest: nat)
    requires lines != [] && Summed(lines, height, counts) && Widest(Widths(lines), widest)
    ensures widest in counts && forall w :: w in counts ==> w <= widest
  {
    DropFirst(lines);
    assert lines[0].width in Widths(lines);
  }

  lemma SummedWidest(lines: seq<CachedLine>, height: int, counts: map<nat, nat>, widest: nat)
    requires Summed(lines, height, counts)
    requires forall w :: w in counts ==> w <= widest
    requires if counts == map[] then widest == 0 else widest in counts
    ensures Widest(Widths(lines), widest)
  {
    WidestFromCounts(Widths(lines), counts, widest);
  }

  /** Laying out one more line. */
  lemma RelayLine(rules: TextRules, wrap: bool, screen: nat, done: seq<CachedLine>, shown: seq<Entry>, nextY: nat,
                  line: CachedLine, entry: Entry)
    requires Shows(rules, wrap, screen, done, shown) && Placed(done, nextY)
    requires line.start == nextY && LineOk(rules, wrap, screen, line, entry)
    ensures Shows(rules, wrap, screen, done + [line], shown + [entry])
    ensures Placed(done + [line], nextY + line.height)
    ensures Total(done + [line]) == Total(done) + line.height
    ensures Widths(done + [line]) == Widths(done) + multiset{line.width}
  {
    assert (done + [line])[..|done|] == done;
  }

  lemma NewLineOk(rules: TextRules, wrap: bool, screen: nat, entry: Entry, start: nat)
    ensures var content := rules.format(entry);
            var visible := rules.visible(content);
            LineOk(rules, wrap, screen,
                   CachedLine(content, visible, rules.measure(visible), LineHeight(rules, wrap, screen, visible), start), entry)
  {
  }

  lemma ShowsMore(rules: TextRules, wrap: bool, screen: nat, lines: seq<CachedLine>, shown: seq<Entry>,
                  nodes: seq<LogNode>, line: CachedLine, entry: Entry)
    requires Shows(rules, wrap, screen, lines, shown) && Rendered(lines, nodes, wrap)
    requires LineOk(rules, wrap, screen, line, entry)
    ensures Shows(rules, wrap, screen, lines + [line], shown + [entry])
    ensures Rendered(lines + [line], nodes + [LogNode(line.content, wrap)], wrap)
  {
  }

  lemma WidthsPrefix(lines: seq<CachedLine>, index: nat)
    requires index < |lines|
    ensures Widths(lines[..index + 1]) == Widths(lines[..index]) + multiset{lines[index].width}
  {
    assert lines[..index + 1][..index] == lines[..index];
  }

  ghost predicate SameContent(a: seq<CachedLine>, b: seq<CachedLine>) {
    |a| <= |b| && forall i :: 0 <= i < |a| ==> a[i].content == b[i].content
  }

  lemma SameContentSnoc(a: seq<CachedLine>, line: CachedLine, b: seq<CachedLine>)
    requires SameContent(a, b) && |a| < |b| && line.content == b[|a|].content
    ensures SameContent(a + [line], b)
  {
  }

  lemma WasOk(rules: TextRules, wrap: bool, screen: nat, lines: seq<CachedLine>, shown: seq<Entry>, i: nat)
    requires Shows(rules, wrap, screen, lines, shown) && i < |lines|
    ensures i < |shown| && LineOk(rules, wrap, screen, lines[i], shown[i])
  {
  }

  /** Measuring a line for another layout changes only its height. */
  lemma LaidOk(rules: TextRules, wrap0: bool, screen0: nat, was: CachedLine, wrap: bool, screen: nat, line: CachedLine, entry: Entry)
    requires LineOk(rules, wrap0, screen0, was, entry)
    requires line == was.(start := line.start, height := LineHeight(rules, wrap, screen, was.visible))
    ensures LineOk(rules, wrap, screen, line, entry)
  {
  }

  lemma Resummed(was: seq<CachedLine>, lines: seq<CachedLine>, height0: int, height: int, counts: map<nat, nat>)
    requires Summed(was, height0, counts) && Widths(lines) == Widths(was) && height == Total(lines)
    ensures Summed(lines, height, counts)
  {
  }

  /** Relaying has treated the first index lines. */
  ghost predicate Relaying(rules: TextRules, wrap: bool, screen: nat, was: seq<CachedLine>, shown: seq<Entry>,
                           index: nat, lines: seq<CachedLine>, nextY: nat, height: int) {
    && index <= |lines| == |was| == |shown|
    && lines[index..] == was[index..]
    && Shows(rules, wrap, screen, lines[..index], shown[..index])
    && Placed(lines[..index], nextY)
    && height == Total(lines[..index])
    && Widths(lines[..index]) == Widths(was[..index])
    && SameContent(lines[..index], was)
  }

  lemma RelayStart(rules: TextRules, wrap0: bool, screen0: nat, wrap: bool, screen: nat,
                   was: seq<CachedLine>, shown: seq<Entry>)
    requires Shows(rules, wrap0, screen0, was, shown)
    ensures Relaying(rules, wrap, screen, was, shown, 0, was, 0, 0)
  {
    assert was[..0] == [] && shown[..0] == [];
  }

  lemma TakeNext<T>(lines: seq<T>, index: nat, item: T)
    requires index < |lines|
    ensures lines[index := item][..index + 1] == lines[..index] + [item]
    ensures lines[index := item][index + 1..] == lines[index..][1..]
    ensures lines[index..][0] == lines[index]
    ensures lines[..index + 1] == lines[..index] + [lines[index]]
  {
  }

  lemma RelayStep(rules: TextRules, wrap0: bool, screen0: nat, wrap: bool, screen: nat,
                  was: seq<CachedLine>, shown: seq<Entry>, index: nat,
                  lines: seq<CachedLine>, nextY: nat, height: int)
    requires Shows(rules, wrap0, screen0, was, shown)
    requires Relaying(rules, wrap, screen, was, shown, index, lines, nextY, height) && index < |lines|
    ensures var line := lines[index].(start := nextY, height := LineHeight(rules, wrap, screen, lines[index].visible));
            Relaying(rules, wrap, screen, was, shown, index + 1, lines[index := line], nextY + line.height, height + line.height)
  {
    var line := lines[index].(start := nextY, height := LineHeight(rules, wrap, screen, lines[index].visible));
    TakeNext(lines, index, line);
    TakeNext(was, index, was[index]);
    TakeNext(shown, index, shown[index]);
    assert lines[index] == was[index];
    hide *;
    WasOk(rules, wrap0, screen0, was, shown, index);
    LaidOk(rules, wrap0, screen0, was[index], wrap, screen, line, shown[index]);
    RelayedMore(rules, wrap, screen, was, shown, index, lines, nextY, height, line);
  }

  lemma RelayedMore(rules: TextRules, wrap: bool, screen: nat, was: seq<CachedLine>, shown: seq<Entry>, index: nat,
                    lines: seq<CachedLine>, nextY: nat, height: int, line: CachedLine)
    requires Relaying(rules, wrap, screen, was, shown, index, lines, nextY, height) && index < |lines|
    requires LineOk(rules, wrap, screen, line, shown[index]) && line.start == nextY
    requires line.width == was[index].width && line.content == was[index].content
    ensures Relaying(rules, wrap, screen, was, shown, index + 1, lines[index := line], nextY + line.height, height + line.height)
  {
    TakeNext(lines, index, line);
    TakeNext(was, index, was[index]);
    TakeNext(shown, index, shown[index]);
    RelayLine(rules, wrap, screen, lines[..index], shown[..index], nextY, line, shown[index]);
    WidthsPrefix(was, index);
    SameContentSnoc(lines[..index], line, was);
    hide Shows, Placed, Total, Widths, SameContent;
  }

  lemma RelayEnd(rules: TextRules, wrap: bool, screen: nat, was: seq<CachedLine>, shown: seq<Entry>,
                 lines: seq<CachedLine>, nextY: nat, height: int)
    requires Relaying(rules, wrap, screen, was, shown, |lines|, lines, nextY, height)
    ensures Shows(rules, wrap, screen, lines, shown) && Placed(lines, nextY) && height == Total(lines)
    ensures Widths(lines) == Widths(was) && |lines| == |was| && SameContent(lines, was)
  {
    assert lines[..|lines|] == lines && was[..|lines|] == was && shown[..|lines|] == shown;
  }

  lemma RenderedAgain(before: seq<CachedLine>, after: seq<CachedLine>, nodes: seq<LogNode>, wrap: bool)
    requires Rendered(before, nodes, wrap) && |after| == |before| && SameContent(after, before)
    ensures Rendered(after, nodes, wrap)
  {
  }

  class Pane {
    const rules: TextRules
    var wrap: bool
    var width: nat

    var lines: seq<CachedLine>
    var nodes: seq<LogNode>
    var nextY: nat
    var contentWidth: nat
    var contentHeight: int
    var widthCounts: map<nat, nat>

    /** The entries on display. */
    ghost var shown: seq<Entry>

    ghost predicate Valid()
      reads this
    {
      && Shows(rules, wrap, width, lines, shown)
      && Rendered(lines, nodes, wrap)
      && Placed(lines, nextY)
      && Summed(lines, contentHeight, widthCounts)
      && Widest(Widths(lines), contentWidth)
    }

    lemma Parts()
      requires Valid()
      ensures |lines| == |shown| == |nodes|
      ensures Shows(rules, wrap, width, lines, shown) && Rendered(lines, nodes, wrap) && Placed(lines, nextY)
      ensures Summed(lines, contentHeight, widthCounts) && Widest(Widths(lines), contentWidth)
    {
    }

    lemma Length()
      requires Valid()
      ensures |lines| == |shown|
    {
    }

    lemma Assemble()
      requires Shows(rules, wrap, width, lines, shown) && Rendered(lines, nodes, wrap) && Placed(lines, nextY)
      requires Summed(lines, contentHeight, widthCounts) && Widest(Widths(lines), contentWidth)
      ensures Valid()
    {
    }

    constructor (rules: TextRules, wrap: bool, width: nat)
      ensures Valid() && shown == [] && this.rules == rules && this.wrap == wrap && this.width == width
    {
      this.rules, this.wrap, this.width := rules, wrap, width;
      lines, nodes, shown := [], [], [];
      nextY, contentWidth, contentHeight, widthCounts := 0, 0, 0, map[];
    }

    method Clear()
      modifies this
      ensures Valid() && shown == [] && wrap == old(wrap) && width == old(width)
    {
      lines, nodes, shown := [], [], [];
      nextY, contentWidth, contentHeight, widthCounts := 0, 0, 0, map[];
    }

    method Append(entry: Entry)
      requires Valid()
      modifies this
      ensures Valid() && shown == old(shown) + [entry] && wrap == old(wrap) && width == old(width)
    {
      hide *;
      var content := rules.format(entry);
      var visible := rules.visible(content);
      NewLineOk(rules, wrap, width, entry, nextY);
      var line := CachedLine(content, visible, rules.measure(visible),
                             LineHeight(rules, wrap, width, visible), nextY);
      Parts();
      ShowsMore(rules, wrap, width, lines, shown, nodes, line, entry);
      AppendLine(lines, line, nextY, contentHeight, widthCounts, contentWidth);
      lines := lines + [line];
      nodes := nodes + [LogNode(content, wrap)];
      shown := shown + [entry];
      nextY := nextY + line.height;
      contentHeight := contentHeight + line.height;
      widthCounts := Bump(widthCounts, line.width);
      contentWidth := Max(contentWidth, line.width);
      Assemble();
    }

    /** Removes lines at the front; a count beyond the content removes all of it, a
        negative one nothing. */
    method Drop(count0: int)
      requires Valid()
      modifies this
      ensures Valid() && wrap == old(wrap) && width == old(width)
      ensures shown == old(shown)[Min(Max(count0, 0), |old(shown)|)..]
    {
      hide *;
      Parts();
      CountRange(count0, |lines|);
      var count := Min(Max(count0, 0), |lines|);
      if count == 0 {
        return;
      }
      DropKeeps(rules, wrap, width, lines, shown, nodes, nextY, count);
      nodes := nodes[count..];
      var maximumRemoved := ForgetFirst(count);
      lines := lines[count..];
      shown := shown[count..];
      if |lines| == 0 {
        nextY := 0;
      }
      if maximumRemoved {
        var widest := WidestCount();
        contentWidth := widest;
      }
      SummedWidest(lines, contentHeight, widthCounts, contentWidth);
      SummedIsNatural(lines, contentHeight, widthCounts);
      MaxOfNatural(contentHeight);
      contentHeight := Max(contentHeight, 0);
      Assemble();
    }

    /** Takes the first count lines out of the height and the histogram, and reports
        whether the widest line was among them. */
    method ForgetFirst(count: nat) returns (maximumRemoved: bool)
      requires 0 < count <= |lines|
      requires Summed(lines, contentHeight, widthCounts) && Widest(Widths(lines), contentWidth)
      modifies `contentHeight, `widthCounts
      ensures Summed(lines[count..], contentHeight, widthCounts)
      ensures forall w :: w in widthCounts ==> w <= contentWidth
      ensures maximumRemoved <==> contentWidth !in widthCounts
    {
      hide *;
      maximumRemoved := false;
      var index := 0;
      assert lines[0..] == lines;
      WidestIsCounted(lines, contentHeight, widthCounts, contentWidth);
      while index < count
        invariant 0 <= index <= count <= |lines|
        invariant Summed(lines[index..], contentHeight, widthCounts)
        invariant forall w :: w in widthCounts ==> w <= contentWidth
        invariant maximumRemoved <==> contentWidth !in widthCounts
      {
        var line := lines[index];
        RemoveLine(lines[index..], contentHeight, widthCounts);
        assert lines[index..][1..] == lines[index + 1..] && lines[index..][0] == line;
        UnbumpIs(widthCounts, line.width);
        contentHeight := contentHeight - line.height;
        ghost var before := widthCounts;
        widthCounts := widthCounts[line.width := widthCounts[line.width] - 1];
        if widthCounts[line.width] == 0 {
          widthCounts := widthCounts - {line.width};
          maximumRemoved := maximumRemoved || line.width == contentWidth;
        }
        index := index + 1;
      }
    }

    /** The recomputation over the histogram's keys. */
    method WidestCount() returns (widest: nat)
      ensures forall w :: w in widthCounts ==> w <= widest
      ensures if widthCounts == map[] then widest == 0 else widest in widthCounts
    {
      widest := 0;
      var left := widthCounts.Keys;
      while left != {}
        invariant left <= widthCounts.Keys
        invariant forall w :: w in widthCounts && w !in left ==> w <= widest
        invariant if left == widthCounts.Keys then widest == 0 else widest in widthCounts
        decreases left
      {
        var w :| w in left;
        widest := Max(widest, w);
        left := left - {w};
      }
    }

    /** recalculateCachedLogHeights: lays the lines out again for the current
        wrapping and width. */
    method Relayout(ghost wrap0: bool, ghost width0: nat)
      requires Shows(rules, wrap0, width0, lines, shown)
      modifies `lines, `nextY, `contentHeight
      ensures Shows(rules, wrap, width, lines, shown)
      ensures Placed(lines, nextY) && contentHeight == Total(lines) && Widths(lines) == Widths(old(lines))
      ensures |lines| == |old(lines)| && SameContent(lines, old(lines))
    {
      hide *;
      contentHeight := 0;
      nextY := 0;
      var index := 0;
      ghost var was := lines;
      RelayStart(rules, wrap0, width0, wrap, width, was, shown);
      while index < |lines|
        invariant 0 <= index <= |lines|
        invariant Relaying(rules, wrap, width, was, shown, index, lines, nextY, contentHeight)
      {
        var line := lines[index];
        RelayStep(rules, wrap0, width0, wrap, width, was, shown, index, lines, nextY, contentHeight);
        line := line.(start := nextY, height := LineHeight(rules, wrap, width, line.visible));
        lines := lines[index := line];
        nextY := nextY + line.height;
        contentHeight := contentHeight + line.height;
        index := index + 1;
      }
      RelayEnd(rules, wrap, width, was, shown, lines, nextY, contentHeight);
    }

    /** rebuildCachedLogPresentation after the wrapping changed. */
    method ToggleWrap()
      requires Valid()
      modifies this
      ensures Valid() && shown == old(shown) && wrap == !old(wrap) && width == old(width)
    {
      hide Shows, Placed, Widest, Histogram, Total, Widths, Contiguous, After;
      wrap := !wrap;
      Relayout(!wrap, width);
      var rebuilt: seq<LogNode> := [];
      var index := 0;
      while index < |lines|
        invariant 0 <= index <= |lines| && |rebuilt| == index
        invariant forall i :: 0 <= i < index ==> rebuilt[i] == LogNode(lines[i].content, wrap)
      {
        rebuilt := rebuilt + [LogNode(lines[index].content, wrap)];
        index := index + 1;
      }
      nodes := rebuilt;
    }

    method Resize(screen: nat)
      requires Valid()
      modifies this
      ensures Valid() && shown == old(shown) && wrap == old(wrap)
      ensures width == if screen == 0 then old(width) else screen
    {
      hide *;
      if screen == 0 {
        return;
      }
      Parts();
      var widthChanged := width != screen;
      ghost var before, contentHeight0 := width, contentHeight;
      width := screen;
      if widthChanged {
        ghost var was := lines;
        Relayout(wrap, before);
        RenderedAgain(was, lines, nodes, wrap);
        Resummed(was, lines, contentHeight0, contentHeight, widthCounts);
        Assemble();
      }
    }

    /** sort.Search over the lines: the first one that ends below y. */
    method FirstEndingBelow(y: int) returns (start: nat)
      requires Contiguous(lines)
      ensures start <= |lines|
      ensures forall i :: 0 <= i < start ==> lines[i].start + lines[i].height <= y
      ensures start < |lines| ==> lines[start].start + lines[start].height > y
    {
      var lo, hi := 0, |lines|;
      while lo < hi
        invariant 0 <= lo <= hi <= |lines|
        invariant forall i :: 0 <= i < lo ==> lines[i].start + lines[i].height <= y
        invariant hi < |lines| ==> lines[hi].start + lines[hi].height > y
      {
        var mid := (lo + hi) / 2;
        if lines[mid].start + lines[mid].height > y {
          hi := mid;
        } else {
          forall i | 0 <= i < mid ensures lines[i].start + lines[i].height <= y {
            StartsIncrease(lines, i, mid);
          }
          lo := mid + 1;
        }
      }
      start := lo;
    }

    /** Beyond the content the last line is returned; otherwise exactly the lines that
        meet the viewport. The origin is the height of everything above them. */
    method VisibleRange(offset: int, height: int) returns (start: nat, end: nat, origin: int)
      requires Valid()
      ensures lines == [] ==> start == end == origin == 0
      ensures lines != [] ==> start < end <= |lines| && origin == Total(lines[..start])
      ensures lines != [] && Max(offset, 0) < contentHeight ==>
                ExactlyMet(lines, start, end, Max(offset, 0), Max(offset, 0) + Max(height, 1))
      ensures lines != [] && Max(offset, 0) >= contentHeight ==> start == |lines| - 1 && end == |lines|
    {
      hide *;
      Parts();
      PlacedIs(lines, nextY);
      TotalIs(lines, contentHeight, widthCounts);
      if |lines| == 0 {
        return 0, 0, 0;
      }
      MaxAtLeast(offset, 0);
      MaxAtLeast(height, 1);
      var base := lines[0].start;
      var visibleStart := base + Max(offset, 0);
      var visibleEnd := visibleStart + Max(height, 1);
      start := FirstEndingBelow(visibleStart);
      ghost var found := start;
      if start == |lines| {
        start := |lines| - 1;
      }
      StartsInView(lines, found, start, visibleStart);
      end := start;
      while end < |lines| && lines[end].start < visibleEnd
        invariant start <= end <= |lines|
        invariant forall i :: start <= i < end ==> lines[i].start < visibleEnd
      {
        end := end + 1;
      }
      if end == start {
        // The fallback that would widen an empty range is unreachable.
        assert false;
      }
      origin := lines[start].start - base;
      StartIsTotal(lines, start);
      RangeIsExact(lines, found, start, end, Max(offset, 0), Max(height, 1));
    }
  }

  /** The first line in the viewport begins at or above its top row. */
  lemma StartsInView(lines: seq<CachedLine>, found: nat, start: nat, top: int)
    requires Contiguous(lines) && lines != [] && lines[0].start <= top
    requires found <= |lines| && start == if found == |lines| then |lines| - 1 else found
    requires forall i :: 0 <= i < found ==> lines[i].start + lines[i].height <= top
    ensures lines[start].start <= top
  {
    if start > 0 {
      assert lines[start - 1].start + lines[start - 1].height <= top;
      assert lines[start - 1 + 1].start == lines[start - 1].start + lines[start - 1].height;
    }
  }

  lemma RangeIsExact(lines: seq<CachedLine>, found: nat, start: nat, end: nat, top: nat, height: nat)
    requires Contiguous(lines) && lines != [] && height >= 1
    requires found <= |lines| && start == if found == |lines| then |lines| - 1 else found
    requires start < end <= |lines|
    requires forall i :: 0 <= i < found ==> lines[i].start + lines[i].height <= lines[0].start + top
    requires found < |lines| ==> lines[found].start + lines[found].height > lines[0].start + top
    requires forall i :: start <= i < end ==> lines[i].start < lines[0].start + top + height
    requires end < |lines| ==> lines[end].start >= lines[0].start + top + height
    ensures top < Total(lines) <==> found < |lines|
    ensures top < Total(lines) ==> ExactlyMet(lines, start, end, top, top + height)
    ensures top >= Total(lines) ==> start == |lines| - 1 && end == |lines|
  {
    WholeTotal(lines);
    if found < |lines| {
      if found < |lines| - 1 { StartsIncrease(lines, found, |lines| - 1); }
      var bottom := top + height;
      forall i ensures Meets(lines, i, top, bottom) <==> start <= i < end {
        if 0 <= i < |lines| {
          StartIsTotal(lines, i);
          if start < i { StartsIncrease(lines, start, i); }
          if end < i { StartsIncrease(lines, end, i); }
        }
      }
    } else {
      assert lines[|lines| - 1].start + lines[|lines| - 1].height <= lines[0].start + top;
    }
  }

  lemma PlacedIs(lines: seq<CachedLine>, nextY: nat)
    requires Placed(lines, nextY)
    ensures Contiguous(lines)
  {
  }

  lemma TotalIs(lines: seq<CachedLine>, height: int, counts: map<nat, nat>)
    requires Summed(lines, height, counts)
    ensures height == Total(lines)
  {
  }

  lemma MaxAtLeast(a: int, b: int)
    ensures Max(a, b) >= b
  {
  }

  lemma WholeTotal(lines: seq<CachedLine>)
    requires Contiguous(lines) && lines != []
    ensures Total(lines) == lines[|lines| - 1].start + lines[|lines| - 1].height - lines[0].start
  {
    StartIsTotal(lines, |lines| - 1);
  }
}
