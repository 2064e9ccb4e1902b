/** Greedy word wrapping of VRCanvasFactory.js (`wrapText`): the text is split
    at single spaces, and words are added to the current line, each followed
    by a space, until the measured width of the line with the next word would
    exceed the maximum; that word then starts a new line. The first word is
    never moved to a new line. The width measure (`measureText`) is a
    parameter. */
module TextWrap {

  /** The words `ws` joined with single spaces. */
  function JoinSpaces(ws: seq<string>): string
    requires |ws| >= 1
  {
    if |ws| == 1 then ws[0] else ws[0] + " " + JoinSpaces(ws[1..])
  }

  /** The pieces of `s` between single spaces, as JavaScript's
      `s.split(' ')`: two adjacent spaces give an empty piece between them,
      and the empty string gives one empty piece. */
  function Split(s: string): (r: seq<string>)
    ensures |r| >= 1
    ensures forall i | 0 <= i < |r| :: ' ' !in r[i]
    ensures JoinSpaces(r) == s
  {
    if s == [] then [""]
    else
      var rest := Split(s[1..]);
      if s[0] == ' ' then
        assert ([""] + rest)[1..] == rest;
        [""] + rest
      else
        var r := [[s[0]] + rest[0]] + rest[1..];
        assert r[1..] == rest[1..];
        assert forall i | 1 <= i < |r| :: r[i] == rest[i];
        assert s == [s[0]] + s[1..];
        r
  }

  /** Splitting a word without spaces in front of a string extends the first
      piece of the string by that word. */
  lemma {:induction false} SplitPrefix(w: string, s: string)
    requires ' ' !in w
    ensures Split(w + s) == [w + Split(s)[0]] + Split(s)[1..]
    decreases |w|
  {
    if w != [] {
      assert (w + s)[1..] == w[1..] + s;
      assert ' ' !in w[1..] by { assert forall c | c in w[1..] :: c in w; }
      SplitPrefix(w[1..], s);
      assert w[0] in w;
      var rest := Split(w[1..] + s);
      assert rest[1..] == Split(s)[1..];
      assert [w[0]] + (w[1..] + Split(s)[0]) == w + Split(s)[0];
    } else {
      assert w + s == s;
      assert w + Split(s)[0] == Split(s)[0];
      assert Split(s) == [Split(s)[0]] + Split(s)[1..];
    }
  }

  /** Splitting undoes joining: words without spaces, joined with single
      spaces, split back into the same words. */
  lemma {:induction false} SplitJoinSpaces(ws: seq<string>)
    requires |ws| >= 1 && forall i | 0 <= i < |ws| :: ' ' !in ws[i]
    ensures Split(JoinSpaces(ws)) == ws
    decreases |ws|
  {
    if |ws| == 1 {
      SplitPrefix(ws[0], "");
      assert ws[0] + "" == ws[0];
      assert Split("") == [""];
      assert ws == [ws[0]];
    } else {
      var tail := JoinSpaces(ws[1..]);
      SplitJoinSpaces(ws[1..]);
      assert JoinSpaces(ws) == ws[0] + (" " + tail);
      SplitPrefix(ws[0], " " + tail);
      assert (" " + tail)[1..] == tail;
      assert Split(" " + tail) == [""] + ws[1..];
      assert ([""] + ws[1..])[0] == "" && ([""] + ws[1..])[1..] == ws[1..];
      assert ws[0] + "" == ws[0];
      assert ws == [ws[0]] + ws[1..];
    }
  }

  /** Each word followed by one space, concatenated. */
  function Spaced(ws: seq<string>): string {
    if ws == [] then "" else Spaced(ws[..|ws| - 1]) + ws[|ws| - 1] + " "
  }

  lemma SpacedSnoc(ws: seq<string>, w: string)
    ensures Spaced(ws + [w]) == Spaced(ws) + w + " "
  {
    assert (ws + [w])[..|ws|] == ws;
  }

  /** Spacing distributes over concatenation. */
  lemma {:induction false} SpacedAppend(a: seq<string>, b: seq<string>)
    ensures Spaced(a + b) == Spaced(a) + Spaced(b)
    decreases |b|
  {
    if b == [] {
      assert a + b == a;
    } else {
      var b' := b[..|b| - 1];
      assert (a + b)[..|a + b| - 1] == a + b';
      SpacedAppend(a, b');
    }
  }

  /** The groups of words, one after the other. */
  function Flatten(gs: seq<seq<string>>): seq<string> {
    if gs == [] then [] else gs[0] + Flatten(gs[1..])
  }

  lemma {:induction false} FlattenSnoc(gs: seq<seq<string>>, g: seq<string>)
    ensures Flatten(gs + [g]) == Flatten(gs) + g
    decreases |gs|
  {
    if gs == [] {
      assert [] + [g] == [g];
      assert [g][1..] == [];
    } else {
      assert (gs + [g])[1..] == gs[1..] + [g];
      FlattenSnoc(gs[1..], g);
    }
  }

  /** The line each group of words is drawn as. */
  function Lines(gs: seq<seq<string>>): (r: seq<string>)
    ensures |r| == |gs|
    ensures forall k | 0 <= k < |gs| :: r[k] == Spaced(gs[k])
  {
    seq(|gs|, k requires 0 <= k < |gs| => Spaced(gs[k]))
  }

  /** The lines, concatenated. */
  function Concat(lines: seq<string>): string {
    if lines == [] then "" else lines[0] + Concat(lines[1..])
  }

  /** No word is lost or reordered: the lines of a grouping, concatenated,
      are all its words, each followed by one space. */
  lemma {:induction false} ConcatLines(gs: seq<seq<string>>)
    ensures Concat(Lines(gs)) == Spaced(Flatten(gs))
    decreases |gs|
  {
    if gs != [] {
      assert Lines(gs)[1..] == Lines(gs[1..]);
      ConcatLines(gs[1..]);
      SpacedAppend(gs[0], Flatten(gs[1..]));
    }
  }

  /** Every group holds at least one word. */
  ghost predicate NonEmptyGroups(gs: seq<seq<string>>) {
    forall k | 0 <= k < |gs| :: |gs[k]| >= 1
  }

  /** Within a group, every line that was tried while it was filled (each
      prefix of two or more words) fits the maximum width. */
  ghost predicate Fits(g: seq<string>, maxWidth: real, measure: string -> real) {
    forall j | 2 <= j <= |g| :: measure(Spaced(g[..j])) <= maxWidth
  }

  /** The line tried when the first word of `next` was added to `prev`. */
  function OverflowLine(prev: seq<string>, next: seq<string>): string
    requires |next| >= 1
  {
    Spaced(prev + [next[0]])
  }

  /** The width of the line tried, and found too wide, when group `k` was
      started. */
  function BreakWidth(gs: seq<seq<string>>, k: nat, measure: string -> real): real
    requires 1 <= k < |gs| && |gs[k]| >= 1
  {
    measure(OverflowLine(gs[k - 1], gs[k]))
  }

  /** The greedy rule: every group fits, and each group after the first
      starts exactly where adding its first word to the previous line
      overflowed the maximum width. */
  ghost predicate Greedy(gs: seq<seq<string>>, maxWidth: real, measure: string -> real) {
    && NonEmptyGroups(gs)
    && (forall k | 0 <= k < |gs| :: Fits(gs[k], maxWidth, measure))
    && (forall k | 1 <= k < |gs| :: BreakWidth(gs, k, measure) > maxWidth)
  }

  /** `gs` is the greedy wrapping of `words`. */
  ghost predicate IsGreedyWrap(words: seq<string>, maxWidth: real, measure: string -> real, gs: seq<seq<string>>) {
    |gs| >= 1 && Flatten(gs) == words && Greedy(gs, maxWidth, measure)
  }

  lemma FlattenNonEmpty(gs: seq<seq<string>>)
    requires NonEmptyGroups(gs) && gs != []
    ensures |Flatten(gs)| >= |gs[0]| >= 1
  {
  }

  lemma GreedyTail(gs: seq<seq<string>>, maxWidth: real, measure: string -> real)
    requires Greedy(gs, maxWidth, measure) && |gs| >= 1
    ensures Greedy(gs[1..], maxWidth, measure)
  {
    var t := gs[1..];
    forall k | 1 <= k < |t| ensures BreakWidth(t, k, measure) > maxWidth {
      assert t[k - 1] == gs[k] && t[k] == gs[k + 1];
      assert BreakWidth(t, k, measure) == BreakWidth(gs, k + 1, measure);
    }
  }

  /** In a greedy wrapping with more than one group, the line tried with the
      first word after the first group overflowed. */
  lemma FirstBreakOverflows(words: seq<string>, maxWidth: real, measure: string -> real, gs: seq<seq<string>>)
    requires IsGreedyWrap(words, maxWidth, measure, gs) && |gs[0]| < |words|
    ensures measure(Spaced(words[..|gs[0]| + 1])) > maxWidth
  {
    var l := |gs[0]|;
    assert words == gs[0] + Flatten(gs[1..]);
    assert Flatten(gs[1..]) != [];
    assert |gs| >= 2;
    FlattenNonEmpty(gs[1..]);
    assert Flatten(gs[1..]) == gs[1] + Flatten(gs[2..]) by { assert gs[1..][1..] == gs[2..]; }
    assert gs[1][0] == words[l];
    assert words[..l] == gs[0];
    assert words[..l + 1] == words[..l] + [words[l]];
    assert BreakWidth(gs, 1, measure) > maxWidth;
  }

  /** In a greedy wrapping, every line tried while the first group was filled
      fitted. */
  lemma FirstGroupFits(words: seq<string>, maxWidth: real, measure: string -> real, gs: seq<seq<string>>, j: nat)
    requires IsGreedyWrap(words, maxWidth, measure, gs) && 2 <= j <= |gs[0]|
    ensures measure(Spaced(words[..j])) <= maxWidth
  {
    assert words == gs[0] + Flatten(gs[1..]);
    assert words[..j] == gs[0][..j];
    assert Fits(gs[0], maxWidth, measure);
  }

  /** Of two greedy groupings of the same words, neither first group can be
      shorter: the word after the shorter one would have overflowed in one
      and fitted in the other. */
  lemma FirstGroupsAgree(words: seq<string>, maxWidth: real, measure: string -> real, g1: seq<seq<string>>, g2: seq<seq<string>>)
    requires IsGreedyWrap(words, maxWidth, measure, g1) && IsGreedyWrap(words, maxWidth, measure, g2)
    ensures g1[0] == g2[0]
  {
    var l1, l2 := |g1[0]|, |g2[0]|;
    assert words == g1[0] + Flatten(g1[1..]) && words == g2[0] + Flatten(g2[1..]);
    if l1 < l2 {
      FirstBreakOverflows(words, maxWidth, measure, g1);
      FirstGroupFits(words, maxWidth, measure, g2, l1 + 1);
      assert false;
    } else if l2 < l1 {
      FirstBreakOverflows(words, maxWidth, measure, g2);
      FirstGroupFits(words, maxWidth, measure, g1, l2 + 1);
      assert false;
    }
    assert g1[0] == words[..l1] && g2[0] == words[..l2];
  }

  /** There is only one greedy wrapping of a sequence of words. */
  lemma {:induction false} GreedyWrapUnique(words: seq<string>, maxWidth: real, measure: string -> real, g1: seq<seq<string>>, g2: seq<seq<string>>)
    requires IsGreedyWrap(words, maxWidth, measure, g1) && IsGreedyWrap(words, maxWidth, measure, g2)
    ensures g1 == g2
    decreases |words|
  {
    FirstGroupsAgree(words, maxWidth, measure, g1, g2);
    var rest := words[|g1[0]|..];
    assert Flatten(g1[1..]) == rest && Flatten(g2[1..]) == rest;
    if |g1| > 1 {
      FlattenNonEmpty(g1[1..]);
    }
    if |g2| > 1 {
      FlattenNonEmpty(g2[1..]);
    }
    assert |g1| == 1 <==> |g2| == 1;
    if |g1| == 1 {
      assert g1 == [g1[0]] && g2 == [g2[0]];
    } else {
      GreedyTail(g1, maxWidth, measure);
      GreedyTail(g2, maxWidth, measure);
      GreedyWrapUnique(rest, maxWidth, measure, g1[1..], g2[1..]);
      assert g1 == [g1[0]] + g1[1..] && g2 == [g2[0]] + g2[1..];
    }
  }

  /** The source's `if (b > a) a = b`. */
  function Max(a: real, b: real): (r: real)
    ensures r >= a && r >= b && (r == a || r == b)
  {
    if b > a then b else a
  }

  /** The widest of the overflowing lines tried at the breaks, or 0. */
  function MaxOverflow(gs: seq<seq<string>>, measure: string -> real): real
    requires NonEmptyGroups(gs)
  {
    if |gs| <= 1 then 0.0
    else Max(MaxOverflow(gs[..|gs| - 1], measure), BreakWidth(gs, |gs| - 1, measure))
  }

  /** The width of the last line tried: the overflowing one when the last
      word started a new line, the whole last line otherwise. */
  function LastTestWidth(gs: seq<seq<string>>, measure: string -> real): real
    requires NonEmptyGroups(gs) && |gs| >= 1
  {
    if |gs| >= 2 && |gs[|gs| - 1]| == 1 then BreakWidth(gs, |gs| - 1, measure)
    else measure(Spaced(gs[|gs| - 1]))
  }

  /** The width `wrapText` reports for a grouping. */
  function WrapWidth(gs: seq<seq<string>>, measure: string -> real): real
    requires NonEmptyGroups(gs) && |gs| >= 1
  {
    Max(MaxOverflow(gs, measure), LastTestWidth(gs, measure))
  }

  lemma {:induction false} MaxOverflowIsMax(gs: seq<seq<string>>, measure: string -> real)
    requires NonEmptyGroups(gs)
    ensures MaxOverflow(gs, measure) >= 0.0
    ensures forall k | 1 <= k < |gs| :: MaxOverflow(gs, measure) >= BreakWidth(gs, k, measure)
    ensures MaxOverflow(gs, measure) == 0.0
            || exists k | 1 <= k < |gs| :: MaxOverflow(gs, measure) == BreakWidth(gs, k, measure)
    decreases |gs|
  {
    if |gs| > 1 {
      var init := gs[..|gs| - 1];
      var last := |gs| - 1;
      MaxOverflowIsMax(init, measure);
      assert forall k | 1 <= k < |init| :: BreakWidth(init, k, measure) == BreakWidth(gs, k, measure) by {
        forall k | 1 <= k < |init| ensures BreakWidth(init, k, measure) == BreakWidth(gs, k, measure) {
          assert init[k - 1] == gs[k - 1] && init[k] == gs[k];
        }
      }
      var m := MaxOverflow(gs, measure);
      if m == BreakWidth(gs, last, measure) {
      } else if MaxOverflow(init, measure) != 0.0 {
        var k :| 1 <= k < |init| && MaxOverflow(init, measure) == BreakWidth(init, k, measure);
        assert m == BreakWidth(gs, k, measure);
      }
    }
  }

  /** The reported width is the largest of 0, the last line tried and every
      line that overflowed at a break, and it is one of them: it is never
      negative, and it comes from the overflowing test lines, not from the
      lines that were kept. */
  lemma WrapWidthIsMax(gs: seq<seq<string>>, measure: string -> real)
    requires NonEmptyGroups(gs) && |gs| >= 1
    ensures WrapWidth(gs, measure) >= 0.0
    ensures WrapWidth(gs, measure) >= LastTestWidth(gs, measure)
    ensures forall k | 1 <= k < |gs| :: WrapWidth(gs, measure) >= BreakWidth(gs, k, measure)
    ensures || WrapWidth(gs, measure) == 0.0
            || WrapWidth(gs, measure) == LastTestWidth(gs, measure)
            || exists k | 1 <= k < |gs| :: WrapWidth(gs, measure) == BreakWidth(gs, k, measure)
  {
    MaxOverflowIsMax(gs, measure);
  }

  /** Adding a word that fits to the last group keeps the grouping greedy,
      and leaves the breaks, and so the widest overflowing line, as they
      were. */
  lemma ExtendLast(gs: seq<seq<string>>, cur: seq<string>, w: string, maxWidth: real, measure: string -> real)
    requires Greedy(gs + [cur], maxWidth, measure) && |cur| >= 1
    requires measure(Spaced(cur + [w])) <= maxWidth
    ensures Greedy(gs + [cur + [w]], maxWidth, measure)
    ensures MaxOverflow(gs + [cur + [w]], measure) == MaxOverflow(gs + [cur], measure)
  {
    var a, b := gs + [cur], gs + [cur + [w]];
    assert forall k | 0 <= k < |gs| :: a[k] == b[k] == gs[k];
    ExtendedFits(cur, w, maxWidth, measure, a[|gs|]);
    assert Fits(b[|gs|], maxWidth, measure);
    forall k | 1 <= k < |b| ensures BreakWidth(b, k, measure) == BreakWidth(a, k, measure) {
      assert b[k - 1] == a[k - 1] && b[k][0] == a[k][0];
    }
    assert Greedy(a, maxWidth, measure);
    SameBreaksSameOverflow(b, a, measure);
  }

  /** Groupings with the same breaks have the same widest overflowing line. */
  lemma {:induction false} SameBreaksSameOverflow(a: seq<seq<string>>, b: seq<seq<string>>, measure: string -> real)
    requires NonEmptyGroups(a) && NonEmptyGroups(b) && |a| == |b|
    requires forall k | 1 <= k < |a| :: BreakWidth(a, k, measure) == BreakWidth(b, k, measure)
    ensures MaxOverflow(a, measure) == MaxOverflow(b, measure)
    decreases |a|
  {
    if |a| > 1 {
      var a', b' := a[..|a| - 1], b[..|b| - 1];
      forall k | 1 <= k < |a'| ensures BreakWidth(a', k, measure) == BreakWidth(b', k, measure) {
        assert a'[k - 1] == a[k - 1] && a'[k] == a[k] && b'[k - 1] == b[k - 1] && b'[k] == b[k];
        assert BreakWidth(a', k, measure) == BreakWidth(a, k, measure);
        assert BreakWidth(b', k, measure) == BreakWidth(b, k, measure);
      }
      SameBreaksSameOverflow(a', b', measure);
    }
  }

  /** A group that fits, extended by a word whose line fits, still fits. */
  lemma ExtendedFits(cur: seq<string>, w: string, maxWidth: real, measure: string -> real, last: seq<string>)
    requires last == cur && Fits(cur, maxWidth, measure) && measure(Spaced(cur + [w])) <= maxWidth
    ensures Fits(cur + [w], maxWidth, measure)
  {
    var g := cur + [w];
    forall j | 2 <= j <= |g| ensures measure(Spaced(g[..j])) <= maxWidth {
      if j <= |cur| {
        assert g[..j] == cur[..j];
      } else {
        assert g[..j] == g;
      }
    }
  }

  /** Starting a new group with a word whose addition overflowed the last
      line keeps the grouping greedy, and that overflowing line joins the
      ones the width is taken from. */
  lemma StartGroup(gs: seq<seq<string>>, cur: seq<string>, w: string, maxWidth: real, measure: string -> real)
    requires Greedy(gs + [cur], maxWidth, measure) && |cur| >= 1
    requires measure(Spaced(cur + [w])) > maxWidth
    ensures Greedy((gs + [cur]) + [[w]], maxWidth, measure)
    ensures MaxOverflow((gs + [cur]) + [[w]], measure)
            == Max(MaxOverflow(gs + [cur], measure), measure(Spaced(cur + [w])))
  {
    var a := gs + [cur];
    var b := a + [[w]];
    assert forall k | 0 <= k < |a| :: b[k] == a[k];
    assert Fits([w], maxWidth, measure);
    assert b[..|b| - 1] == a;
    assert BreakWidth(b, |b| - 1, measure) == measure(Spaced(cur + [w]));
    assert Greedy(a, maxWidth, measure);
    forall k | 1 <= k < |a| ensures BreakWidth(b, k, measure) == BreakWidth(a, k, measure) {
      assert b[k - 1] == a[k - 1] && b[k] == a[k];
    }
  }

  /** The state of `wrapText` after its first `n` words (`n >= 1`): the
      finished groups and the current one are a greedy wrapping of those
      words, `line` is the current group, `lineSet` the finished lines,
      `maxw` the widest overflowing line so far and `testWidth` the width of
      the last line tried. */
  ghost predicate WrapInvariant(words: seq<string>, n: nat, maxWidth: real, measure: string -> real,
                                groups: seq<seq<string>>, cur: seq<string>,
                                line: string, lineSet: seq<string>, maxw: real, testWidth: real)
  {
    && 1 <= n <= |words| && |cur| >= 1
    && Flatten(groups + [cur]) == words[..n]
    && Greedy(groups + [cur], maxWidth, measure)
    && line == Spaced(cur) && lineSet == Lines(groups)
    && maxw == MaxOverflow(groups + [cur], measure)
    && testWidth == LastTestWidth(groups + [cur], measure)
  }

  /** `lineSet` and `width` are the lines and the reported width of a greedy
      wrapping of `words`. */
  ghost predicate WrapsGreedily(words: seq<string>, maxWidth: real, measure: string -> real,
                                lineSet: seq<string>, width: real)
  {
    exists gs :: IsGreedyWrap(words, maxWidth, measure, gs) && lineSet == Lines(gs) && width == WrapWidth(gs, measure)
  }

  lemma FirstStep(words: seq<string>, maxWidth: real, measure: string -> real)
    requires |words| >= 1
    ensures WrapInvariant(words, 1, maxWidth, measure, [], [words[0]], "" + words[0] + " ", [], 0.0,
                          measure("" + words[0] + " "))
  {
    var gs := [] + [[words[0]]];
    assert gs == [[words[0]]];
    assert Flatten(gs) == [words[0]] by { assert gs[1..] == []; }
    assert words[..1] == [words[0]];
    SpacedSnoc([], words[0]);
    assert [] + [words[0]] == [words[0]];
  }

  /** The words and spacing when word `n` is added to the current line. */
  lemma ContinueLine(words: seq<string>, n: nat, groups: seq<seq<string>>, cur: seq<string>, line: string)
    requires n < |words| && Flatten(groups + [cur]) == words[..n] && line == Spaced(cur)
    ensures Flatten(groups + [cur + [words[n]]]) == words[..n + 1]
    ensures Spaced(cur + [words[n]]) == line + words[n] + " "
  {
    SpacedSnoc(cur, words[n]);
    FlattenSnoc(groups, cur + [words[n]]);
    FlattenSnoc(groups, cur);
    assert words[..n + 1] == words[..n] + [words[n]];
  }

  lemma FitStep(words: seq<string>, n: nat, maxWidth: real, measure: string -> real,
                groups: seq<seq<string>>, cur: seq<string>,
                line: string, lineSet: seq<string>, maxw: real, testWidth: real)
    requires WrapInvariant(words, n, maxWidth, measure, groups, cur, line, lineSet, maxw, testWidth)
    requires n < |words| && measure(line + words[n] + " ") <= maxWidth
    ensures WrapInvariant(words, n + 1, maxWidth, measure, groups, cur + [words[n]],
                          line + words[n] + " ", lineSet, maxw, measure(line + words[n] + " "))
  {
    ContinueLine(words, n, groups, cur, line);
    ExtendLast(groups, cur, words[n], maxWidth, measure);
    var gs := groups + [cur + [words[n]]];
    assert gs[|gs| - 1] == cur + [words[n]];
  }

  /** The words, spacing and finished lines when word `n` starts a new
      line. */
  lemma StartLine(words: seq<string>, n: nat, groups: seq<seq<string>>, cur: seq<string>,
                  line: string, lineSet: seq<string>)
    requires n < |words| && Flatten(groups + [cur]) == words[..n]
    requires line == Spaced(cur) && lineSet == Lines(groups)
    ensures Flatten((groups + [cur]) + [[words[n]]]) == words[..n + 1]
    ensures Spaced([words[n]]) == words[n] + " "
    ensures Spaced(cur + [words[n]]) == line + words[n] + " "
    ensures Lines(groups + [cur]) == lineSet + [line]
  {
    SpacedSnoc(cur, words[n]);
    FlattenSnoc(groups + [cur], [words[n]]);
    assert words[..n + 1] == words[..n] + [words[n]];
    SpacedSnoc([], words[n]);
    assert [] + [words[n]] == [words[n]];
  }

  lemma BreakStep(words: seq<string>, n: nat, maxWidth: real, measure: string -> real,
                  groups: seq<seq<string>>, cur: seq<string>,
                  line: string, lineSet: seq<string>, maxw: real, testWidth: real)
    requires WrapInvariant(words, n, maxWidth, measure, groups, cur, line, lineSet, maxw, testWidth)
    requires n < |words| && measure(line + words[n] + " ") > maxWidth
    ensures WrapInvariant(words, n + 1, maxWidth, measure, groups + [cur], [words[n]],
                          words[n] + " ", lineSet + [line],
                          Max(maxw, measure(line + words[n] + " ")), measure(line + words[n] + " "))
  {
    StartLine(words, n, groups, cur, line, lineSet);
    StartGroup(groups, cur, words[n], maxWidth, measure);
    var gs := (groups + [cur]) + [[words[n]]];
    assert gs[|gs| - 2] == cur && gs[|gs| - 1] == [words[n]];
    assert BreakWidth(gs, |gs| - 1, measure) == measure(line + words[n] + " ");
  }

  lemma LastStep(words: seq<string>, maxWidth: real, measure: string -> real,
                 groups: seq<seq<string>>, cur: seq<string>,
                 line: string, lineSet: seq<string>, maxw: real, testWidth: real)
    requires WrapInvariant(words, |words|, maxWidth, measure, groups, cur, line, lineSet, maxw, testWidth)
    ensures IsGreedyWrap(words, maxWidth, measure, groups + [cur])
    ensures lineSet + [line] == Lines(groups + [cur])
    ensures Max(maxw, testWidth) == WrapWidth(groups + [cur], measure)
  {
    assert words[..|words|] == words;
    assert Lines(groups + [cur]) == Lines(groups) + [line];
  }

  /** The loop of `wrapText` over the words: after it, the words are split
      into finished lines `lineSet` and the current `line`, `maxw` is the
      widest line that overflowed and `testWidth` the width of the last line
      tried, and these are the state of a greedy wrapping of all the words. */
  method WrapWords(words: seq<string>, maxWidth: real, measure: string -> real)
    returns (line: string, lineSet: seq<string>, maxw: real, testWidth: real,
             ghost groups: seq<seq<string>>, ghost cur: seq<string>)
    requires |words| >= 1
    ensures WrapInvariant(words, |words|, maxWidth, measure, groups, cur, line, lineSet, maxw, testWidth)
  {
    line := "";
    lineSet := [];
    maxw := 0.0;
    testWidth := 0.0;
    groups, cur := [], [];
    var n := 0;
    while n < |words|
      invariant 0 <= n <= |words|
      invariant n == 0 ==> line == "" && lineSet == [] && maxw == 0.0
      invariant n >= 1 ==> WrapInvariant(words, n, maxWidth, measure, groups, cur, line, lineSet, maxw, testWidth)
    {
      ghost var previousWidth := testWidth;
      var testLine := line + words[n] + " ";
      testWidth := measure(testLine);
      if testWidth > maxWidth && n > 0 {
        BreakStep(words, n, maxWidth, measure, groups, cur, line, lineSet, maxw, previousWidth);
        if testWidth > maxw {
          maxw := testWidth;
        }
        lineSet := lineSet + [line];
        line := words[n] + " ";
        groups, cur := groups + [cur], [words[n]];
      } else {
        if n == 0 {
          FirstStep(words, maxWidth, measure);
          groups, cur := [], [words[0]];
        } else {
          FitStep(words, n, maxWidth, measure, groups, cur, line, lineSet, maxw, previousWidth);
          cur := cur + [words[n]];
        }
        line := testLine;
      }
      n := n + 1;
    }
  }

  /** Wraps `text` into lines no wider than `maxWidth` where possible, as
      `wrapText` does, and returns the lines and the width it reports. The
      lines are the greedy wrapping of the words of `text` (there is only
      one, by `GreedyWrapUnique`); there is always at least one line; the
      lines, concatenated, are the words each followed by one space; every
      line ends with a space; the first line starts with the first word. */
  method WrapText(text: string, maxWidth: real, measure: string -> real) returns (lineSet: seq<string>, maxw: real)
    ensures WrapsGreedily(Split(text), maxWidth, measure, lineSet, maxw)
    ensures |lineSet| >= 1
    ensures Concat(lineSet) == Spaced(Split(text))
    ensures forall i | 0 <= i < |lineSet| :: |lineSet[i]| >= 1 && lineSet[i][|lineSet[i]| - 1] == ' '
    ensures |lineSet[0]| > |Split(text)[0]| && lineSet[0][..|Split(text)[0]| + 1] == Split(text)[0] + " "
  {
    var words := Split(text);
    var line, testWidth;
    ghost var groups, cur;
    line, lineSet, maxw, testWidth, groups, cur := WrapWords(words, maxWidth, measure);
    WrapResult(text, maxWidth, measure, groups, cur, line, lineSet, maxw, testWidth);
    if testWidth > maxw {
      maxw := testWidth;
    }
    lineSet := lineSet + [line];
  }

  /** The last line pushed after the loop completes the greedy wrapping, and
      the width reported is its widest line. */
  lemma WrapResult(text: string, maxWidth: real, measure: string -> real,
                   groups: seq<seq<string>>, cur: seq<string>,
                   line: string, lineSet: seq<string>, maxw: real, testWidth: real)
    requires WrapInvariant(Split(text), |Split(text)|, maxWidth, measure, groups, cur, line, lineSet, maxw, testWidth)
    ensures WrapsGreedily(Split(text), maxWidth, measure, lineSet + [line], Max(maxw, testWidth))
    ensures |lineSet + [line]| >= 1
    ensures Concat(lineSet + [line]) == Spaced(Split(text))
    ensures forall i | 0 <= i < |lineSet + [line]| ::
              |(lineSet + [line])[i]| >= 1 && (lineSet + [line])[i][|(lineSet + [line])[i]| - 1] == ' '
    ensures |(lineSet + [line])[0]| > |Split(text)[0]|
            && (lineSet + [line])[0][..|Split(text)[0]| + 1] == Split(text)[0] + " "
  {
    var words := Split(text);
    LastStep(words, maxWidth, measure, groups, cur, line, lineSet, maxw, testWidth);
    WrapProperties(words, maxWidth, measure, groups + [cur]);
  }

  /** What follows for the lines of any greedy wrapping. */
  lemma WrapProperties(words: seq<string>, maxWidth: real, measure: string -> real, gs: seq<seq<string>>)
    requires IsGreedyWrap(words, maxWidth, measure, gs)
    ensures |Lines(gs)| >= 1
    ensures Concat(Lines(gs)) == Spaced(words)
    ensures forall i | 0 <= i < |gs| :: |Lines(gs)[i]| >= 1 && Lines(gs)[i][|Lines(gs)[i]| - 1] == ' '
    ensures |Lines(gs)[0]| > |words[0]| && Lines(gs)[0][..|words[0]| + 1] == words[0] + " "
  {
    ConcatLines(gs);
    FlattenNonEmpty(gs);
    var g := gs[0];
    assert words[0] == g[0];
    SpacedAppend([g[0]], g[1..]);
    assert [g[0]] + g[1..] == g;
    assert Spaced([g[0]]) == words[0] + " " by {
      assert [g[0]][..0] == [];
    }
  }
}
