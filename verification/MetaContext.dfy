/**
  The update `roadmap_status` makes to `.claude/meta-context.md`: the first
  "Próximas Prioridades" section, up to the next `##` heading or the end of
  the text, is replaced by a fresh list whose first item is the title of the
  current phase.
 */
module MetaContext {
  import opened Wrappers
  import opened Text

  /** The heading that opens the section. */
  const Anchor: string := "## Próximas Prioridades (Top 3)"

  /** What follows the heading in the new section. */
  function Items(title: string): string
  {
    "\n1. **" + title + "** - Continuar desarrollo actual\n"
    + "2. **Testing Completo** - " + "Implementar cobertura 80%+\n"
    + "3. **Optimización UX** - " + "Finalizar responsividad móvil\n\n"
  }

  /** The new section. */
  function Section(title: string): string
  {
    Anchor + Items(title)
  }

  /** Where `[\s\S]*?(?=##|$)` stops when it starts at `from`: the first index
      where `##` begins, or the end of the text (`$` without the multiline
      flag). */
  function BlockEnd(s: string, from: nat): (j: nat)
    requires from <= |s|
    decreases |s| - from
    ensures from <= j <= |s|
    ensures j == |s| || OccursAt(s, "##", j)
    ensures forall k :: from <= k < j ==> !OccursAt(s, "##", k)
  {
    if from == |s| || OccursAt(s, "##", from) then from else BlockEnd(s, from + 1)
  }

  /** `metaContext.replace(/## Próximas Prioridades \(Top 3\)[\s\S]*?(?=##|$)/, section)`:
      without the `g` flag only the first match is replaced. */
  function Rewrite(s: string, title: string): string
  {
    match IndexFrom(s, Anchor, 0)
    case None => s
    case Some(i) => s[..i] + Section(title) + s[BlockEnd(s, i + |Anchor|)..]
  }

  /** A text without the heading is left as it is. */
  lemma NoAnchorNoChange(s: string, title: string)
    requires !Contains(s, Anchor)
    ensures Rewrite(s, title) == s
  {
    ContainsIffFound(s, Anchor);
  }

  /** The lazy match stops at the first `##` after `from`, or at the end. */
  lemma BlockEndIsFirstHeading(s: string, from: nat, j: nat)
    requires from <= j <= |s|
    requires j == |s| || OccursAt(s, "##", j)
    requires forall k :: from <= k < j ==> !OccursAt(s, "##", k)
    ensures BlockEnd(s, from) == j
  {
  }

  /** The rewrite in terms of where things are: if the first heading starts
      at i and the first `##` after it (or the end of the text) is at j, the
      text before i and from j on is kept byte for byte and the new section
      sits between them. */
  lemma RewriteSplices(s: string, title: string, i: nat, j: nat)
    requires OccursAt(s, Anchor, i) && forall k :: 0 <= k < i ==> !OccursAt(s, Anchor, k)
    requires i + |Anchor| <= j <= |s|
    requires j == |s| || OccursAt(s, "##", j)
    requires forall k :: i + |Anchor| <= k < j ==> !OccursAt(s, "##", k)
    ensures Rewrite(s, title) == s[..i] + Section(title) + s[j..]
  {
    IndexIsFirst(s, Anchor, i);
    BlockEndIsFirstHeading(s, i + |Anchor|, j);
  }

  // The three facts below are about one literal each. They are kept apart so
  // that each is checked on its own, which keeps ItemsWithoutHash cheap.

  lemma FirstItemHashFree()
    ensures '#' !in "\n1. **" && '#' !in "** - Continuar desarrollo actual\n"
  {
  }

  lemma SecondItemHashFree()
    ensures '#' !in "2. **Testing Completo** - " && '#' !in "Implementar cobertura 80%+\n"
  {
  }

  lemma ThirdItemHashFree()
    ensures '#' !in "3. **Optimización UX** - " && '#' !in "Finalizar responsividad móvil\n\n"
  {
  }

  /** The new section holds no '#' after its heading when the title holds
      none. */
  lemma ItemsWithoutHash(title: string)
    requires '#' !in title
    ensures forall k :: 0 <= k < |Items(title)| ==> Items(title)[k] != '#'
  {
    FirstItemHashFree();
    SecondItemHashFree();
    ThirdItemHashFree();
    var items := Items(title);
    forall k | 0 <= k < |items| ensures items[k] != '#' {
      assert items[k] in items;
    }
  }

  /** The text the rewrite produces when the section starts at i and the kept
      suffix at j. */
  function Spliced(s: string, title: string, i: nat, j: nat): string
    requires i <= j <= |s|
  {
    s[..i] + Section(title) + s[j..]
  }

  /** In the spliced text the new heading is still the first one. */
  lemma AnchorStaysFirst(s: string, title: string, i: nat, j: nat)
    requires OccursAt(s, Anchor, i) && forall k :: 0 <= k < i ==> !OccursAt(s, Anchor, k)
    requires i + |Anchor| <= j <= |s|
    ensures var r := Spliced(s, title, i, j);
      OccursAt(r, Anchor, i) && forall k :: 0 <= k < i ==> !OccursAt(r, Anchor, k)
  {
    var r := Spliced(s, title, i, j);
    var sec := Section(title);
    assert r[i..i + |Anchor|] == sec[..|Anchor|] == Anchor;
    assert r[..i + |Anchor|] == s[..i + |Anchor|];
    forall k | 0 <= k < i ensures !OccursAt(r, Anchor, k) {
      assert !OccursAt(s, Anchor, k);
      assert r[k..k + |Anchor|] == r[..i + |Anchor|][k..k + |Anchor|];
      assert s[k..k + |Anchor|] == s[..i + |Anchor|][k..k + |Anchor|];
    }
  }

  /** In the spliced text the first `##` after the new heading, or the end,
      is where the kept suffix begins. */
  lemma SectionRunsToSuffix(s: string, title: string, i: nat, j: nat)
    requires '#' !in title
    requires i + |Anchor| <= j <= |s|
    requires j == |s| || OccursAt(s, "##", j)
    ensures var r := Spliced(s, title, i, j);
      var e := i + |Section(title)|;
      && e <= |r|
      && (e == |r| || OccursAt(r, "##", e))
      && (forall k :: i + |Anchor| <= k < e ==> !OccursAt(r, "##", k))
  {
    var r := Spliced(s, title, i, j);
    var items := Items(title);
    var e := i + |Section(title)|;
    ItemsWithoutHash(title);
    forall k | i + |Anchor| <= k < e ensures !OccursAt(r, "##", k) {
      assert r[k] == items[k - i - |Anchor|];
    }
    assert r[e..] == s[j..];
    if j < |s| {
      assert r[e..e + 2] == s[j..j + 2];
    }
  }

  /** Rewriting a second time with the same title changes nothing: the new
      section is again the first one, and it runs up to the kept suffix. */
  lemma RewriteIdempotent(s: string, title: string)
    requires '#' !in title
    ensures Rewrite(Rewrite(s, title), title) == Rewrite(s, title)
  {
    match IndexFrom(s, Anchor, 0)
    case None =>
    case Some(i) =>
      var j := BlockEnd(s, i + |Anchor|);
      var r := Spliced(s, title, i, j);
      assert Rewrite(s, title) == r;
      AnchorStaysFirst(s, title, i, j);
      SectionRunsToSuffix(s, title, i, j);
      var e := i + |Section(title)|;
      RewriteSplices(r, title, i, e);
      SpliceAgain(s, title, i, j);
  }

  /** Splicing the same section over the spliced section gives the same text. */
  lemma SpliceAgain(s: string, title: string, i: nat, j: nat)
    requires i <= j <= |s|
    ensures var r := Spliced(s, title, i, j);
      Spliced(r, title, i, i + |Section(title)|) == r
  {
    var r := Spliced(s, title, i, j);
    var e := i + |Section(title)|;
    assert r[..i] == s[..i];
    assert r[i..e] == Section(title);
    assert r[e..] == s[j..];
    assert r == r[..i] + r[i..e] + r[e..];
  }
}
