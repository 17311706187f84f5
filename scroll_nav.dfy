/**
 * The active-section tracker: which category section is current at a scroll position, and how
 * the navigation links are marked with `aria-current` accordingly.
 */
module ScrollNav {
  import opened Text

  /** How far above a section's top the scroll position may stay while the section counts as reached. */
  const Lookahead: int := 60

  /** A section of the page: its id and the offset of its top from the top of the page. */
  datatype SectionPos = SectionPos(id: string, top: int)

  /** A navigation link: its href and its aria-current attribute (None while it has none). */
  datatype NavLink = NavLink(href: string, ariaCurrent: Option<string>)

  predicate Reached(section: SectionPos, scrollY: int) {
    scrollY >= section.top - Lookahead
  }

  /** The index of the last section, in document order, that the scroll position has reached. */
  function LastReached(sections: seq<SectionPos>, scrollY: int): (r: Option<nat>)
    ensures r.Some? ==> r.value < |sections| && Reached(sections[r.value], scrollY)
  {
    if sections == [] then None
    else if Reached(sections[|sections| - 1], scrollY) then Some(|sections| - 1)
    else LastReached(sections[..|sections| - 1], scrollY)
  }

  /** The id of the current section, or "" when the scroll position has reached none. */
  function CurrentSection(sections: seq<SectionPos>, scrollY: int): (r: string)
    ensures r == "" || exists i :: 0 <= i < |sections| && Reached(sections[i], scrollY) && sections[i].id == r
  {
    match LastReached(sections, scrollY)
    case Some(i) => sections[i].id
    case None => ""
  }

  /** `s.slice(1)`: the string without its first character; "" stays "". */
  function Slice1(s: string): (r: string)
    ensures |s| > 0 ==> s == [s[0]] + r
    ensures |s| == 0 ==> r == ""
  {
    if |s| == 0 then "" else s[1..]
  }

  /** A link after marking: "page" when its href names the current section, "" otherwise. */
  function Mark(link: NavLink, current: string): NavLink {
    link.(ariaCurrent := Some(if Slice1(link.href) == current then "page" else ""))
  }

  /** All links after marking. Every link keeps its href and carries the attribute with one of two
      values: "page" exactly when its href without the first character is the current id. */
  function Marked(links: seq<NavLink>, current: string): (r: seq<NavLink>)
    ensures |r| == |links|
    ensures forall i :: 0 <= i < |r| ==> r[i].href == links[i].href
    ensures forall i :: 0 <= i < |r| ==> r[i].ariaCurrent == Some("page") || r[i].ariaCurrent == Some("")
    ensures forall i :: 0 <= i < |r| ==> (r[i].ariaCurrent == Some("page") <==> Slice1(links[i].href) == current)
  {
    seq(|links|, i requires 0 <= i < |links| => Mark(links[i], current))
  }

  /** Link i is marked "page" exactly when section i is the last one reached. */
  predicate MarksLastReached(marked: seq<NavLink>, sections: seq<SectionPos>, scrollY: int) {
    forall i :: 0 <= i < |marked| ==>
      (marked[i].ariaCurrent == Some("page") <==> LastReached(sections, scrollY) == Some(i))
  }

  // ---- the selection rule ----

  /** The last-reached index is exactly the section that is reached and has no reached section
      after it; there is none exactly when no section is reached. */
  lemma {:induction false} LastReachedSpec(sections: seq<SectionPos>, scrollY: int)
    ensures LastReached(sections, scrollY).None? <==>
            forall j :: 0 <= j < |sections| ==> !Reached(sections[j], scrollY)
    ensures LastReached(sections, scrollY).Some? ==>
            var i := LastReached(sections, scrollY).value;
            Reached(sections[i], scrollY) &&
            forall j :: i < j < |sections| ==> !Reached(sections[j], scrollY)
  {
    if sections != [] {
      var n := |sections| - 1;
      if !Reached(sections[n], scrollY) {
        var init := sections[..n];
        LastReachedSpec(init, scrollY);
        assert forall j :: 0 <= j < n ==> init[j] == sections[j];
      }
    }
  }

  function IndexOrMinusOne(r: Option<nat>): int {
    match r
    case Some(i) => i
    case None => -1
  }

  /** Scrolling further down never moves the current section back up: the set of reached
      sections only grows. */
  lemma LastReachedMonotone(sections: seq<SectionPos>, y1: int, y2: int)
    requires y1 <= y2
    ensures IndexOrMinusOne(LastReached(sections, y1)) <= IndexOrMinusOne(LastReached(sections, y2))
  {
    LastReachedSpec(sections, y1);
    LastReachedSpec(sections, y2);
    if LastReached(sections, y1).Some? {
      var i := LastReached(sections, y1).value;
      assert Reached(sections[i], y2);
    }
  }

  /** The boundary is inclusive: with tops 0, 500 and 1200 the third section is current from
      scroll position 1140 on, and the first already at the top of the page. */
  lemma LookaheadBoundary()
    ensures var s := [SectionPos("a", 0), SectionPos("b", 500), SectionPos("c", 1200)];
            && CurrentSection(s, 10) == "a"
            && CurrentSection(s, 550) == "b"
            && CurrentSection(s, 1139) == "b"
            && CurrentSection(s, 1140) == "c"
            && CurrentSection(s, 1150) == "c"
            && CurrentSection(s, -61) == ""
  {
    var s := [SectionPos("a", 0), SectionPos("b", 500), SectionPos("c", 1200)];
    assert s[..2] == [SectionPos("a", 0), SectionPos("b", 500)];
    assert s[..2][..1] == [SectionPos("a", 0)];
    assert s[..2][..1][..0] == [];
    assert LastReached(s[..2][..1], 10) == Some(0);
    assert LastReached(s[..2], 10) == Some(0);
    assert LastReached(s[..2][..1][..0], -61) == None;
    assert LastReached(s[..2][..1], -61) == None;
    assert LastReached(s[..2], -61) == None;
  }

  /** Marking leaves at most one link at "page" when no two hrefs name the same section. */
  lemma AtMostOnePage(links: seq<NavLink>, current: string)
    requires forall i, j :: 0 <= i < j < |links| ==> Slice1(links[i].href) != Slice1(links[j].href)
    ensures forall i, j ::
              (0 <= i < |links| && 0 <= j < |links| &&
               Marked(links, current)[i].ariaCurrent == Some("page") &&
               Marked(links, current)[j].ariaCurrent == Some("page")) ==> i == j
  {
  }

  /** When no section is reached, no link is marked, unless its href is just "#" (or empty). */
  lemma NoPageBeforeFirstSection(sections: seq<SectionPos>, scrollY: int, links: seq<NavLink>)
    requires LastReached(sections, scrollY).None?
    requires forall i :: 0 <= i < |links| ==> |links[i].href| > 1
    ensures forall i :: 0 <= i < |links| ==>
              Marked(links, CurrentSection(sections, scrollY))[i].ariaCurrent == Some("")
  {
  }

  /** Each scroll event overwrites every marker, so the links after a later marking do not depend
      on any earlier one. */
  lemma MarkedForgetsPrevious(links: seq<NavLink>, earlier: string, later: string)
    ensures Marked(Marked(links, earlier), later) == Marked(links, later)
  {
    var once := Marked(links, earlier);
    assert forall i :: 0 <= i < |links| ==> Marked(once, later)[i] == Marked(links, later)[i];
  }

  // ---- updateActiveLink ----

  /** The first loop of updateActiveLink: every reached section overwrites the current id. */
  method SelectSection(sections: seq<SectionPos>, scrollY: int) returns (current: string)
    ensures current == CurrentSection(sections, scrollY)
  {
    current := "";
    for i := 0 to |sections|
      invariant current == CurrentSection(sections[..i], scrollY)
    {
      assert sections[..i + 1][..i] == sections[..i];
      if scrollY >= sections[i].top - Lookahead {
        current := sections[i].id;
      }
    }
    assert sections[..|sections|] == sections;
  }

  /** The second loop of updateActiveLink: clear each link's marker, then set it to "page" when
      the link points at the current section. */
  method MarkLinks(navLinks: array<NavLink>, current: string)
    modifies navLinks
    ensures navLinks[..] == Marked(old(navLinks[..]), current)
  {
    for i := 0 to navLinks.Length
      invariant forall k :: 0 <= k < i ==> navLinks[k] == Mark(old(navLinks[k]), current)
      invariant forall k :: i <= k < navLinks.Length ==> navLinks[k] == old(navLinks[k])
    {
      navLinks[i] := navLinks[i].(ariaCurrent := Some(""));
      if Slice1(navLinks[i].href) == current {
        navLinks[i] := navLinks[i].(ariaCurrent := Some("page"));
      }
    }
  }

  /** updateActiveLink: select the current section, then mark the links. */
  method UpdateActiveLink(sections: seq<SectionPos>, navLinks: array<NavLink>, scrollY: int)
    modifies navLinks
    ensures navLinks[..] == Marked(old(navLinks[..]), CurrentSection(sections, scrollY))
  {
    var current := SelectSection(sections, scrollY);
    MarkLinks(navLinks, current);
  }
}
