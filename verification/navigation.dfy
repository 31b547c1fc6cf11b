/** Highlighting of the navigation link of the section being read (class
    ActiveNav in script.js). On every scroll event `updateActiveLink` walks
    the page's sections in document order; each section whose vertical extent
    contains the scroll position plus a 100-pixel header allowance rewrites the
    `active` class of every navigation link, so the last such section wins. */
module Navigation {

  datatype Option<T> = None | Some(value: T)

  /** A `section[id]` element: its id and its layout box (offsetTop, offsetHeight). */
  datatype Section = Section(id: string, top: int, height: int)

  /** The allowance for the fixed header added to scrollY. */
  const HeaderOffset: int := 100

  /** The half-open extent [top, top + height) contains `position`. */
  predicate Contains(section: Section, position: int) {
    section.top <= position < section.top + section.height
  }

  /** The href a link must carry to point at the section with this id. */
  function Anchor(id: string): string {
    "#" + id
  }

  /** The index of the last section containing `position`, if any. */
  function LastMatch(sections: seq<Section>, position: int): (r: Option<nat>)
    ensures r.Some? ==> r.value < |sections| && Contains(sections[r.value], position)
    ensures r.Some? ==> forall j :: r.value < j < |sections| ==> !Contains(sections[j], position)
    ensures r.None? <==> forall j :: 0 <= j < |sections| ==> !Contains(sections[j], position)
  {
    if sections == [] then None
    else if Contains(sections[|sections| - 1], position) then Some(|sections| - 1)
    else LastMatch(sections[..|sections| - 1], position)
  }

  /** The active flags after one matching section has rewritten them: exactly
      the links whose href names that section. A link without an href never
      matches. */
  function Highlight(links: seq<Option<string>>, id: string): (r: seq<bool>)
    ensures |r| == |links|
    ensures forall i :: 0 <= i < |r| ==> (r[i] <==> links[i] == Some(Anchor(id)))
    ensures forall i :: 0 <= i < |r| && links[i].None? ==> !r[i]
    ensures forall i, j :: 0 <= i < |r| && 0 <= j < |r| && r[i] && r[j] ==> links[i] == links[j]
    ensures (forall i, j :: 0 <= i < j < |links| ==> links[i] != links[j]) ==>
      forall i, j :: 0 <= i < |r| && 0 <= j < |r| && r[i] && r[j] ==> i == j
  {
    seq(|links|, i requires 0 <= i < |links| => links[i] == Some(Anchor(id)))
  }

  /** The active flags after updateActiveLink at this scroll offset. When
      anything changed, every active link points at one and the same
      section, and that section lies at the position. */
  function AfterScroll(flags: seq<bool>, links: seq<Option<string>>, sections: seq<Section>, scrollY: int): (r: seq<bool>)
    ensures |flags| == |links| ==> |r| == |links|
    ensures r != flags ==> |r| == |links| && forall i, j :: 0 <= i < |r| && 0 <= j < |r| && r[i] && r[j] ==> links[i] == links[j]
    ensures r != flags ==> forall i :: 0 <= i < |r| && r[i] ==>
      exists k :: 0 <= k < |sections| && Contains(sections[k], scrollY + HeaderOffset) && links[i] == Some(Anchor(sections[k].id))
  {
    match LastMatch(sections, scrollY + HeaderOffset)
    case None => flags
    case Some(k) => Highlight(links, sections[k].id)
  }

  /** No section at the position: the flags stay as they were. */
  lemma AfterScrollNoMatch(flags: seq<bool>, links: seq<Option<string>>, sections: seq<Section>, scrollY: int)
    requires forall j :: 0 <= j < |sections| ==> !Contains(sections[j], scrollY + HeaderOffset)
    ensures AfterScroll(flags, links, sections, scrollY) == flags
  {
  }

  /** Section `k` is the last one at the position: exactly the links naming
      it are active, whatever the flags were before. */
  lemma AfterScrollMatch(flags: seq<bool>, links: seq<Option<string>>, sections: seq<Section>, scrollY: int, k: nat)
    requires k < |sections| && Contains(sections[k], scrollY + HeaderOffset)
    requires forall j :: k < j < |sections| ==> !Contains(sections[j], scrollY + HeaderOffset)
    ensures |AfterScroll(flags, links, sections, scrollY)| == |links|
    ensures forall i :: 0 <= i < |links| ==>
      (AfterScroll(flags, links, sections, scrollY)[i] <==> links[i] == Some(Anchor(sections[k].id)))
  {
  }

  /** Sections laid out one below the other, as on a page: no negative
      height, and each section ends where or before the next begins. */
  predicate Stacked(sections: seq<Section>) {
    (forall i :: 0 <= i < |sections| ==> sections[i].height >= 0) &&
    forall i :: 0 <= i < |sections| - 1 ==> sections[i].top + sections[i].height <= sections[i + 1].top
  }

  /** In a stacked layout every section begins at or below the end of each
      earlier one. */
  lemma {:induction false} StackedOrder(sections: seq<Section>, i: nat, j: nat)
    requires Stacked(sections) && i < j < |sections|
    ensures sections[i].top + sections[i].height <= sections[j].top
    decreases j - i
  {
    if i + 1 < j {
      StackedOrder(sections, i + 1, j);
    }
  }

  /** In a stacked layout at most one section contains any position, so the
      last matching section is the only one. */
  lemma StackedUnique(sections: seq<Section>, position: int, i: nat, j: nat)
    requires Stacked(sections) && i < |sections| && j < |sections|
    requires Contains(sections[i], position) && Contains(sections[j], position)
    ensures i == j
  {
    if i < j {
      StackedOrder(sections, i, j);
    } else if j < i {
      StackedOrder(sections, j, i);
    }
  }

  /** In a stacked layout the section at the position is the one that
      updateActiveLink picks. */
  lemma StackedLastIsOnly(sections: seq<Section>, position: int, i: nat)
    requires Stacked(sections) && i < |sections| && Contains(sections[i], position)
    ensures LastMatch(sections, position) == Some(i)
  {
    var k := LastMatch(sections, position).value;
    StackedUnique(sections, position, i, k);
  }

  class ActiveNav {
    /** The href of each `.nav-links a`, None where the link has none. */
    const links: seq<Option<string>>
    /** Whether each link carries the class `active`. */
    const active: array<bool>

    ghost predicate Valid()
      reads this
    {
      active.Length == |links|
    }

    /** The links start with whatever classes the page markup gave them. */
    constructor (links: seq<Option<string>>, initial: seq<bool>)
      requires |initial| == |links|
      ensures Valid() && fresh(active)
      ensures this.links == links && active[..] == initial
    {
      this.links := links;
      active := new bool[|initial|](i requires 0 <= i < |initial| => initial[i]);
    }

    /** `sections` is the layout as it is at this scroll event: the sections
        in document order with their current offsetTop and offsetHeight. */
    method UpdateActiveLink(sections: seq<Section>, scrollY: int)
      requires Valid()
      modifies active
      ensures active[..] == AfterScroll(old(active[..]), links, sections, scrollY)
    {
      var position := scrollY + HeaderOffset;
      var i := 0;
      while i < |sections|
        invariant 0 <= i <= |sections|
        invariant active[..] == AfterScroll(old(active[..]), links, sections[..i], scrollY)
      {
        var section := sections[i];
        assert sections[..i + 1][..i] == sections[..i];
        if position >= section.top && position < section.top + section.height {
          var j := 0;
          while j < |links|
            invariant 0 <= j <= |links|
            invariant forall m :: 0 <= m < j ==> active[m] == (links[m] == Some(Anchor(section.id)))
          {
            active[j] := false;
            if links[j] == Some(Anchor(section.id)) {
              active[j] := true;
            }
            j := j + 1;
          }
        }
        i := i + 1;
      }
      assert sections[..i] == sections;
    }
  }
}
