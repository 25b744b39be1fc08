/**
 * The sections page (src/app/sections/page.tsx): the sections listed by
 * order, reordered by dragging, and saved back one by one.
 */
module SectionsPage {
  import opened Wrappers
  import opened Sorting
  import opened Model
  import opened Keyed
  import opened Client

  /** The order given to a section whose order is not a number. */
  const UnsetOrder := 999

  /** `if (typeof sect.order !== 'number') sect.order = 999`. */
  function Normalized(s: Section): (r: Section)
    ensures r.order.Some?
    ensures s.order.Some? ==> r == s
    ensures s.order.None? ==> r.order == Some(UnsetOrder) && r.id == s.id && r.name == s.name && r.collapse == s.collapse
  {
    if s.order.None? then s.(order := Some(UnsetOrder)) else s
  }

  function NormalizedAll(ss: seq<Section>): (r: seq<Section>)
    ensures |r| == |ss|
  {
    seq(|ss|, i requires 0 <= i < |ss| => Normalized(ss[i]))
  }

  /** The sort key `a.order || 0`. */
  function SortKey(s: Section): int {
    s.order.GetOr(0)
  }

  predicate SectionLeq(a: Section, b: Section) {
    SortKey(a) <= SortKey(b)
  }

  function SectionRel(): (Section, Section) -> bool {
    (a: Section, b: Section) => SectionLeq(a, b)
  }

  lemma SectionRelIsTotalPreorder()
    ensures TotalPreorder(SectionRel())
  {
  }

  /** The list `getSections` shows: none when the fetch gives nothing, else normalised and sorted by order. */
  function SortedSections(response: Option<seq<Section>>): seq<Section> {
    match response
    case None => []
    case Some(ss) => SortBy(SectionRel(), NormalizedAll(ss))
  }

  /**
   * Every listed section has an order (999 for those that had none), the
   * orders ascend, and the list is a permutation of the normalised response.
   */
  lemma SortedSectionsSpec(response: Option<seq<Section>>)
    ensures response.None? ==> SortedSections(response) == []
    ensures response.Some? ==> multiset(SortedSections(response)) == multiset(NormalizedAll(response.value))
    ensures var r := SortedSections(response);
      && (forall i :: 0 <= i < |r| ==> r[i].order.Some?)
      && (forall i, j :: 0 <= i < j < |r| ==> r[i].order.value <= r[j].order.value)
  {
    if response.Some? {
      var n := NormalizedAll(response.value);
      var r := SortedSections(response);
      SectionRelIsTotalPreorder();
      SortBySorted(SectionRel(), n);
      forall i | 0 <= i < |r| ensures r[i].order.Some? {
        assert r[i] in multiset(n);
      }
    }
  }

  /** `s` without its element at `i`. */
  function Without<T>(s: seq<T>, i: int): (r: seq<T>)
    requires 0 <= i < |s|
    ensures |r| == |s| - 1
  {
    s[..i] + s[i + 1..]
  }

  /** The two `splice` calls: take the element at `source` out and put it back in at `destination`. */
  function Moved<T>(s: seq<T>, source: int, destination: int): seq<T>
    requires 0 <= source < |s| && 0 <= destination < |s|
  {
    var rest := Without(s, source);
    rest[..destination] + [s[source]] + rest[destination..]
  }

  /**
   * The moved element sits at the destination, the length is kept, and the
   * other elements keep their relative order.
   */
  lemma MovedSpec<T>(s: seq<T>, source: int, destination: int)
    requires 0 <= source < |s| && 0 <= destination < |s|
    ensures var r := Moved(s, source, destination);
      && |r| == |s|
      && r[destination] == s[source]
      && Without(r, destination) == Without(s, source)
      && multiset(r) == multiset(s)
  {
    var rest := Without(s, source);
    var r := Moved(s, source, destination);
    assert r[..destination] == rest[..destination];
    assert r[destination + 1..] == rest[destination..];
    assert rest + [s[source]] == s[..source] + s[source + 1..] + [s[source]];
    calc {
      multiset(r);
      multiset(rest[..destination]) + multiset{s[source]} + multiset(rest[destination..]);
      { assert rest == rest[..destination] + rest[destination..]; }
      multiset(rest) + multiset{s[source]};
      { assert s == s[..source] + [s[source]] + s[source + 1..]; }
      multiset(s);
    }
  }

  /** `items.map((item, index) => ({ ...item, order: index }))`. */
  function Renumbered(ss: seq<Section>): (r: seq<Section>)
    ensures |r| == |ss|
    ensures forall i :: 0 <= i < |r| ==>
      r[i].order == Some(i) && r[i].id == ss[i].id && r[i].name == ss[i].name && r[i].collapse == ss[i].collapse
  {
    seq(|ss|, i requires 0 <= i < |ss| => ss[i].(order := Some(i)))
  }

  /** One update call per section, in list order. */
  function UpdateCalls(ss: seq<Section>): (r: seq<ApiCall>)
    ensures |r| == |ss|
  {
    if ss == [] then [] else UpdateCalls(ss[..|ss| - 1]) + [UpdateSectionCall(ss[|ss| - 1])]
  }

  /** The `i`-th call updates the `i`-th section. */
  lemma {:induction false} UpdateCallsAt(ss: seq<Section>, i: int)
    requires 0 <= i < |ss|
    ensures UpdateCalls(ss)[i] == UpdateSectionCall(ss[i])
  {
    if i < |ss| - 1 {
      UpdateCallsAt(ss[..|ss| - 1], i);
    }
  }

  /** The server accepts the update of `s`. */
  function Saves(accepted: ApiCall -> bool): Section -> bool {
    (s: Section) => accepted(UpdateSectionCall(s))
  }

  class SectionsView {
    var sections: seq<Section>
    var orderChanged: bool
    /** Server calls made, oldest first. */
    var outbox: seq<ApiCall>

    constructor ()
      ensures sections == [] && !orderChanged && outbox == []
    {
      sections := [];
      orderChanged := false;
      outbox := [];
    }

    /** Shows the fetched sections, normalised and sorted, and clears `orderChanged`. */
    method GetSections(response: Option<seq<Section>>)
      modifies this
      ensures sections == SortedSections(response)
      ensures !orderChanged && outbox == old(outbox)
    {
      sections := SortedSections(response);
      orderChanged := false;
    }

    /** Moves the dragged section to where it was dropped and renumbers all; a drop outside does nothing. */
    method HandleDragEnd(source: int, destination: Option<int>)
      requires 0 <= source < |sections|
      requires destination.Some? ==> 0 <= destination.value < |sections|
      modifies this
      ensures destination.None? ==> sections == old(sections) && orderChanged == old(orderChanged)
      ensures destination.Some? ==> sections == Renumbered(Moved(old(sections), source, destination.value)) && orderChanged
      ensures outbox == old(outbox)
    {
      if destination.None? {
        return;
      }
      var items := sections;
      var reorderedItem := items[source];
      items := items[..source] + items[source + 1..];
      items := items[..destination.value] + [reorderedItem] + items[destination.value..];
      sections := Renumbered(items);
      orderChanged := true;
    }

    /**
     * Sends every section, in list order; when all are accepted, clears
     * `orderChanged` and shows `refreshed`, the sections fetched again. A
     * rejected update throws: nothing after it is sent and nothing else changes.
     */
    method SaveOrderChanges(refreshed: Option<seq<Section>>, accepted: ApiCall -> bool)
      modifies this
      ensures var stop := FirstIndex(old(sections), Saves(accepted), false);
        stop.None? ==> outbox == old(outbox) + UpdateCalls(old(sections)) && !orderChanged && sections == SortedSections(refreshed)
      ensures var stop := FirstIndex(old(sections), Saves(accepted), false);
        stop.Some? ==>
          && outbox == old(outbox) + UpdateCalls(old(sections)[..stop.value + 1])
          && sections == old(sections) && orderChanged == old(orderChanged)
    {
      var i := 0;
      while i < |sections|
        invariant 0 <= i <= |sections|
        invariant sections == old(sections) && orderChanged == old(orderChanged)
        invariant outbox == old(outbox) + UpdateCalls(sections[..i])
        invariant forall j :: 0 <= j < i ==> Saves(accepted)(sections[j])
      {
        assert sections[..i + 1][..i] == sections[..i];
        outbox := outbox + [UpdateSectionCall(sections[i])];
        if !accepted(UpdateSectionCall(sections[i])) {
          return;
        }
        i := i + 1;
      }
      assert sections[..i] == sections;
      orderChanged := false;
      GetSections(refreshed);
    }
  }
}
