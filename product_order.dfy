/**
 * The order in which products are listed, by the order of their section and
 * then by name: the aggregate endpoint (src/app/api/route.ts) and the catalog
 * page (src/app/products/page.tsx) sort with the same comparator.
 */
module ProductOrder {
  import opened Wrappers
  import opened Text
  import opened Sorting
  import opened Model

  /** Rank given to a section without an `order`, and to a product whose section is unknown. */
  const DefaultOrder := 999

  /** `sections[id]?.order ?? 999`. */
  function SectionOrder(sections: map<string, Section>, id: string): int {
    if id in sections then sections[id].order.GetOr(DefaultOrder) else DefaultOrder
  }

  /** Lexicographic order on (section order, name). */
  predicate OrderNameLeq(o1: int, n1: string, o2: int, n2: string) {
    o1 < o2 || (o1 == o2 && StrLeq(n1, n2))
  }

  lemma OrderNameTotal(o1: int, n1: string, o2: int, n2: string)
    ensures OrderNameLeq(o1, n1, o2, n2) || OrderNameLeq(o2, n2, o1, n1)
  {
    StrLeqTotal(n1, n2);
  }

  lemma OrderNameTransitive(o1: int, n1: string, o2: int, n2: string, o3: int, n3: string)
    requires OrderNameLeq(o1, n1, o2, n2) && OrderNameLeq(o2, n2, o3, n3)
    ensures OrderNameLeq(o1, n1, o3, n3)
  {
    if o1 == o2 && o2 == o3 {
      StrLeqTransitive(n1, n2, n3);
    }
  }

  /** `a` may be listed before `b`. */
  predicate ProductLeq(sections: map<string, Section>, a: Product, b: Product) {
    OrderNameLeq(SectionOrder(sections, a.section), a.name, SectionOrder(sections, b.section), b.name)
  }

  /** The product order as a relation, for `SortBy`. */
  function ProductRel(sections: map<string, Section>): (Product, Product) -> bool {
    (a: Product, b: Product) => ProductLeq(sections, a, b)
  }

  lemma ProductRelIsTotalPreorder(sections: map<string, Section>)
    ensures TotalPreorder(ProductRel(sections))
  {
    var leq := ProductRel(sections);
    forall a: Product, b: Product ensures leq(a, b) || leq(b, a) {
      OrderNameTotal(SectionOrder(sections, a.section), a.name, SectionOrder(sections, b.section), b.name);
    }
    forall a: Product, b: Product, c: Product | leq(a, b) && leq(b, c) ensures leq(a, c) {
      OrderNameTransitive(SectionOrder(sections, a.section), a.name, SectionOrder(sections, b.section), b.name,
                          SectionOrder(sections, c.section), c.name);
    }
  }

  /** The products of `ps` in listing order. */
  function SortProducts(sections: map<string, Section>, ps: seq<Product>): seq<Product> {
    SortBy(ProductRel(sections), ps)
  }

  /**
   * The sorted list is a permutation of the input; sections come in ascending
   * order (999 when unknown or unset), and within one rank products come by name.
   */
  lemma SortProductsOrdered(sections: map<string, Section>, ps: seq<Product>)
    ensures multiset(SortProducts(sections, ps)) == multiset(ps)
    ensures var r := SortProducts(sections, ps);
      forall i, j :: 0 <= i < j < |r| ==>
        SectionOrder(sections, r[i].section) <= SectionOrder(sections, r[j].section)
        && (SectionOrder(sections, r[i].section) == SectionOrder(sections, r[j].section) ==> StrLeq(r[i].name, r[j].name))
  {
    ProductRelIsTotalPreorder(sections);
    SortBySorted(ProductRel(sections), ps);
  }

  /**
   * The comparator as written: different sections compare by
   * `(sections[a.section].order ?? 999) - (sections[b.section].order ?? 999)`,
   * which throws (`None`) when a section is missing; equal sections compare names.
   */
  function CompareAsWritten(sections: map<string, Section>, a: Product, b: Product): (r: Option<int>)
    ensures r.None? <==> a.section != b.section && (a.section !in sections || b.section !in sections)
    ensures a.section == b.section ==> (r.value == 0 <==> a.name == b.name) && (r.value <= 0 <==> StrLeq(a.name, b.name))
  {
    if a.section != b.section then
      if a.section in sections && b.section in sections then
        Some(sections[a.section].order.GetOr(DefaultOrder) - sections[b.section].order.GetOr(DefaultOrder))
      else None
    else Some(StrCompare(a.name, b.name))
  }

  /** A product left in a deleted section makes the comparator as written throw. */
  lemma CompareAsWrittenThrowsOnMissingSection()
    ensures var sections := map["s1" := Section("s1", "Dairy", Some(1), None)];
      CompareAsWritten(sections, Product("p1", "Milk", "s1", "", "", ""), Product("p2", "Salt", "gone", "", "", "")) == None
  {
  }

  /**
   * Two sections with the same order (or both without one) make the comparator
   * inconsistent: `a` ties with `b` and `b` with `c`, yet `c` sorts before `a`.
   */
  lemma CompareAsWrittenInconsistent()
    ensures var sections := map["x" := Section("x", "X", None, None), "y" := Section("y", "Y", None, None)];
      var a := Product("a", "b", "x", "", "", "");
      var b := Product("b", "m", "y", "", "", "");
      var c := Product("c", "a", "x", "", "", "");
      CompareAsWritten(sections, a, b) == Some(0) && CompareAsWritten(sections, b, c) == Some(0)
      && CompareAsWritten(sections, a, c) == Some(1)
  {
  }

  /**
   * Wherever the comparator as written gives an answer that is not a tie, the
   * corrected order agrees with it.
   */
  lemma CorrectedAgreesWithAsWritten(sections: map<string, Section>, a: Product, b: Product)
    requires CompareAsWritten(sections, a, b).Some? && CompareAsWritten(sections, a, b).value != 0
    ensures CompareAsWritten(sections, a, b).value < 0 <==> (ProductLeq(sections, a, b) && !ProductLeq(sections, b, a))
  {
    if a.section == b.section {
      StrLeqTotal(a.name, b.name);
      if StrLeq(a.name, b.name) && StrLeq(b.name, a.name) {
        StrLeqAntisymmetric(a.name, b.name);
      }
    }
  }
}
