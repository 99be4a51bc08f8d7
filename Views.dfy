/** Views computed afresh from the menu list on every render: the home
    screen's average price per course and item total, and the guest
    screen's course filter. */
module Views {
  import opened Seqs
  import opened Menu

  /** The guest-screen selector value that means "no filter". */
  const AllCourses: string := "All"

  /** The records of one course, in list order. */
  function ItemsOfCourse(items: seq<MenuItem>, course: string): (r: seq<MenuItem>)
    ensures forall i :: i in r ==> i in items && i.course == course
  {
    Filter(items, (i: MenuItem) => i.course == course)
  }

  /** The total of the parsed prices, accumulated from the first record to the
      last as the home screen's reduce does. `parse` stands for the
      text-to-number conversion of the price. */
  function SumPrices(items: seq<MenuItem>, parse: string -> real): real
  {
    if items == [] then 0.0
    else SumPrices(items[..|items| - 1], parse) + parse(items[|items| - 1].price)
  }

  /** `x` added to itself `n` times, that is n·x. */
  function Repeated(n: nat, x: real): real
  {
    if n == 0 then 0.0 else Repeated(n - 1, x) + x
  }

  /** The average price of some records: 0 when there are none. Otherwise
      as many copies of the average as there are records add up to their
      price total (average × count = total). */
  function MeanPrice(m: seq<MenuItem>, parse: string -> real): (r: real)
    ensures m == [] ==> r == 0.0
    ensures Repeated(|m|, r) == SumPrices(m, parse)
  {
    if |m| == 0 then 0.0
    else
      var q := SumPrices(m, parse) / (|m| as real);
      RepeatedIsProduct(|m|, q);
      q
  }

  /** The average price of one course. */
  function AverageOf(items: seq<MenuItem>, course: string, parse: string -> real): real
  {
    MeanPrice(ItemsOfCourse(items, course), parse)
  }

  /** One line of the home screen's average table. */
  datatype CourseAverage = CourseAverage(course: string, avg: real)

  /** The home screen's averages: one entry per course, in picker order. */
  function Averages(items: seq<MenuItem>, parse: string -> real): (r: seq<CourseAverage>)
    ensures |r| == |Courses|
    ensures forall k :: 0 <= k < |r| ==> r[k] == CourseAverage(Courses[k], AverageOf(items, Courses[k], parse))
  {
    seq(|Courses|, k requires 0 <= k < |Courses| => CourseAverage(Courses[k], AverageOf(items, Courses[k], parse)))
  }

  /** The averages table has three entries, Starters, Mains and Dessert in
      that order; a course without dishes shows 0, any other course an
      average that times its dish count gives its price total. */
  lemma AveragesSpec(items: seq<MenuItem>, parse: string -> real, k: nat)
    requires k < 3
    ensures |Averages(items, parse)| == 3
    ensures [Averages(items, parse)[0].course, Averages(items, parse)[1].course,
             Averages(items, parse)[2].course] == ["Starters", "Mains", "Dessert"]
    ensures ItemsOfCourse(items, Courses[k]) == [] ==> Averages(items, parse)[k].avg == 0.0
    ensures Repeated(|ItemsOfCourse(items, Courses[k])|, Averages(items, parse)[k].avg)
              == SumPrices(ItemsOfCourse(items, Courses[k]), parse)
  {
    var a := Averages(items, parse)[k].avg;
    assert a == AverageOf(items, Courses[k], parse);
    AverageOfSpec(items, Courses[k], parse);
  }

  /** A course's average is 0 without dishes; otherwise times the dish
      count it gives the price total. */
  lemma AverageOfSpec(items: seq<MenuItem>, course: string, parse: string -> real)
    ensures var m := ItemsOfCourse(items, course);
      (m == [] ==> AverageOf(items, course, parse) == 0.0) &&
      Repeated(|m|, AverageOf(items, course, parse)) == SumPrices(m, parse)
  {
    assert AverageOf(items, course, parse) == MeanPrice(ItemsOfCourse(items, course), parse);
  }

  /** The guest screen's list for the selected course. */
  function FilteredItems(items: seq<MenuItem>, selected: string): (r: seq<MenuItem>)
    ensures selected == AllCourses ==> r == items
    ensures selected != AllCourses ==> forall i :: i in r ==> i.course == selected
  {
    if selected == AllCourses then items else ItemsOfCourse(items, selected)
  }

  /** With a course selected, the guest list is the order-preserving
      subsequence of the records of that course: each of them occurs as often
      as in the menu, and nothing else occurs. */
  lemma FilteredItemsExact(items: seq<MenuItem>, selected: string, x: MenuItem)
    requires selected != AllCourses
    ensures IsSubsequence(FilteredItems(items, selected), items)
    ensures multiset(FilteredItems(items, selected))[x] ==
              if x.course == selected then multiset(items)[x] else 0
    ensures x in items && x.course == selected ==> x in FilteredItems(items, selected)
  {
    FilterIsSubsequence(items, (i: MenuItem) => i.course == selected);
    FilterMultiplicity(items, (i: MenuItem) => i.course == selected, x);
  }

  /** If every parsed price of a course lies in [lo, hi], so does its average. */
  lemma AverageBetween(items: seq<MenuItem>, course: string, parse: string -> real, lo: real, hi: real)
    requires ItemsOfCourse(items, course) != []
    requires forall i :: i in items && i.course == course ==> lo <= parse(i.price) <= hi
    ensures lo <= AverageOf(items, course, parse) <= hi
  {
    var m := ItemsOfCourse(items, course);
    MeanBetween(m, parse, lo, hi);
  }

  lemma MeanBetween(m: seq<MenuItem>, parse: string -> real, lo: real, hi: real)
    requires m != []
    requires forall i :: i in m ==> lo <= parse(i.price) <= hi
    ensures lo <= MeanPrice(m, parse) <= hi
  {
    SumBetween(m, parse, lo, hi);
    RepeatedMonotone(|m|, lo, MeanPrice(m, parse));
    RepeatedMonotone(|m|, MeanPrice(m, parse), hi);
  }

  lemma {:induction false} SumBetween(m: seq<MenuItem>, parse: string -> real, lo: real, hi: real)
    requires forall i :: i in m ==> lo <= parse(i.price) <= hi
    ensures Repeated(|m|, lo) <= SumPrices(m, parse) <= Repeated(|m|, hi)
  {
    if m != [] {
      var p, last := m[..|m| - 1], m[|m| - 1];
      assert m == p + [last];
      assert forall i :: i in p ==> i in m;
      SumBetween(p, parse, lo, hi);
      SumPricesAppend(p, last, parse);
    }
  }

  lemma {:induction false} RepeatedIsProduct(n: nat, x: real)
    ensures Repeated(n, x) == (n as real) * x
  {
    if n > 0 {
      RepeatedIsProduct(n - 1, x);
      ProductStep((n - 1) as real, n as real, x);
    }
  }

  lemma ProductStep(k: real, n: real, x: real)
    requires n == k + 1.0
    ensures n * x == k * x + x
  {
  }

  /** For a positive count, repeating preserves and reflects order. */
  lemma {:induction false} RepeatedMonotone(n: nat, x: real, y: real)
    requires n > 0
    ensures x <= y <==> Repeated(n, x) <= Repeated(n, y)
  {
    if n > 1 {
      RepeatedMonotone(n - 1, x, y);
    }
  }

  /** Appending a record adds it at the end of its own course and leaves the
      other courses' records as they were. */
  lemma ItemsOfCourseAppend(items: seq<MenuItem>, x: MenuItem, course: string)
    ensures ItemsOfCourse(items + [x], course) ==
              ItemsOfCourse(items, course) + (if x.course == course then [x] else [])
  {
    FilterAppend(items, [x], (i: MenuItem) => i.course == course);
    assert [x][1..] == [];
  }

  /** Adding a dish leaves the average of every other course untouched. */
  lemma AverageOfOtherCourseAfterAppend(items: seq<MenuItem>, x: MenuItem, parse: string -> real, course: string)
    requires course != x.course
    ensures AverageOf(items + [x], course, parse) == AverageOf(items, course, parse)
  {
    ItemsOfCourseAppend(items, x, course);
    assert ItemsOfCourse(items + [x], course) == ItemsOfCourse(items, course) + [] == ItemsOfCourse(items, course);
  }

  /** Adding a dish of a course makes that course's average the old total
      plus the dish's price, over the old count plus one. */
  lemma AverageOfOwnCourseAfterAppend(items: seq<MenuItem>, x: MenuItem, parse: string -> real)
    ensures AverageOf(items + [x], x.course, parse) ==
              (SumPrices(ItemsOfCourse(items, x.course), parse) + parse(x.price))
                / ((|ItemsOfCourse(items, x.course)| + 1) as real)
  {
    ItemsOfCourseAppend(items, x, x.course);
    var before := ItemsOfCourse(items, x.course);
    assert ItemsOfCourse(items + [x], x.course) == before + [x];
    SumPricesAppend(before, x, parse);
  }

  /** The running total of a list grown by one record grows by its price. */
  lemma SumPricesAppend(m: seq<MenuItem>, x: MenuItem, parse: string -> real)
    ensures SumPrices(m + [x], parse) == SumPrices(m, parse) + parse(x.price)
  {
    assert (m + [x])[..|m|] == m;
  }

  /** When every record belongs to one of the three courses, the per-course
      counts add up to the displayed total. */
  lemma {:induction false} CourseCountsSumToTotal(items: seq<MenuItem>)
    requires forall i :: i in items ==> i.course in Courses
    ensures |ItemsOfCourse(items, "Starters")| + |ItemsOfCourse(items, "Mains")|
              + |ItemsOfCourse(items, "Dessert")| == |items|
  {
    if items != [] {
      assert items[0] in items;
      assert forall i :: i in items[1..] ==> i in items;
      CourseCountsSumToTotal(items[1..]);
    }
  }

  /** The worked example: a soup and two steaks. */
  lemma SoupAndSteaks(soup: MenuItem, steak: MenuItem, steak2: MenuItem, parse: string -> real)
    requires soup.course == "Starters" && steak.course == "Mains" && steak2.course == "Mains"
    requires parse(soup.price) == 35.0 && parse(steak.price) == 120.0 && parse(steak2.price) == 140.0
    ensures Averages([soup, steak, steak2], parse) ==
              [CourseAverage("Starters", 35.0), CourseAverage("Mains", 130.0), CourseAverage("Dessert", 0.0)]
    ensures FilteredItems([soup, steak, steak2], "Mains") == [steak, steak2]
  {
    var items := [soup, steak, steak2];
    SoupAndSteaksByCourse(soup, steak, steak2);
    assert [soup] == [] + [soup] && [steak] == [] + [steak] && [steak, steak2] == [steak] + [steak2];
    SumPricesAppend([], soup, parse);
    SumPricesAppend([], steak, parse);
    SumPricesAppend([steak], steak2, parse);
    assert AverageOf(items, "Starters", parse) == 35.0 / 1.0;
    assert AverageOf(items, "Mains", parse) == 260.0 / 2.0;
    assert AverageOf(items, "Dessert", parse) == 0.0;
    var r := Averages(items, parse);
    assert r == [r[0], r[1], r[2]];
  }

  lemma SoupAndSteaksByCourse(soup: MenuItem, steak: MenuItem, steak2: MenuItem)
    requires soup.course == "Starters" && steak.course == "Mains" && steak2.course == "Mains"
    ensures ItemsOfCourse([soup, steak, steak2], "Starters") == [soup]
    ensures ItemsOfCourse([soup, steak, steak2], "Mains") == [steak, steak2]
    ensures ItemsOfCourse([soup, steak, steak2], "Dessert") == []
  {
    ItemsOfCourseOfThree(soup, steak, steak2, "Starters");
    ItemsOfCourseOfThree(soup, steak, steak2, "Mains");
    ItemsOfCourseOfThree(soup, steak, steak2, "Dessert");
  }

  lemma ItemsOfCourseOfThree(a: MenuItem, b: MenuItem, c: MenuItem, course: string)
    ensures ItemsOfCourse([a, b, c], course) ==
      (if a.course == course then [a] else []) + (if b.course == course then [b] else [])
        + (if c.course == course then [c] else [])
  {
    assert [a, b, c] == [a, b] + [c] && [a, b] == [a] + [b] && [a] == [] + [a];
    ItemsOfCourseAppend([], a, course);
    ItemsOfCourseAppend([a], b, course);
    ItemsOfCourseAppend([a, b], c, course);
  }
}
