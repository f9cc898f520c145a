/**
 * The filter side panel of the results page: the filter record, the updates its
 * controls make to it (check boxes, the airport select, the price slider, the
 * remove button on a tag) and the list of "applied filter" tags it shows.
 */
module SearchFilter {
  import opened Wrappers
  import opened JsOps

  const MinPrice := 2000
  const MaxPrice := 20000

  /**
   * `filters.price`: the slider's number, or the empty string once its tag has been
   * removed. The empty string is falsy and compares as 0.
   */
  datatype PriceValue = Amount(n: int) | Blank

  /** The numeric reading of the price ceiling in a comparison (`'' <= x` reads `''` as 0). */
  function Ceiling(p: PriceValue): int {
    match p
    case Amount(n) => n
    case Blank => 0
  }

  datatype Filters = Filters(
    popular: seq<string>,
    airlines: seq<string>,
    stops: seq<string>,
    depTime: seq<string>,
    arrTime: seq<string>,
    depAirport: string,
    price: PriceValue)

  /** The filters of a fresh results page, and what Clear All restores. */
  const DefaultFilters := Filters([], [], [], [], [], "", Amount(MaxPrice))

  /** The keys of the filter record, in the order `Object.entries` lists them. */
  datatype Category = Popular | Airlines | Stops | DepTime | ArrTime | DepAirport | PriceKey

  const CategoryOrder: seq<Category> := [Popular, Airlines, Stops, DepTime, ArrTime, DepAirport, PriceKey]

  /** The categories whose value is an array of selected options. */
  predicate IsList(c: Category) {
    c in {Popular, Airlines, Stops, DepTime, ArrTime}
  }

  function Values(f: Filters, c: Category): seq<string>
    requires IsList(c)
  {
    match c
    case Popular => f.popular
    case Airlines => f.airlines
    case Stops => f.stops
    case DepTime => f.depTime
    case ArrTime => f.arrTime
  }

  /** `f` and `g` agree on every category but `c`. */
  predicate SameExcept(f: Filters, g: Filters, c: Category) {
    (c != Popular ==> g.popular == f.popular)
    && (c != Airlines ==> g.airlines == f.airlines)
    && (c != Stops ==> g.stops == f.stops)
    && (c != DepTime ==> g.depTime == f.depTime)
    && (c != ArrTime ==> g.arrTime == f.arrTime)
    && (c != DepAirport ==> g.depAirport == f.depAirport)
    && (c != PriceKey ==> g.price == f.price)
  }

  /** `{ ...f, [c]: vs }` for an array category. */
  function WithValues(f: Filters, c: Category, vs: seq<string>): (g: Filters)
    requires IsList(c)
    ensures Values(g, c) == vs && SameExcept(f, g, c)
  {
    match c
    case Popular => f.(popular := vs)
    case Airlines => f.(airlines := vs)
    case Stops => f.(stops := vs)
    case DepTime => f.(depTime := vs)
    case ArrTime => f.(arrTime := vs)
  }

  /** `vs.filter(x => x !== v)`: every occurrence of `v` goes, everything else stays, in order. */
  function Without(vs: seq<string>, v: string): (r: seq<string>)
    ensures v !in r
    ensures forall x | x != v :: multiset(r)[x] == multiset(vs)[x]
  {
    var r := Filter((x: string) => x != v, vs);
    FilterMembership((x: string) => x != v, vs, v);
    forall x | x != v ensures multiset(r)[x] == multiset(vs)[x] {
      FilterCount((x: string) => x != v, vs, x);
    }
    r
  }

  /** Removing a value that is not there changes nothing. */
  lemma WithoutAbsent(vs: seq<string>, v: string)
    requires v !in vs
    ensures Without(vs, v) == vs
  {
    FilterAllPass((x: string) => x != v, vs);
  }

  /** `handleCheckbox(category, value)`: unticks a ticked option (all its copies) or ticks it at the end. */
  function HandleCheckbox(f: Filters, c: Category, v: string): (g: Filters)
    requires IsList(c)
    ensures SameExcept(f, g, c)
    ensures v in Values(f, c) ==>
      v !in Values(g, c) && forall x | x != v :: multiset(Values(g, c))[x] == multiset(Values(f, c))[x]
    ensures v !in Values(f, c) ==> Values(g, c) == Values(f, c) + [v]
  {
    var vs := Values(f, c);
    if v in vs then WithValues(f, c, Without(vs, v)) else WithValues(f, c, vs + [v])
  }

  /** Ticking an option that was not ticked and unticking it again restores the filters exactly. */
  lemma ToggleTwice(f: Filters, c: Category, v: string)
    requires IsList(c) && v !in Values(f, c)
    ensures HandleCheckbox(HandleCheckbox(f, c, v), c, v) == f
  {
    var vs := Values(f, c);
    var p := (x: string) => x != v;
    FilterConcat(p, vs, [v]);
    WithoutAbsent(vs, v);
    assert Filter(p, [v]) == [];
    assert Without(vs + [v], v) == vs;
  }

  /**
   * `removeFilter(category, value)` as written: an array category loses every copy of the
   * value; any other category is set to the empty string, which for the price means a
   * ceiling that reads as 0.
   */
  function RemoveFilterAsWritten(f: Filters, c: Category, v: string): (g: Filters)
    ensures SameExcept(f, g, c)
    ensures IsList(c) ==> Values(g, c) == Without(Values(f, c), v)
    ensures c == DepAirport ==> g.depAirport == ""
    ensures c == PriceKey ==> g.price == Blank
  {
    if IsList(c) then WithValues(f, c, Without(Values(f, c), v))
    else if c == DepAirport then f.(depAirport := "")
    else f.(price := Blank)
  }

  /** `removeFilter` with the price tag resetting the slider to its maximum, the value that shows no tag. */
  function RemoveFilter(f: Filters, c: Category, v: string): (g: Filters)
    ensures SameExcept(f, g, c)
    ensures IsList(c) ==>
      v !in Values(g, c) && forall x | x != v :: multiset(Values(g, c))[x] == multiset(Values(f, c))[x]
    ensures c == DepAirport ==> g.depAirport == ""
    ensures c == PriceKey ==> g.price == DefaultFilters.price
    ensures c != PriceKey ==> g == RemoveFilterAsWritten(f, c, v)
  {
    if c == PriceKey then f.(price := Amount(MaxPrice)) else RemoveFilterAsWritten(f, c, v)
  }

  /** `handleSelect('depAirport', value)`: the airport select changes the airport and nothing else. */
  function HandleSelect(f: Filters, airport: string): (g: Filters)
    ensures SameExcept(f, g, DepAirport) && g.depAirport == airport
  {
    f.(depAirport := airport)
  }

  /** `handlePriceChange`: the slider's value becomes the ceiling and nothing else changes. */
  function HandlePriceChange(f: Filters, slider: int): (g: Filters)
    ensures SameExcept(f, g, PriceKey) && g.price == Amount(slider)
  {
    f.(price := Amount(slider))
  }

  // ---------------------------------------------------------------------------
  // Applied-filter tags
  // ---------------------------------------------------------------------------

  datatype Tag = Tag(cat: Category, value: string)

  /** The price tag is shown for a truthy ceiling other than the maximum. */
  predicate PriceTagShown(p: PriceValue) {
    p.Amount? && p.n != 0 && p.n != MaxPrice
  }

  function PriceTagText(n: int): string {
    "Up to ₹" + IntToString(n)
  }

  /** One tag per selected option of an array category, in order. */
  function ListTags(c: Category, vs: seq<string>): (ts: seq<Tag>)
    ensures |ts| == |vs|
    ensures forall i | 0 <= i < |ts| :: ts[i] == Tag(c, vs[i])
  {
    if vs == [] then [] else ListTags(c, vs[..|vs| - 1]) + [Tag(c, vs[|vs| - 1])]
  }

  /** The tags the `forEach` over one entry of the filter record pushes. */
  function EntryTags(f: Filters, c: Category): seq<Tag> {
    if IsList(c) then ListTags(c, Values(f, c))
    else if c == DepAirport && f.depAirport != "" then [Tag(DepAirport, f.depAirport)]
    else []
  }

  /** The tags of the entries `cs`, in order. */
  function EntriesTags(f: Filters, cs: seq<Category>): seq<Tag> {
    if cs == [] then [] else EntryTags(f, cs[0]) + EntriesTags(f, cs[1..])
  }

  /** The tags of the panel: every entry in key order, then the price tag. */
  function Tags(f: Filters): (r: seq<Tag>)
    ensures PriceTagShown(f.price) ==> |r| > 0 && r[|r| - 1] == Tag(PriceKey, PriceTagText(f.price.n))
    ensures !PriceTagShown(f.price) ==> r == EntriesTags(f, CategoryOrder)
  {
    EntriesTags(f, CategoryOrder)
    + if PriceTagShown(f.price) then [Tag(PriceKey, PriceTagText(f.price.n))] else []
  }

  lemma ConcatAssoc(a: seq<Tag>, b: seq<Tag>, c: seq<Tag>)
    ensures (a + b) + c == a + (b + c)
  {
  }

  lemma EntriesTagsStep(f: Filters, cs: seq<Category>, k: nat)
    requires k < |cs|
    ensures EntriesTags(f, cs[k..]) == EntryTags(f, cs[k]) + EntriesTags(f, cs[k + 1..])
  {
    assert cs[k..][1..] == cs[k + 1..];
  }

  /** `vs.forEach(v => tags.push({ cat: c, value: v }))`. */
  method PushListTags(tags: seq<Tag>, c: Category, vs: seq<string>) returns (out: seq<Tag>)
    ensures out == tags + ListTags(c, vs)
  {
    out := tags;
    for j := 0 to |vs|
      invariant out == tags + ListTags(c, vs[..j])
    {
      assert vs[..j + 1][..j] == vs[..j];
      out := out + [Tag(c, vs[j])];
    }
    assert vs[..|vs|] == vs;
  }

  /** `Object.entries(filters).forEach(...)` over the entries `cs`. */
  method PushEntryTags(f: Filters, cs: seq<Category>) returns (tags: seq<Tag>)
    ensures tags == EntriesTags(f, cs)
  {
    tags := [];
    for k := 0 to |cs|
      invariant tags + EntriesTags(f, cs[k..]) == EntriesTags(f, cs)
    {
      var c := cs[k];
      EntriesTagsStep(f, cs, k);
      ghost var before := tags;
      if IsList(c) {
        tags := PushListTags(tags, c, Values(f, c));
      } else if c == DepAirport && f.depAirport != "" {
        tags := tags + [Tag(DepAirport, f.depAirport)];
      }
      assert tags == before + EntryTags(f, c);
      ConcatAssoc(before, EntryTags(f, c), EntriesTags(f, cs[k + 1..]));
    }
  }

  /**
   * The `activeTags` loop. It returns the tags of `Tags(f)`; there is one per selected
   * option, one for a chosen airport and one for a lowered price ceiling.
   */
  method ActiveTags(f: Filters) returns (tags: seq<Tag>)
    ensures tags == Tags(f)
    ensures |tags| == |f.popular| + |f.airlines| + |f.stops| + |f.depTime| + |f.arrTime|
                      + (if f.depAirport != "" then 1 else 0) + (if PriceTagShown(f.price) then 1 else 0)
  {
    tags := PushEntryTags(f, CategoryOrder);
    if PriceTagShown(f.price) {
      tags := tags + [Tag(PriceKey, PriceTagText(f.price.n))];
    }
    TagCount(f);
  }

  /** One tag per ticked option, plus one for a chosen airport and one for a lowered ceiling. */
  lemma TagCount(f: Filters)
    ensures |Tags(f)| == |f.popular| + |f.airlines| + |f.stops| + |f.depTime| + |f.arrTime|
                         + (if f.depAirport != "" then 1 else 0) + (if PriceTagShown(f.price) then 1 else 0)
  {
    TagsUnfolded(f);
  }

  /** Clear All is enabled exactly when some tag is shown. */
  predicate ClearAllEnabled(f: Filters) {
    |Tags(f)| > 0
  }

  /** `Tags` written out entry by entry. */
  lemma TagsUnfolded(f: Filters)
    ensures Tags(f) ==
      (ListTags(Popular, f.popular) + (ListTags(Airlines, f.airlines) + (ListTags(Stops, f.stops)
      + (ListTags(DepTime, f.depTime) + (ListTags(ArrTime, f.arrTime)
      + ((if f.depAirport != "" then [Tag(DepAirport, f.depAirport)] else []) + []))))))
      + (if PriceTagShown(f.price) then [Tag(PriceKey, PriceTagText(f.price.n))] else [])
  {
    var cs := CategoryOrder;
    EntriesTagsTail(f, cs);
    EntriesTagsHead(f, cs);
  }

  /** The airport entry and the price entry, which `EntriesTags` leaves to the price tag. */
  lemma EntriesTagsTail(f: Filters, cs: seq<Category>)
    requires cs == CategoryOrder
    ensures EntriesTags(f, cs[5..]) == (if f.depAirport != "" then [Tag(DepAirport, f.depAirport)] else []) + []
  {
    assert EntriesTags(f, cs[7..]) == [] by { assert cs[7..] == []; }
    EntriesTagsStep(f, cs, 6);
    EntriesTagsStep(f, cs, 5);
  }

  /** The five list entries in front of the airport, unfolded one at a time. */
  lemma EntriesTagsHead(f: Filters, cs: seq<Category>)
    requires cs == CategoryOrder
    ensures EntriesTags(f, cs) ==
      ListTags(Popular, f.popular) + (ListTags(Airlines, f.airlines) + (ListTags(Stops, f.stops)
      + (ListTags(DepTime, f.depTime) + (ListTags(ArrTime, f.arrTime) + EntriesTags(f, cs[5..])))))
  {
    EntriesTagsStep(f, cs, 4);
    EntriesTagsStep(f, cs, 3);
    EntriesTagsStep(f, cs, 2);
    EntriesTagsStep(f, cs, 1);
    EntriesTagsStep(f, cs, 0);
    assert cs[0..] == cs;
  }

  /** A tag is shown exactly when some option is ticked, an airport is chosen or the ceiling is lowered. */
  lemma ClearAllEnabledIff(f: Filters)
    ensures ClearAllEnabled(f) <==>
      f.popular != [] || f.airlines != [] || f.stops != [] || f.depTime != [] || f.arrTime != []
      || f.depAirport != "" || PriceTagShown(f.price)
  {
    TagsUnfolded(f);
  }

  /** The default filters show no tag, so Clear All is disabled right after it is used. */
  lemma DefaultShowsNoTags()
    ensures !ClearAllEnabled(DefaultFilters)
  {
    ClearAllEnabledIff(DefaultFilters);
  }

  /** The remove button of a tag makes that tag disappear. */
  lemma RemoveTagHidesIt(f: Filters, t: Tag)
    requires t in Tags(f)
    ensures t !in Tags(RemoveFilter(f, t.cat, t.value))
    ensures t !in Tags(RemoveFilterAsWritten(f, t.cat, t.value))
  {
    var g := RemoveFilter(f, t.cat, t.value);
    var h := RemoveFilterAsWritten(f, t.cat, t.value);
    TagsMembership(f, t);
    TagsMembership(g, t);
    TagsMembership(h, t);
  }

  /** Which tags `Tags` holds, stated per category. */
  lemma TagsMembership(f: Filters, t: Tag)
    ensures t in Tags(f) <==>
      (IsList(t.cat) && t.value in Values(f, t.cat))
      || (t.cat == DepAirport && f.depAirport != "" && t.value == f.depAirport)
      || (t.cat == PriceKey && PriceTagShown(f.price) && t.value == PriceTagText(f.price.n))
  {
    TagsUnfolded(f);
    ListTagsMembership(Popular, f.popular, t);
    ListTagsMembership(Airlines, f.airlines, t);
    ListTagsMembership(Stops, f.stops, t);
    ListTagsMembership(DepTime, f.depTime, t);
    ListTagsMembership(ArrTime, f.arrTime, t);
  }

  lemma ListTagsMembership(c: Category, vs: seq<string>, t: Tag)
    ensures t in ListTags(c, vs) <==> t.cat == c && t.value in vs
  {
    if t.cat == c && t.value in vs {
      var i :| 0 <= i < |vs| && vs[i] == t.value;
      assert ListTags(c, vs)[i] == t;
    }
  }
}
