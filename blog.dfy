/**
 * The testimonials page: a carousel that shows two reviews per slide, a draft
 * review with at most three images, submitting a review to the front of the
 * list and deleting a review the visitor added.
 */
module Blog {
  import opened JsOps

  datatype Testimonial = Testimonial(
    id: int, name: string, location: string, rating: int, review: string,
    images: seq<string>, date: string, isUserAdded: bool)

  /** The review being written in the "Share Your Experience" dialog. */
  datatype Draft = Draft(name: string, location: string, rating: int, review: string, images: seq<string>)

  datatype DraftField = Name | Location | ReviewText

  const BlankDraft := Draft("", "", 5, "", [])

  const MaxImages := 3

  const InitialTestimonials: seq<Testimonial> := [
    Testimonial(1, "Priya Sharma", "Mumbai, India", 5,
      "Amazing experience booking through Tripar! The flight search was so easy and I found the best deals. The customer service was exceptional.",
      ["https://images.unsplash.com/photo-1544005313-94ddf0286df2?w=400", "https://images.unsplash.com/photo-1469474968028-56623f02e42e?w=400"],
      "2024-12-15", false),
    Testimonial(2, "Rahul Verma", "Delhi, India", 4,
      "Great platform for booking flights. The interface is user-friendly and I love the fare comparison feature. Highly recommended!",
      ["https://images.unsplash.com/photo-1507003211169-0a1dd7228f2d?w=400"],
      "2024-12-10", false),
    Testimonial(3, "Anita Patel", "Ahmedabad, India", 5,
      "Booked my family vacation through Tripar and everything was seamless. From booking to customer support, everything was perfect!",
      ["https://images.unsplash.com/photo-1438761681033-6461ffad8d80?w=400", "https://images.unsplash.com/photo-1501594907352-04cda38ebc29?w=400"],
      "2024-12-08", false),
    Testimonial(4, "Vikram Singh", "Bangalore, India", 4,
      "Love the student fare options! Saved a lot of money on my flight bookings. The app is fast and reliable.",
      [], "2024-12-05", false)
  ]

  // ---------------------------------------------------------------------------
  // Carousel
  // ---------------------------------------------------------------------------

  /** `Math.ceil(n / 2)`: the number of slides. */
  function SlideCount(n: nat): (k: nat)
    ensures 2 * k == n || 2 * k == n + 1
  {
    (n + 1) / 2
  }

  function NextSlideIndex(cur: int, k: int): (r: int)
    requires cur >= 0 && k > 0
    ensures 0 <= r < k
    ensures r == (cur + 1) % k
  {
    JsRem(cur + 1, k)
  }

  function PrevSlideIndex(cur: int, k: int): (r: int)
    requires cur >= 0 && k > 0
    ensures 0 <= r < k
    ensures r == (cur - 1 + k) % k
  {
    JsRem(cur - 1 + k, k)
  }

  /** Euclidean remainder of a number below twice the divisor. */
  lemma RemBelowTwice(a: int, k: int)
    requires k > 0 && 0 <= a < 2 * k
    ensures a % k == if a < k then a else a - k
  {
    if a < k {
      assert a == 0 * k + a;
    } else {
      assert a == 1 * k + (a - k);
    }
  }

  /** Previous undoes next and next undoes previous on every slide in range. */
  lemma PrevNextInverse(cur: int, k: int)
    requires 0 <= cur < k
    ensures PrevSlideIndex(NextSlideIndex(cur, k), k) == cur
    ensures NextSlideIndex(PrevSlideIndex(cur, k), k) == cur
  {
    RemBelowTwice(cur + 1, k);
    var n := NextSlideIndex(cur, k);
    RemBelowTwice(n - 1 + k, k);
    RemBelowTwice(cur - 1 + k, k);
    var p := PrevSlideIndex(cur, k);
    RemBelowTwice(p + 1, k);
  }

  /** Next wraps from the last slide to the first; previous from the first to the last. */
  lemma SlidesWrapAround(k: int)
    requires k > 0
    ensures NextSlideIndex(k - 1, k) == 0
    ensures PrevSlideIndex(0, k) == k - 1
  {
  }

  /** `testimonials.slice(cur * 2, cur * 2 + 2)`. */
  function VisibleOn(ts: seq<Testimonial>, cur: nat): (v: seq<Testimonial>)
    ensures |v| <= 2
    ensures 2 * cur + 2 <= |ts| ==> v == ts[2 * cur..2 * cur + 2]
  {
    Slice(ts, 2 * cur, 2 * cur + 2)
  }

  /** Testimonial `i` is shown on slide `i / 2`, in position `i % 2`; a slide is empty exactly past the last one. */
  lemma {:induction false} EverySlidePlacesItsPair(ts: seq<Testimonial>, cur: nat, i: int)
    requires 0 <= i < |ts|
    ensures |VisibleOn(ts, i / 2)| > i % 2 && VisibleOn(ts, i / 2)[i % 2] == ts[i]
    ensures VisibleOn(ts, cur) == [] <==> cur >= SlideCount(|ts|)
  {
    var b := i / 2;
    var e := if 2 * b + 2 <= |ts| then 2 * b + 2 else |ts|;
    assert VisibleOn(ts, b) == ts[2 * b..e];
  }

  // ---------------------------------------------------------------------------
  // Images of the draft
  // ---------------------------------------------------------------------------

  /** `images.filter((_, i) => i !== index)`. */
  function RemoveAt<T>(s: seq<T>, index: int): (r: seq<T>)
    ensures 0 <= index < |s| ==> |r| == |s| - 1 && multiset(r) + multiset{s[index]} == multiset(s)
    ensures 0 <= index < |s| ==> forall j | 0 <= j < |r| :: r[j] == if j < index then s[j] else s[j + 1]
    ensures !(0 <= index < |s|) ==> r == s
  {
    if 0 <= index < |s| then
      assert s == s[..index] + [s[index]] + s[index + 1..];
      s[..index] + s[index + 1..]
    else s
  }

  // ---------------------------------------------------------------------------
  // Review ids
  // ---------------------------------------------------------------------------

  predicate UniqueIds(ts: seq<Testimonial>) {
    forall i, j | 0 <= i < j < |ts| :: ts[i].id != ts[j].id
  }

  function MaxId(ts: seq<Testimonial>): (m: int)
    ensures m >= 0
    ensures forall t | t in ts :: t.id <= m
  {
    if ts == [] then 0
    else if ts[0].id > MaxId(ts[1..]) then ts[0].id
    else MaxId(ts[1..])
  }

  /** The id `handleSubmitReview` gives a new review: one past the list's length. */
  function NextIdAsWritten(ts: seq<Testimonial>): (id: int)
    ensures id >= 1
    ensures (forall t | t in ts :: t.id <= |ts|) ==> forall t | t in ts :: t.id != id
  {
    |ts| + 1
  }

  /** The id a new review should get: one past the largest id in the list, so no review has it. */
  function NextId(ts: seq<Testimonial>): (id: int)
    ensures id >= 1
    ensures forall t | t in ts :: t.id != id
  {
    MaxId(ts) + 1
  }

  function UserReview(d: Draft, id: int, date: string): Testimonial {
    Testimonial(id, d.name, d.location, d.rating, d.review, d.images, date, true)
  }

  /** The list after a review with the given id is submitted: the review comes first. */
  function AddReview(ts: seq<Testimonial>, d: Draft, id: int, date: string): (r: seq<Testimonial>)
    ensures |r| == |ts| + 1 && r[1..] == ts
    ensures r[0].id == id && r[0].isUserAdded && r[0].date == date
    ensures r[0].name == d.name && r[0].location == d.location && r[0].review == d.review
    ensures r[0].rating == d.rating && r[0].images == d.images
  {
    [UserReview(d, id, date)] + ts
  }

  /** The list after a confirmed delete. */
  function DeleteReview(ts: seq<Testimonial>, id: int): (r: seq<Testimonial>)
    ensures forall t :: t in r <==> t in ts && t.id != id
  {
    var p := (t: Testimonial) => t.id != id;
    forall t { FilterMembership(p, ts, t); }
    Filter(p, ts)
  }

  /** With the corrected id a submitted review never shares an id with another. */
  lemma AddReviewKeepsIdsUnique(ts: seq<Testimonial>, d: Draft, date: string)
    requires UniqueIds(ts)
    ensures UniqueIds(AddReview(ts, d, NextId(ts), date))
  {
    var r := AddReview(ts, d, NextId(ts), date);
    forall i, j | 0 <= i < j < |r|
      ensures r[i].id != r[j].id
    {
      if i == 0 {
        assert r[j] == ts[j - 1];
        assert r[j] in ts;
      } else {
        assert r[i] == ts[i - 1] && r[j] == ts[j - 1];
      }
    }
  }

  /** Deleting keeps the remaining ids unique. */
  lemma {:induction false} DeleteKeepsIdsUnique(ts: seq<Testimonial>, id: int)
    requires UniqueIds(ts)
    ensures UniqueIds(DeleteReview(ts, id))
  {
    if ts != [] {
      var rest := ts[1..];
      UniqueTail(ts);
      DeleteKeepsIdsUnique(rest, id);
      if ts[0].id != id {
        UniqueCons(ts[0], DeleteReview(rest, id));
        assert DeleteReview(ts, id) == [ts[0]] + DeleteReview(rest, id);
      } else {
        assert DeleteReview(ts, id) == DeleteReview(rest, id);
      }
    }
  }

  /** Behind the first review of a list with unique ids comes a list with unique ids none of which is the first's. */
  lemma UniqueTail(ts: seq<Testimonial>)
    requires UniqueIds(ts) && ts != []
    ensures UniqueIds(ts[1..])
    ensures forall t | t in ts[1..] :: t.id != ts[0].id
  {
    var rest := ts[1..];
    forall i, j | 0 <= i < j < |rest| ensures rest[i].id != rest[j].id {
      assert rest[i] == ts[i + 1] && rest[j] == ts[j + 1];
    }
    forall t | t in rest ensures t.id != ts[0].id {
      var k :| 0 <= k < |rest| && rest[k] == t;
      assert ts[k + 1] == t;
    }
  }

  /** A review whose id no review of a list with unique ids has can go in front of it. */
  lemma UniqueCons(t: Testimonial, rest: seq<Testimonial>)
    requires UniqueIds(rest) && forall u | u in rest :: u.id != t.id
    ensures UniqueIds([t] + rest)
  {
    var r := [t] + rest;
    forall i, j | 0 <= i < j < |r| ensures r[i].id != r[j].id {
      assert r[j] == rest[j - 1];
      if i > 0 {
        assert r[i] == rest[i - 1];
      }
    }
  }

  /**
   * With the id as written, submitting two reviews, deleting the first of them and
   * submitting a third gives the third the id the second already has; deleting that
   * id then removes both reviews.
   */
  lemma IdCollisionAsWritten(ts: seq<Testimonial>, a: Draft, b: Draft, c: Draft, date: string)
    requires forall i | 0 <= i < |ts| :: ts[i].id <= |ts|
    ensures var t1 := AddReview(ts, a, NextIdAsWritten(ts), date);
            var t2 := AddReview(t1, b, NextIdAsWritten(t1), date);
            var t3 := DeleteReview(t2, NextIdAsWritten(ts));
            var t4 := AddReview(t3, c, NextIdAsWritten(t3), date);
            !UniqueIds(t4) && |DeleteReview(t4, NextIdAsWritten(t1))| == |t4| - 2
  {
    var n := |ts|;
    var t1 := AddReview(ts, a, NextIdAsWritten(ts), date);
    var t2 := AddReview(t1, b, NextIdAsWritten(t1), date);
    var p := (t: Testimonial) => t.id != n + 1;
    FilterAllPass(p, ts);
    assert t2 == [t2[0]] + ([t1[0]] + ts);
    assert Filter(p, [t1[0]] + ts) == Filter(p, ts);
    var t3 := DeleteReview(t2, NextIdAsWritten(ts));
    assert t3 == [t2[0]] + ts;
    var t4 := AddReview(t3, c, NextIdAsWritten(t3), date);
    assert t4[0].id == n + 2 && t4[1].id == n + 2;
    var q := (t: Testimonial) => t.id != n + 2;
    FilterAllPass(q, ts);
    assert t4 == [t4[0]] + ([t4[1]] + ts);
    assert Filter(q, [t4[1]] + ts) == Filter(q, ts);
    assert DeleteReview(t4, NextIdAsWritten(t1)) == ts;
  }

  /** The page's own reviews meet the premise of the collision. */
  lemma InitialIdsWithinLength()
    ensures forall i | 0 <= i < |InitialTestimonials| :: 1 <= InitialTestimonials[i].id <= |InitialTestimonials|
    ensures UniqueIds(InitialTestimonials)
  {
  }

  // ---------------------------------------------------------------------------
  // The page
  // ---------------------------------------------------------------------------

  class BlogPage {
    var testimonials: seq<Testimonial>
    var currentSlide: int
    var showAddReview: bool
    var draft: Draft

    /** The slide index is never negative, the draft holds at most three images and a rating of 1 to 5, ids are unique. */
    predicate Valid()
      reads this
    {
      currentSlide >= 0 && |draft.images| <= MaxImages && 1 <= draft.rating <= 5 && UniqueIds(testimonials)
    }

    constructor ()
      ensures Valid()
      ensures testimonials == InitialTestimonials && currentSlide == 0 && !showAddReview && draft == BlankDraft
    {
      testimonials := InitialTestimonials;
      currentSlide := 0;
      showAddReview := false;
      draft := BlankDraft;
    }

    /** The reviews on the current slide. */
    function Visible(): seq<Testimonial>
      reads this
      requires Valid()
    {
      VisibleOn(testimonials, currentSlide)
    }

    /** The arrow buttons exist only with more than two reviews. */
    method NextSlide()
      requires Valid() && |testimonials| > 2
      modifies this
      ensures testimonials == old(testimonials) && draft == old(draft) && showAddReview == old(showAddReview)
      ensures Valid() && currentSlide == NextSlideIndex(old(currentSlide), SlideCount(|testimonials|))
    {
      currentSlide := NextSlideIndex(currentSlide, SlideCount(|testimonials|));
    }

    method PrevSlide()
      requires Valid() && |testimonials| > 2
      modifies this
      ensures testimonials == old(testimonials) && draft == old(draft) && showAddReview == old(showAddReview)
      ensures Valid() && currentSlide == PrevSlideIndex(old(currentSlide), SlideCount(|testimonials|))
    {
      currentSlide := PrevSlideIndex(currentSlide, SlideCount(|testimonials|));
    }

    /** A dot under the carousel jumps to its slide. */
    method GoToSlide(i: int)
      requires Valid() && |testimonials| > 2 && 0 <= i < SlideCount(|testimonials|)
      modifies this
      ensures Valid() && currentSlide == i
      ensures testimonials == old(testimonials) && draft == old(draft) && showAddReview == old(showAddReview)
    {
      currentSlide := i;
    }

    method OpenDialog(open: bool)
      requires Valid()
      modifies this
      ensures Valid() && showAddReview == open
      ensures testimonials == old(testimonials) && draft == old(draft) && currentSlide == old(currentSlide)
    {
      showAddReview := open;
    }

    /** Typing into the name, location or review box of the dialog. */
    method EditDraft(field: DraftField, value: string)
      requires Valid()
      modifies this
      ensures Valid()
      ensures draft == match field
                       case Name => old(draft).(name := value)
                       case Location => old(draft).(location := value)
                       case ReviewText => old(draft).(review := value)
      ensures testimonials == old(testimonials) && currentSlide == old(currentSlide) && showAddReview == old(showAddReview)
    {
      match field
      case Name => draft := draft.(name := value);
      case Location => draft := draft.(location := value);
      case ReviewText => draft := draft.(review := value);
    }

    /** Clicking the `stars`-th star. */
    method SetRating(stars: int)
      requires Valid() && 1 <= stars <= 5
      modifies this
      ensures Valid() && draft == old(draft).(rating := stars)
      ensures testimonials == old(testimonials) && currentSlide == old(currentSlide) && showAddReview == old(showAddReview)
    {
      draft := draft.(rating := stars);
    }

    /**
     * `handleImageUpload`: `urls` are the files' contents as data URLs, in file order.
     * An upload that would take the draft past three images is refused whole.
     */
    method UploadImages(urls: seq<string>) returns (accepted: bool)
      requires Valid()
      modifies this
      ensures Valid()
      ensures accepted <==> |old(draft.images)| + |urls| <= MaxImages
      ensures draft == old(draft).(images := if accepted then old(draft.images) + urls else old(draft.images))
      ensures testimonials == old(testimonials) && currentSlide == old(currentSlide) && showAddReview == old(showAddReview)
    {
      if |urls| + |draft.images| > MaxImages {
        return false;
      }
      ghost var start := draft;
      for i := 0 to |urls|
        invariant draft == start.(images := start.images + urls[..i])
        invariant testimonials == old(testimonials) && currentSlide == old(currentSlide) && showAddReview == old(showAddReview)
      {
        assert urls[..i + 1] == urls[..i] + [urls[i]];
        draft := draft.(images := draft.images + [urls[i]]);
      }
      assert urls[..|urls|] == urls;
      return true;
    }

    /** `removeImage(index)`. */
    method RemoveImage(index: int)
      requires Valid()
      modifies this
      ensures Valid() && draft == old(draft).(images := RemoveAt(old(draft.images), index))
      ensures testimonials == old(testimonials) && currentSlide == old(currentSlide) && showAddReview == old(showAddReview)
    {
      draft := draft.(images := RemoveAt(draft.images, index));
    }

    /**
     * `handleSubmitReview`, on `date`: a draft without a name or a review is refused and
     * nothing changes; otherwise the review goes first in the list and the dialog closes
     * with a blank draft.
     */
    method SubmitReview(date: string) returns (accepted: bool)
      requires Valid()
      modifies this
      ensures Valid()
      ensures accepted <==> old(draft.name) != "" && old(draft.review) != ""
      ensures !accepted ==> testimonials == old(testimonials) && draft == old(draft) && showAddReview == old(showAddReview)
      ensures accepted ==> testimonials == AddReview(old(testimonials), old(draft), NextId(old(testimonials)), date)
      ensures accepted ==> draft == BlankDraft && !showAddReview
      ensures currentSlide == old(currentSlide)
    {
      if draft.name == "" || draft.review == "" {
        return false;
      }
      AddReviewKeepsIdsUnique(testimonials, draft, date);
      testimonials := AddReview(testimonials, draft, NextId(testimonials), date);
      draft := BlankDraft;
      showAddReview := false;
      return true;
    }

    /** `handleDeleteReview(id)`: `confirmed` is the visitor's answer to the confirmation prompt. */
    method DeleteReviewById(id: int, confirmed: bool)
      requires Valid()
      modifies this
      ensures Valid()
      ensures testimonials == if confirmed then DeleteReview(old(testimonials), id) else old(testimonials)
      ensures draft == old(draft) && currentSlide == old(currentSlide) && showAddReview == old(showAddReview)
    {
      if confirmed {
        DeleteKeepsIdsUnique(testimonials, id);
        testimonials := DeleteReview(testimonials, id);
      }
    }
  }

  /** A confirmed delete removes exactly the one review with that id when ids are unique. */
  lemma DeleteRemovesOne(ts: seq<Testimonial>, i: int)
    requires UniqueIds(ts) && 0 <= i < |ts|
    ensures |DeleteReview(ts, ts[i].id)| == |ts| - 1
  {
    var p := (t: Testimonial) => t.id != ts[i].id;
    assert ts == ts[..i] + [ts[i]] + ts[i + 1..];
    FilterConcat(p, ts[..i] + [ts[i]], ts[i + 1..]);
    FilterConcat(p, ts[..i], [ts[i]]);
    FilterAllPass(p, ts[..i]);
    FilterAllPass(p, ts[i + 1..]);
    assert Filter(p, [ts[i]]) == [];
  }
}
