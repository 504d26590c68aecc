/** The about page (`AboutSection` and `TestimonialSection`): the testimonial
    carousel with its slide direction, the chef-image and featured-image
    carousels, and the award badges, star rows and avatar stack. */
module About {

  // ---------------------------------------------------------------------------
  // Index arithmetic
  // ---------------------------------------------------------------------------

  /** JavaScript's `a % n` on integers for a positive divisor: the remainder of
      division truncated toward zero, so it takes the sign of `a`. For a
      non-negative `a` it is Dafny's own (Euclidean) remainder; for a negative
      `a` it is the negated remainder of `-a`. */
  function JsRemainder(a: int, n: int): (r: int)
    requires n > 0
    ensures a >= 0 ==> 0 <= r < n && r == a % n
    ensures a < 0 ==> -n < r <= 0 && r == -((-a) % n)
    decreases if a < 0 then 1 - a else a
  {
    if a < 0 then -JsRemainder(-a, n)
    else if a < n then a
    else RemainderShift(a, n); JsRemainder(a - n, n)
  }

  /** A non-zero multiple of a positive `n` is at least `n` away from 0. */
  lemma MultipleBound(d: int, n: int)
    requires n > 0
    ensures d != 0 ==> d * n >= n || d * n <= -n
  {
    if d >= 1 {
      assert d * n == n + (d - 1) * n;
      assert (d - 1) * n >= 0;
    } else if d <= -1 {
      assert d * n == -n + (d + 1) * n;
      assert (d + 1) * n <= 0;
    }
  }

  /** The remainder of `q * n + r` is `r` whenever `0 <= r < n`. */
  lemma RemainderUnique(x: int, n: int, q: int, r: int)
    requires n > 0 && 0 <= r < n && x == q * n + r
    ensures x % n == r
  {
    var q', r' := x / n, x % n;
    assert (q - q') * n == r' - r;
    MultipleBound(q - q', n);
  }

  /** Taking away one divisor does not change the remainder. */
  lemma RemainderShift(a: int, n: int)
    requires n > 0
    ensures (a - n) % n == a % n
  {
    assert a - n == (a / n - 1) * n + a % n;
    RemainderUnique(a - n, n, a / n - 1, a % n);
  }

  /** `(prev + 1) % length`: the index after `i` in a carousel of `n` items. */
  function NextIndex(i: int, n: int): (j: int)
    requires 0 <= i < n
    ensures 0 <= j < n
    ensures j == if i == n - 1 then 0 else i + 1
  {
    assert i + 1 == n ==> JsRemainder(i + 1, n) == JsRemainder(0, n);
    JsRemainder(i + 1, n)
  }

  /** `(prev - 1 + length) % length`: the index before `i` in a carousel of `n` items. */
  function PrevIndex(i: int, n: int): (j: int)
    requires 0 <= i < n
    ensures 0 <= j < n
    ensures j == if i == 0 then n - 1 else i - 1
  {
    assert i > 0 ==> JsRemainder(i - 1 + n, n) == JsRemainder(i - 1, n);
    JsRemainder(i - 1 + n, n)
  }

  /** Stepping back undoes stepping forward. */
  lemma PrevUndoesNext(i: int, n: int)
    requires 0 <= i < n
    ensures PrevIndex(NextIndex(i, n), n) == i
  {
  }

  /** Stepping forward undoes stepping back. */
  lemma NextUndoesPrev(i: int, n: int)
    requires 0 <= i < n
    ensures NextIndex(PrevIndex(i, n), n) == i
  {
  }

  /** The index after `k` forward steps from `i`. */
  function NextTimes(i: int, n: int, k: nat): (j: int)
    requires 0 <= i < n
    ensures 0 <= j < n
    decreases k
  {
    if k == 0 then i else NextTimes(NextIndex(i, n), n, k - 1)
  }

  /** `a` steps followed by `b` steps are `a + b` steps. */
  lemma {:induction false} NextTimesAdd(i: int, n: int, a: nat, b: nat)
    requires 0 <= i < n
    ensures NextTimes(i, n, a + b) == NextTimes(NextTimes(i, n, a), n, b)
    decreases a
  {
    if a > 0 {
      NextTimesAdd(NextIndex(i, n), n, a - 1, b);
    }
  }

  /** Without reaching the end, `k` steps move the index up by `k`. */
  lemma {:induction false} NextTimesClimbs(i: int, n: int, k: nat)
    requires 0 <= i && i + k < n
    ensures NextTimes(i, n, k) == i + k
    decreases k
  {
    if k > 0 {
      NextTimesClimbs(i + 1, n, k - 1);
    }
  }

  /** `n` forward steps in a carousel of `n` items return to the start. */
  lemma FullCycle(i: int, n: int)
    requires 0 <= i < n
    ensures NextTimes(i, n, n) == i
  {
    NextTimesAdd(i, n, n - 1 - i, 1);
    NextTimesClimbs(i, n, n - 1 - i);
    NextTimesAdd(i, n, n - i, i);
    NextTimesClimbs(0, n, i);
  }

  /** The number of steps in `rounds` rounds of `n`, counted round by round. */
  function RoundSteps(rounds: nat, n: nat): (k: nat)
    ensures k == rounds * n
    decreases rounds
  {
    if rounds == 0 then 0 else n + RoundSteps(rounds - 1, n)
  }

  /** Whole rounds counted round by round return to the start. */
  lemma {:induction false} RoundsReturn(i: int, n: int, rounds: nat)
    requires 0 <= i < n
    ensures NextTimes(i, n, RoundSteps(rounds, n)) == i
    decreases rounds
  {
    if rounds > 0 {
      NextTimesAdd(i, n, n, RoundSteps(rounds - 1, n));
      FullCycle(i, n);
      RoundsReturn(i, n, rounds - 1);
    }
  }

  /** Any whole number of rounds returns to the start; three reviews and six
      clicks on "next" come back to the review shown first. */
  lemma WholeRounds(i: int, n: int, rounds: nat)
    requires 0 <= i < n
    ensures NextTimes(i, n, rounds * n) == i
  {
    RoundsReturn(i, n, rounds);
  }




  // ---------------------------------------------------------------------------
  // Testimonial carousel
  // ---------------------------------------------------------------------------

  datatype Review = Review(quote: string, author: string, role: string)

  /** `TestimonialSection`'s state: `currentIndex` and `direction`, both
      starting at 0, over the fixed list `testimonials.reviews`. */
  class TestimonialCarousel {
    const reviews: seq<Review>
    var currentIndex: int
    var direction: int

    ghost predicate Valid()
      reads this
    {
      && |reviews| > 0
      && 0 <= currentIndex < |reviews|
      && (direction == -1 || direction == 0 || direction == 1)
    }

    /** Mounting the section; the review list must be non-empty because the
        first render reads `reviews[0]`. */
    constructor (reviews: seq<Review>)
      requires |reviews| > 0
      ensures Valid()
      ensures this.reviews == reviews && currentIndex == 0 && direction == 0
    {
      this.reviews := reviews;
      currentIndex := 0;
      direction := 0;
    }

    /** `nextTestimonial`: direction 1, index one step forward with wrap-around. */
    method NextTestimonial()
      requires Valid()
      modifies this
      ensures Valid()
      ensures direction == 1
      ensures currentIndex == NextIndex(old(currentIndex), |reviews|)
    {
      direction := 1;
      currentIndex := JsRemainder(currentIndex + 1, |reviews|);
    }

    /** `prevTestimonial`: direction -1, index one step back with wrap-around. */
    method PrevTestimonial()
      requires Valid()
      modifies this
      ensures Valid()
      ensures direction == -1
      ensures currentIndex == PrevIndex(old(currentIndex), |reviews|)
    {
      direction := -1;
      currentIndex := JsRemainder(currentIndex - 1 + |reviews|, |reviews|);
    }

    /** `testimonials.reviews[currentIndex]`: always a review of the list. */
    function CurrentReview(): (r: Review)
      reads this
      requires Valid()
      ensures r in reviews
    {
      reviews[currentIndex]
    }

    /** Where the quote now shown slides in from and where the previous one slides out to. */
    function CurrentSlide(): (s: (int, int))
      reads this
      requires Valid()
      ensures direction == 1 ==> s == (100, -100)
      ensures direction == -1 ==> s == (-100, 100)
    {
      (EnterOffset(direction), ExitOffset(direction))
    }
  }

  // ---------------------------------------------------------------------------
  // Slide variants
  // ---------------------------------------------------------------------------

  /** `slideVariants.enter(direction).x`: from the right when moving forward. */
  function EnterOffset(direction: int): (x: int)
    ensures x == 100 || x == -100
    ensures x == 100 <==> direction > 0
  {
    if direction > 0 then 100 else -100
  }

  /** `slideVariants.exit(direction).x`: to the right when moving back. */
  function ExitOffset(direction: int): (x: int)
    ensures x == 100 || x == -100
    ensures x == 100 <==> direction < 0
  {
    if direction < 0 then 100 else -100
  }

  /** For a real step the incoming and outgoing quotes move the same way, so the
      enter offset mirrors the exit offset; for the initial direction 0 both are -100. */
  lemma SlideMirrors(direction: int)
    ensures direction != 0 ==> EnterOffset(direction) == -ExitOffset(direction)
    ensures direction == 0 ==> EnterOffset(direction) == ExitOffset(direction) == -100
  {
  }

  // ---------------------------------------------------------------------------
  // Featured and chef image carousels
  // ---------------------------------------------------------------------------

  /** `AboutSection`'s state: `featuredIndex` and `chefIndex`, both starting
      at 0; the chef carousel runs over `about.chefImages`. */
  class AboutGallery {
    const chefImages: seq<string>
    var featuredIndex: int
    var chefIndex: int

    ghost predicate Valid()
      reads this
    {
      && |chefImages| > 0
      && featuredIndex == 0
      && 0 <= chefIndex < |chefImages|
    }

    constructor (chefImages: seq<string>)
      requires |chefImages| > 0
      ensures Valid()
      ensures this.chefImages == chefImages && featuredIndex == 0 && chefIndex == 0
    {
      this.chefImages := chefImages;
      featuredIndex := 0;
      chefIndex := 0;
    }

    /** `nextFeatured`: `(prev + 1) % 1`, which leaves the featured image at 0. */
    method NextFeatured()
      requires Valid()
      modifies this
      ensures Valid()
      ensures featuredIndex == 0 && chefIndex == old(chefIndex)
    {
      assert JsRemainder(featuredIndex + 1, 1) == JsRemainder(0, 1);
      featuredIndex := JsRemainder(featuredIndex + 1, 1);
    }

    /** `nextChef`: the chef image one step forward with wrap-around. */
    method NextChef()
      requires Valid()
      modifies this
      ensures Valid()
      ensures chefIndex == NextIndex(old(chefIndex), |chefImages|)
      ensures featuredIndex == old(featuredIndex)
    {
      chefIndex := JsRemainder(chefIndex + 1, |chefImages|);
    }

    /** `about.chefImages[chefIndex]`: always an image of the list. */
    function ChefImage(): (src: string)
      reads this
      requires Valid()
      ensures src in chefImages
    {
      chefImages[chefIndex]
    }
  }

  // ---------------------------------------------------------------------------
  // Award badges, stars and avatars
  // ---------------------------------------------------------------------------

  datatype Award = Award(id: string, source: string, award: string, stars: int)

  /** One `<Star key={i} />`. */
  datatype StarView = StarView(key: nat)

  datatype BadgeView = BadgeView(key: string, stars: seq<StarView>, source: string, award: string)

  /** `Array.from({ length: count }).map((_, i) => <Star key={i} />)`: the
      length is clamped at 0, so a negative count draws no star. */
  function Stars(count: int): (stars: seq<StarView>)
    ensures |stars| == if count > 0 then count else 0
    ensures forall i :: 0 <= i < |stars| ==> stars[i].key == i
  {
    if count <= 0 then [] else Stars(count - 1) + [StarView(count - 1)]
  }

  /** `about.awards.map(...)`: one badge per award, in order, keyed by the award
      id, with the award's star count. */
  function AwardBadges(awards: seq<Award>): (badges: seq<BadgeView>)
    ensures |badges| == |awards|
    ensures forall i :: 0 <= i < |badges| ==>
      && badges[i].key == awards[i].id
      && badges[i].source == awards[i].source
      && badges[i].award == awards[i].award
      && |badges[i].stars| == if awards[i].stars > 0 then awards[i].stars else 0
  {
    if awards == [] then []
    else
      var a := awards[0];
      [BadgeView(a.id, Stars(a.stars), a.source, a.award)] + AwardBadges(awards[1..])
  }

  /** One avatar of the stack: keyed by position, captioned "Customer <ordinal>". */
  datatype AvatarView = AvatarView(key: nat, src: string, ordinal: nat)

  /** `customerCount.avatars.map((avatar, index) => ...)`, numbering avatars
      from `first`. */
  function AvatarViews(avatars: seq<string>, first: nat): (views: seq<AvatarView>)
    ensures |views| == |avatars|
    ensures forall i :: 0 <= i < |views| ==>
      views[i].key == first + i && views[i].ordinal == first + i + 1 && views[i].src == avatars[i]
  {
    if avatars == [] then []
    else [AvatarView(first, avatars[0], first + 1)] + AvatarViews(avatars[1..], first + 1)
  }

  /** The avatar stack: the k-th avatar is keyed `k`, numbered `k + 1` and
      shows image `k`. */
  function Avatars(avatars: seq<string>): (views: seq<AvatarView>)
    ensures |views| == |avatars|
    ensures forall k :: 0 <= k < |views| ==>
      views[k].key == k && views[k].ordinal == k + 1 && views[k].src == avatars[k]
  {
    AvatarViews(avatars, 0)
  }
}
