/** The dashboard's recommendation carousel (next, previous, jump to a dot)
    and the shortened wallet address in its greeting. */
module Dashboard {
  import opened Wrappers
  import opened JsString
  import opened Numbers

  /** The number of recommendations the carousel cycles through. */
  const RecommendationCount := 3

  /** The slide after `i`, wrapping from the last to the first. */
  function NextIndex(i: nat, count: nat): (r: nat)
    requires i < count
    ensures r < count
    ensures i < count - 1 ==> r == i + 1
    ensures i == count - 1 ==> r == 0
  {
    (i + 1) % count
  }

  /** The slide before `i`, wrapping from the first to the last. */
  function PrevIndex(i: nat, count: nat): (r: nat)
    requires i < count
    ensures r < count
  {
    if i == 0 then count - 1 else i - 1
  }

  /** Previous undoes next and next undoes previous. */
  lemma NextPrevInverse(i: nat, count: nat)
    requires i < count
    ensures PrevIndex(NextIndex(i, count), count) == i
    ensures NextIndex(PrevIndex(i, count), count) == i
  {
  }

  /** The slide reached from `i` by `k` clicks on next. */
  function NextTimes(i: nat, count: nat, k: nat): (r: nat)
    requires i < count
    ensures r < count
  {
    if k == 0 then i else NextIndex(NextTimes(i, count, k - 1), count)
  }

  /** Below the last slide, `k` clicks on next advance by `k`. */
  lemma {:induction false} NextTimesClimb(i: nat, count: nat, k: nat)
    requires i + k < count
    ensures NextTimes(i, count, k) == i + k
  {
    if k > 0 {
      NextTimesClimb(i, count, k - 1);
    }
  }

  /** `a` clicks then `b` clicks are `a + b` clicks. */
  lemma {:induction false} NextTimesAdd(i: nat, count: nat, a: nat, b: nat)
    requires i < count
    ensures NextTimes(i, count, a + b) == NextTimes(NextTimes(i, count, a), count, b)
  {
    if b > 0 {
      NextTimesAdd(i, count, a, b - 1);
    }
  }

  /** A full round of next clicks comes back to the starting slide. */
  lemma NextFullCycle(i: nat, count: nat)
    requires i < count
    ensures NextTimes(i, count, count) == i
  {
    NextTimesAdd(i, count, count - i, i);
    NextTimesClimb(i, count, count - i - 1);
    assert NextTimes(i, count, count - i) == 0;
    NextTimesClimb(0, count, i);
  }

  /** The dots under the carousel, `true` for the active one. */
  function DotRow(current: nat, count: nat): (dots: seq<bool>)
    ensures |dots| == count
  {
    seq(count, index requires 0 <= index < count => index == current)
  }

  /** How many of the first `n` dots are active. */
  function ActiveAmong(dots: seq<bool>, n: nat): nat
    requires n <= |dots|
  {
    if n == 0 then 0 else ActiveAmong(dots, n - 1) + (if dots[n - 1] then 1 else 0)
  }

  /** Among the first `n` dots, only the current slide's can be active. */
  lemma {:induction false} ActiveAmongPrefix(current: nat, count: nat, n: nat)
    requires n <= count
    ensures ActiveAmong(DotRow(current, count), n) == if current < n then 1 else 0
  {
    if n > 0 {
      ActiveAmongPrefix(current, count, n - 1);
    }
  }

  /** Exactly one dot is active when the current slide is one of the slides. */
  lemma ExactlyOneActiveDot(current: nat, count: nat)
    requires current < count
    ensures ActiveAmong(DotRow(current, count), count) == 1
    ensures DotRow(current, count)[current]
  {
    ActiveAmongPrefix(current, count, count);
  }

  /** The carousel's state: which recommendation is shown. */
  class Carousel {
    const slideCount: nat
    var currentSlide: nat

    ghost predicate Valid()
      reads this
    {
      currentSlide < slideCount
    }

    constructor ()
      ensures Valid() && slideCount == RecommendationCount && currentSlide == 0
    {
      slideCount := RecommendationCount;
      currentSlide := 0;
    }

    method NextSlide()
      requires Valid()
      modifies this
      ensures Valid() && currentSlide == NextIndex(old(currentSlide), slideCount)
    {
      currentSlide := (currentSlide + 1) % slideCount;
    }

    method PrevSlide()
      requires Valid()
      modifies this
      ensures Valid() && currentSlide == PrevIndex(old(currentSlide), slideCount)
    {
      currentSlide := if currentSlide == 0 then slideCount - 1 else currentSlide - 1;
    }

    /** A click on dot `index`; the dots are rendered one per slide. */
    method SelectDot(index: nat)
      requires Valid() && index < slideCount
      modifies this
      ensures Valid() && currentSlide == index
    {
      currentSlide := index;
    }

    /** The dot row as rendered for the current state. */
    function Dots(): (dots: seq<bool>)
      reads this
      requires Valid()
      ensures |dots| == slideCount && ActiveAmong(dots, slideCount) == 1 && dots[currentSlide]
    {
      ExactlyOneActiveDot(currentSlide, slideCount);
      DotRow(currentSlide, slideCount)
    }
  }

  // ---------------------------------------------------------------------------
  // Greeting

  /** `a.slice(0, 6)`: the prefix of `a` of length six, or all of `a` when shorter. */
  function SliceHead(a: string): (r: string)
    ensures |r| == Min(|a|, 6) && r == a[..|r|]
  {
    if |a| <= 6 then a else a[..6]
  }

  /** `a.slice(-4)`: the suffix of `a` of length four, or all of `a` when shorter. */
  function SliceTail(a: string): (r: string)
    ensures |r| == Min(|a|, 4) && r == a[|a| - |r|..]
  {
    if |a| <= 4 then a else a[|a| - 4..]
  }

  /** The name in the greeting: the shortened address, or "there" without one. */
  function UserName(address: Option<string>): (r: string)
    ensures Truthy(address) ==>
      var n := Min(|address.value|, 6);
      |r| == n + 3 + Min(|address.value|, 4) && r[n..n + 3] == "..."
    ensures r == "there" <==> !Truthy(address)
  {
    if Truthy(address) then
      var head := SliceHead(address.value);
      var r := head + "..." + SliceTail(address.value);
      // Only a one-character address gives five characters, and then the
      // second one is a dot, where "there" has an 'h'.
      assert r[|head|] == '.' && (|r| == 5 ==> |head| == 1 && "there"[1] != '.');
      r
    else "there"
  }

  /** A long address shows its first six and last four characters around "...";
      a shorter one shows what it has (its ends may overlap); none greets "there". */
  lemma UserNameShape(address: Option<string>)
    ensures !Truthy(address) ==> UserName(address) == "there"
    ensures Truthy(address) && |address.value| >= 10 ==>
      var a, r := address.value, UserName(address);
      |r| == 13 && r[..6] == a[..6] && r[6..9] == "..." && r[9..] == a[|a| - 4..]
    ensures Truthy(address) ==>
      var a := address.value;
      UserName(address) == a[..(if |a| < 6 then |a| else 6)] + "..." + a[|a| - (if |a| < 4 then |a| else 4)..]
  {
    if Truthy(address) {
      var a := address.value;
      assert a[..|a|] == a && a[|a| - |a|..] == a;
    }
  }
}
