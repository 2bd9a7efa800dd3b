/**
 * The sponsor carousel: five slides, next and previous buttons that wrap
 * around, dots that jump to a slide and pause autoplay, and the autoplay
 * tick that advances while autoplay is on. Timers are events: the tick and
 * the resumption of autoplay are methods the caller invokes.
 */
module SponsorCarousel {

  datatype Sponsor = Sponsor(id: nat, name: string, logo: string, description: string)

  const Sponsors: seq<Sponsor> := [
    Sponsor(1, "Ministère de l'Éducation", "/sponsors/ministere-education.png", "Partenaire officiel"),
    Sponsor(2, "UNESCO", "/sponsors/unesco.png", "Soutien international"),
    Sponsor(3, "Université de Brazzaville", "/sponsors/universite-brazzaville.png", "Recherche pédagogique"),
    Sponsor(4, "Fondation pour l'Éducation", "/sponsors/fondation-education.png", "Financement"),
    Sponsor(5, "CEREDIS Partenaires", "/sponsors/ceredis-partners.png", "Réseau éducatif")]

  /** The number of slides. */
  const N: nat := |Sponsors|

  /** The index after `i`, the last one wrapping to 0. */
  function NextIndex(i: int): (j: int)
    ensures 0 <= i < N ==> 0 <= j < N && j == (i + 1) % N
  {
    if i == N - 1 then 0 else i + 1
  }

  /** The index before `i`, 0 wrapping to the last one. */
  function PrevIndex(i: int): (j: int)
    ensures 0 <= i < N ==> 0 <= j < N && j == (i + N - 1) % N
  {
    if i == 0 then N - 1 else i - 1
  }

  /** Previous undoes next, and next undoes previous. */
  lemma PrevNextInverse(i: int)
    requires 0 <= i < N
    ensures PrevIndex(NextIndex(i)) == i
    ensures NextIndex(PrevIndex(i)) == i
  {
  }

  /** `k` presses of next. */
  function AdvanceBy(i: int, k: nat): int {
    if k == 0 then i else NextIndex(AdvanceBy(i, k - 1))
  }

  lemma {:induction false} AdvanceByIsModular(i: int, k: nat)
    requires 0 <= i < N
    ensures AdvanceBy(i, k) == (i + k) % N
  {
    if k > 0 {
      AdvanceByIsModular(i, k - 1);
      ModSucc(i + k - 1);
    }
  }

  lemma ModSucc(a: nat)
    ensures (a % N + 1) % N == (a + 1) % N
  {
    var q, r := a / N, a % N;
    assert a == q * N + r;
    if r + 1 < N {
      assert a + 1 == q * N + (r + 1);
    } else {
      assert a + 1 == (q + 1) * N;
    }
  }

  /** Five presses of next return to the starting slide. */
  lemma FullTurn(i: int)
    requires 0 <= i < N
    ensures AdvanceBy(i, N) == i
  {
    AdvanceByIsModular(i, N);
  }

  /** The carousel's state. */
  class Carousel {
    var currentIndex: int
    var isAutoPlaying: bool

    /** The index always names a slide. */
    predicate Valid()
      reads this
    {
      0 <= currentIndex < N
    }

    /** The first slide, autoplaying. */
    constructor ()
      ensures currentIndex == 0 && isAutoPlaying
      ensures Valid()
    {
      currentIndex := 0;
      isAutoPlaying := true;
    }

    method NextSlide()
      requires Valid()
      modifies this
      ensures currentIndex == NextIndex(old(currentIndex)) && isAutoPlaying == old(isAutoPlaying)
      ensures Valid()
    {
      currentIndex := if currentIndex == N - 1 then 0 else currentIndex + 1;
    }

    method PrevSlide()
      requires Valid()
      modifies this
      ensures currentIndex == PrevIndex(old(currentIndex)) && isAutoPlaying == old(isAutoPlaying)
      ensures Valid()
    {
      currentIndex := if currentIndex == 0 then N - 1 else currentIndex - 1;
    }

    /** A dot: jump to slide `index` and pause autoplay. */
    method GoToSlide(index: int)
      requires 0 <= index < N
      modifies this
      ensures currentIndex == index && !isAutoPlaying
      ensures Valid()
    {
      currentIndex := index;
      isAutoPlaying := false;
    }

    /** The autoplay timer firing: it exists only while autoplay is on. */
    method Tick()
      requires Valid()
      modifies this
      ensures currentIndex == (if old(isAutoPlaying) then NextIndex(old(currentIndex)) else old(currentIndex))
      ensures isAutoPlaying == old(isAutoPlaying)
      ensures Valid()
    {
      if isAutoPlaying {
        currentIndex := if currentIndex == N - 1 then 0 else currentIndex + 1;
      }
    }

    /** The delayed restart after a dot press. */
    method ResumeAutoPlay()
      requires Valid()
      modifies this
      ensures isAutoPlaying && currentIndex == old(currentIndex)
      ensures Valid()
    {
      isAutoPlaying := true;
    }
  }
}
