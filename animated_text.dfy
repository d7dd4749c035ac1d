/**
 * The rotating headline: every tick first hides the current text, then
 * moves to the next one (wrapping round at the end of the list) and shows it.
 */
module AnimatedText {

  /** The index that follows `i` in a list of `n` texts: the next one, or 0 after the last. */
  function NextIndex(i: nat, n: nat): (r: nat)
    requires i < n
    ensures r < n
    ensures r == if i + 1 == n then 0 else i + 1
  {
    (i + 1) % n
  }

  /** The index after `k` completed ticks, starting from `start`. */
  function IndexAfter(start: nat, k: nat, n: nat): (r: nat)
    requires start < n
    ensures r < n
    decreases k
  {
    if k == 0 then start else NextIndex(IndexAfter(start, k - 1, n), n)
  }

  /** Within one cycle, ticking `k` times moves the index `k` places round the list. */
  lemma {:induction false} IndexAfterWithinCycle(start: nat, k: nat, n: nat)
    requires start < n && k <= n
    ensures IndexAfter(start, k, n) == if start + k < n then start + k else start + k - n
    decreases k
  {
    if k > 0 {
      IndexAfterWithinCycle(start, k - 1, n);
    }
  }

  /** After as many ticks as there are texts, the index is back where it was. */
  lemma {:induction false} FullCycle(start: nat, k: nat, n: nat)
    requires start < n
    ensures IndexAfter(start, k + n, n) == IndexAfter(start, k, n)
    decreases k
  {
    if k == 0 {
      IndexAfterWithinCycle(start, n, n);
    } else {
      FullCycle(start, k - 1, n);
      assert k + n - 1 == (k - 1) + n;
    }
  }

  /** Within one cycle of `n` ticks every text is shown, and none twice. */
  lemma {:induction false} OncePerCycle(start: nat, n: nat, j: nat)
    requires start < n && j < n
    ensures exists k :: 0 <= k < n && IndexAfter(start, k, n) == j
    ensures forall k1, k2 :: 0 <= k1 < k2 < n ==> IndexAfter(start, k1, n) != IndexAfter(start, k2, n)
  {
    var k: nat := if start <= j then j - start else j + n - start;
    IndexAfterWithinCycle(start, k, n);
    assert IndexAfter(start, k, n) == j;
    forall k1, k2 | 0 <= k1 < k2 < n
      ensures IndexAfter(start, k1, n) != IndexAfter(start, k2, n)
    {
      IndexAfterWithinCycle(start, k1, n);
      IndexAfterWithinCycle(start, k2, n);
    }
  }

  /** The five texts the landing page rotates through. */
  const HeroTexts: seq<string> := [
    "Medicine Safety",
    "Drug Interactions",
    "Chemical Analysis",
    "Health Protection",
    "Risk Assessment"
  ]

  /**
   * The component's state: the texts it was given, the index of the text
   * on screen and whether it is faded in. `ticks` counts completed ticks.
   */
  class Rotator {
    const texts: seq<string>
    var currentIndex: nat
    var isVisible: bool
    ghost var ticks: nat

    ghost predicate Valid()
      reads this
    {
      |texts| > 0 && currentIndex < |texts| && currentIndex == IndexAfter(0, ticks, |texts|)
    }

    constructor (texts: seq<string>)
      requires |texts| > 0
      ensures Valid() && this.texts == texts
      ensures currentIndex == 0 && isVisible && ticks == 0
    {
      this.texts := texts;
      currentIndex := 0;
      isVisible := true;
      ticks := 0;
    }

    /** The text on screen, which always exists. */
    function Shown(): (t: string)
      reads this
      requires Valid()
      ensures t in texts
    {
      texts[currentIndex]
    }

    /** The interval callback: fade the current text out. */
    method Hide()
      requires Valid()
      modifies this
      ensures Valid() && !isVisible
      ensures currentIndex == old(currentIndex) && ticks == old(ticks)
    {
      isVisible := false;
    }

    /** The timeout callback: move to the next text and fade it in; one tick is complete. */
    method Reveal()
      requires Valid()
      modifies this
      ensures Valid() && isVisible
      ensures currentIndex == NextIndex(old(currentIndex), |texts|) && ticks == old(ticks) + 1
    {
      currentIndex := (currentIndex + 1) % |texts|;
      isVisible := true;
      ticks := ticks + 1;
    }
  }

  /** One tick: the interval callback, then the timeout it schedules. */
  method Tick(r: Rotator)
    requires r.Valid()
    modifies r
    ensures r.Valid() && r.isVisible && r.ticks == old(r.ticks) + 1
    ensures r.currentIndex == NextIndex(old(r.currentIndex), |r.texts|)
  {
    r.Hide();
    r.Reveal();
  }

  /** The landing page's headline is back at its first text after five ticks. */
  method HeroScenario()
  {
    var r := new Rotator(HeroTexts);
    Tick(r);
    Tick(r);
    Tick(r);
    Tick(r);
    Tick(r);
    FullCycle(0, 0, |HeroTexts|);
    assert r.currentIndex == 0 && r.Shown() == "Medicine Safety";
  }
}
