/**
 * The pinned project carousel of src/pages/Project.jsx: the rule that maps scroll
 * progress to the project shown, the title and link it writes into the page, the
 * initial card styles, and the plan of tweens the timeline is built from.
 *
 * The index rule is a pure expression; `onUpdate` assigns the title's text and the
 * link's `href` in place (a class); the timeline is built by nested loops that append
 * tweens, proved against `Plan`.
 */
module Project {

  /** An entry of `projectsData`. */
  datatype ProjectEntry = ProjectEntry(
    title: string, imageDesktop: string, imageMobile: string, link: string, bg: string, isHackathon: bool)

  const ProjectsData: seq<ProjectEntry> := [
    ProjectEntry("Ai Crypto App", "./cryptoD.png", "./cryptoM.png",
                 "https://crypto-app-sepia-eight.vercel.app/", "#28256f", false),
    ProjectEntry("One For All", "./Chatapp.png", "./chatappM.png",
                 "https://github.com/Aayush31-Ai/OneForAll", "#104a4e", false),
    ProjectEntry("Class Combat", "./class-combat.png", "./class-combatM.png",
                 "https://hack-crypt.vercel.app/", "#6b4c9a", true),
    ProjectEntry("AroundU", "./around-u.png", "./around-uM.png",
                 "https://around-u-iota.vercel.app/", "#6eb4a3", true)
  ]

  // ---------------------------------------------------------------------------
  // Scroll progress to project index
  // ---------------------------------------------------------------------------

  function Min(a: int, b: int): int { if a <= b then a else b }
  function Max(a: int, b: int): int { if a >= b then a else b }

  /**
   * `max(min(floor(progress * n), n - 1), 0)`. For `n >= 1` it is a valid index; on
   * `[0, 1)` it is the `k` with `k/n <= progress < (k+1)/n`; progress 1 gives the last project.
   */
  function ProjectIndex(progress: real, n: nat): (index: int)
    ensures n >= 1 ==> 0 <= index < n
    ensures n == 0 ==> index == 0
    ensures n >= 1 && 0.0 <= progress * n as real < n as real ==>
      index as real <= progress * n as real < index as real + 1.0
    ensures n >= 1 && progress >= 1.0 ==> index == n - 1
    ensures progress <= 0.0 ==> index == 0
  {
    ScaledProgressBounds(progress, n);
    var raw := progress * n as real;
    Max(Min(raw.Floor, n - 1), 0)
  }

  /** `progress * n` lies at or past `n` once the progress reaches 1, and at or below 0 while it is not positive. */
  lemma ScaledProgressBounds(progress: real, n: nat)
    ensures progress >= 1.0 ==> progress * n as real >= n as real
    ensures progress <= 0.0 ==> progress * n as real <= 0.0
  {
    assert progress * n as real - n as real == (progress - 1.0) * n as real;
    assert -(progress * n as real) == (-progress) * n as real;
  }

  /** Scrolling further never moves the carousel back to an earlier project. */
  lemma ProjectIndexMonotone(p: real, q: real, n: nat)
    requires p <= q
    ensures ProjectIndex(p, n) <= ProjectIndex(q, n)
  {
    assert p * n as real <= q * n as real by {
      assert q * n as real - p * n as real == (q - p) * n as real;
    }
    assert (p * n as real).Floor <= (q * n as real).Floor;
  }

  /** The pinned section's scroll length, in percent of the viewport: `n * 100`. */
  function PinnedScrollPercent(n: nat): nat {
    n * 100
  }

  /**
   * Each project owns one viewport height of the pinned scroll: at a scrolled distance
   * `d = progress * PinnedScrollPercent(n)` short of the end, the project shown is the
   * `k` with `100k <= d < 100(k+1)`.
   */
  lemma {:induction false} EachProjectOwnsOneScreen(progress: real, n: nat, k: int)
    requires n >= 1 && 0.0 <= progress < 1.0 && 0 <= k < n
    ensures ProjectIndex(progress, n) == k <==>
      (k * 100) as real <= progress * PinnedScrollPercent(n) as real < ((k + 1) * 100) as real
  {
    var raw := progress * n as real;
    ProgressBelowCount(progress, n);
    assert ProjectIndex(progress, n) == raw.Floor;
    assert raw.Floor == k <==> k as real <= raw < k as real + 1.0;
    PinnedScaled(progress, n);
  }

  /** Progress in `[0, 1)` scaled by `n` stays in `[0, n)`. */
  lemma ProgressBelowCount(progress: real, n: nat)
    requires n >= 1 && 0.0 <= progress < 1.0
    ensures 0.0 <= progress * n as real < n as real
  {
    assert n as real - progress * n as real == (1.0 - progress) * n as real;
  }

  /** The scrolled distance in percent is the scaled progress times 100. */
  lemma PinnedScaled(progress: real, n: nat)
    ensures progress * PinnedScrollPercent(n) as real == (progress * n as real) * 100.0
  {
    assert PinnedScrollPercent(n) as real == n as real * 100.0;
  }

  // ---------------------------------------------------------------------------
  // onUpdate: the title and link shown
  // ---------------------------------------------------------------------------

  /** The carousel's project list and the title and link elements it writes into. */
  class Showcase {
    const projects: seq<ProjectEntry>
    const titleMounted: bool
    const linkMounted: bool
    var title: string
    var link: string
    var background: string

    /**
     * First render: title, link and background of the first project. The render reads
     * `projectsData[0]`, so the list must not be empty. Either element's ref may be unset.
     */
    constructor (projects: seq<ProjectEntry>, titleMounted: bool, linkMounted: bool)
      requires |projects| >= 1
      ensures this.projects == projects && this.titleMounted == titleMounted && this.linkMounted == linkMounted
      ensures title == projects[0].title && link == projects[0].link && background == projects[0].bg
    {
      this.projects := projects;
      this.titleMounted := titleMounted;
      this.linkMounted := linkMounted;
      title := projects[0].title;
      link := projects[0].link;
      background := projects[0].bg;
    }

    /**
     * `onUpdate`: with both refs set, the title and link become those of the project the
     * progress selects; otherwise nothing changes.
     */
    method OnUpdate(progress: real)
      modifies this
      ensures titleMounted && linkMounted && |projects| >= 1 ==>
        var index := ProjectIndex(progress, |projects|);
        title == projects[index].title && link == projects[index].link
      ensures !(titleMounted && linkMounted && |projects| >= 1) ==> title == old(title) && link == old(link)
      ensures background == old(background)
    {
      var index := ProjectIndex(progress, |projects|);
      if index < |projects| && titleMounted && linkMounted {
        title := projects[index].title;
        link := projects[index].link;
      }
    }
  }

  // ---------------------------------------------------------------------------
  // Card styles and the timeline plan
  // ---------------------------------------------------------------------------

  /** A card's opacity and scale. */
  datatype CardStyle = CardStyle(opacity: real, scale: real)

  const ShownStyle := CardStyle(1.0, 1.0)
  const HiddenStyle := CardStyle(0.0, 0.9)

  /**
   * A tween added to the timeline at position `at`: the section's background colour
   * (duration 1), a card brought forward (opacity 1, scale 1, duration 0.5, "power2.out"),
   * or a card sent back (opacity 0, scale 0.9, duration 0.5).
   */
  datatype Tween =
    | Background(color: string, at: nat)
    | ShowCard(card: nat, at: nat)
    | HideCard(card: nat, at: nat)

  /** `cardsRef.current[i]` is set. */
  predicate Present(cards: seq<bool>, i: nat) {
    i < |cards| && cards[i]
  }

  /** The styles `gsap.set` gives the cards: every card hidden, then card 0 shown. */
  function InitialStyles(cardCount: nat): (styles: seq<CardStyle>)
    ensures |styles| == cardCount
    ensures forall i :: 0 <= i < cardCount ==> (styles[i].opacity == 1.0 <==> i == 0)
    ensures forall i :: 0 <= i < cardCount ==> styles[i] == ShownStyle || styles[i] == HiddenStyle
  {
    seq(cardCount, i => if i == 0 then ShownStyle else HiddenStyle)
  }

  /** The inner loop's body for card `j` at step `i`: hide it if it is another, present card. */
  function HideOne(cards: seq<bool>, i: nat, j: nat): seq<Tween>
    requires j < |cards|
  {
    if j != i && cards[j] then [HideCard(j, i)] else []
  }

  /** The inner loop's tweens for step `i`, over the cards before `upto`. */
  function HideOthers(cards: seq<bool>, i: nat, upto: nat): seq<Tween>
    requires upto <= |cards|
  {
    if upto == 0 then [] else HideOthers(cards, i, upto - 1) + HideOne(cards, i, upto - 1)
  }

  /** The tweens of step `i`: none for a missing card; otherwise background, card `i` shown, every other present card hidden. */
  function StepTweens(projects: seq<ProjectEntry>, cards: seq<bool>, i: nat): seq<Tween>
    requires i < |projects|
  {
    if !Present(cards, i) then []
    else [Background(projects[i].bg, i), ShowCard(i, i)] + HideOthers(cards, i, |cards|)
  }

  /** The first `upto` lists of `steps`, one after the other. */
  function Concat(steps: seq<seq<Tween>>, upto: nat): seq<Tween>
    requires upto <= |steps|
  {
    if upto == 0 then [] else Concat(steps, upto - 1) + steps[upto - 1]
  }

  /** The tweens of every step, in project order. */
  function Steps(projects: seq<ProjectEntry>, cards: seq<bool>): (steps: seq<seq<Tween>>)
    ensures |steps| == |projects|
    ensures forall i :: 0 <= i < |projects| ==> steps[i] == StepTweens(projects, cards, i)
  {
    seq(|projects|, i requires 0 <= i < |projects| => StepTweens(projects, cards, i))
  }

  /** The timeline's tweens after the outer loop has handled the first `upto` projects. */
  function Plan(projects: seq<ProjectEntry>, cards: seq<bool>, upto: nat): seq<Tween>
    requires upto <= |projects|
  {
    Concat(Steps(projects, cards), upto)
  }

  /** One more step of the outer loop appends that step's tweens. */
  lemma PlanStep(projects: seq<ProjectEntry>, cards: seq<bool>, i: nat)
    requires i < |projects|
    ensures Plan(projects, cards, i + 1) == Plan(projects, cards, i) + StepTweens(projects, cards, i)
  {
  }

  /** `projectsData.forEach(...)`: every project in turn adds its step to the timeline. */
  method BuildTimeline(projects: seq<ProjectEntry>, cards: seq<bool>) returns (tl: seq<Tween>)
    ensures tl == Plan(projects, cards, |projects|)
  {
    tl := [];
    for i := 0 to |projects|
      invariant tl == Plan(projects, cards, i)
    {
      PlanStep(projects, cards, i);
      tl := AddStep(tl, projects, cards, i);
    }
  }

  /**
   * The outer callback for project `i`: nothing when its card is missing; otherwise the
   * background tween, the tween that shows the card, then the inner loop's hide tweens.
   */
  method AddStep(start: seq<Tween>, projects: seq<ProjectEntry>, cards: seq<bool>, i: nat) returns (tl: seq<Tween>)
    requires i < |projects|
    ensures tl == start + StepTweens(projects, cards, i)
  {
    tl := start;
    if !Present(cards, i) {
      assert start + [] == start;
      return;
    }
    tl := tl + [Background(projects[i].bg, i)];
    tl := tl + [ShowCard(i, i)];
    ghost var head := [Background(projects[i].bg, i), ShowCard(i, i)];
    assert tl == start + head;
    tl := AddHides(tl, cards, i);
    assert tl == start + (head + HideOthers(cards, i, |cards|));
  }

  /** The inner `cardsRef.current.forEach(...)` of step `i`: a hide tween for every other present card. */
  method AddHides(start: seq<Tween>, cards: seq<bool>, i: nat) returns (tl: seq<Tween>)
    ensures tl == start + HideOthers(cards, i, |cards|)
  {
    tl := start;
    for idx := 0 to |cards|
      invariant tl == start + HideOthers(cards, i, idx)
    {
      assert HideOthers(cards, i, idx + 1) == HideOthers(cards, i, idx) + HideOne(cards, i, idx);
      if idx != i && cards[idx] {
        tl := tl + [HideCard(idx, i)];
      }
    }
  }

  /** The cards a list of tweens shows, and those it hides. */
  function ShownCards(tws: seq<Tween>): set<nat> {
    set k | 0 <= k < |tws| && tws[k].ShowCard? :: tws[k].card
  }
  function HiddenCards(tws: seq<Tween>): set<nat> {
    set k | 0 <= k < |tws| && tws[k].HideCard? :: tws[k].card
  }

  lemma CardSetsAppend(a: seq<Tween>, b: seq<Tween>)
    ensures ShownCards(a + b) == ShownCards(a) + ShownCards(b)
    ensures HiddenCards(a + b) == HiddenCards(a) + HiddenCards(b)
  {
    var ab := a + b;
    forall c | c in ShownCards(b) ensures c in ShownCards(ab) {
      var k :| 0 <= k < |b| && b[k].ShowCard? && b[k].card == c;
      assert ab[|a| + k] == b[k];
    }
    forall c | c in HiddenCards(b) ensures c in HiddenCards(ab) {
      var k :| 0 <= k < |b| && b[k].HideCard? && b[k].card == c;
      assert ab[|a| + k] == b[k];
    }
    forall c | c in ShownCards(a) ensures c in ShownCards(ab) {
      var k :| 0 <= k < |a| && a[k].ShowCard? && a[k].card == c;
      assert ab[k] == a[k];
    }
    forall c | c in HiddenCards(a) ensures c in HiddenCards(ab) {
      var k :| 0 <= k < |a| && a[k].HideCard? && a[k].card == c;
      assert ab[k] == a[k];
    }
    forall c | c in ShownCards(ab) ensures c in ShownCards(a) + ShownCards(b) {
      var k :| 0 <= k < |ab| && ab[k].ShowCard? && ab[k].card == c;
      if k < |a| { assert ab[k] == a[k]; } else { assert ab[k] == b[k - |a|]; }
    }
    forall c | c in HiddenCards(ab) ensures c in HiddenCards(a) + HiddenCards(b) {
      var k :| 0 <= k < |ab| && ab[k].HideCard? && ab[k].card == c;
      if k < |a| { assert ab[k] == a[k]; } else { assert ab[k] == b[k - |a|]; }
    }
  }

  lemma {:induction false} HideOthersFacts(cards: seq<bool>, i: nat, upto: nat)
    requires upto <= |cards|
    ensures forall k :: 0 <= k < |HideOthers(cards, i, upto)| ==>
      HideOthers(cards, i, upto)[k].HideCard? && HideOthers(cards, i, upto)[k].at == i
    ensures HiddenCards(HideOthers(cards, i, upto)) == set j | 0 <= j < upto && j != i && cards[j]
  {
    if upto > 0 {
      HideOthersFacts(cards, i, upto - 1);
      var prev := HideOthers(cards, i, upto - 1);
      var extra := HideOne(cards, i, upto - 1);
      var all := prev + extra;
      assert forall k :: 0 <= k < |prev| ==> all[k] == prev[k];
      assert forall k :: |prev| <= k < |all| ==> all[k] == extra[k - |prev|];
      CardSetsAppend(prev, extra);
      assert extra != [] ==> HiddenCards(extra) == {upto - 1} by {
        if extra != [] { assert extra[0].HideCard? && extra[0].card == upto - 1; }
      }
      assert (set j | 0 <= j < upto && j != i && cards[j])
        == (set j | 0 <= j < upto - 1 && j != i && cards[j])
           + (if upto - 1 != i && cards[upto - 1] then {upto - 1} else {});
    }
  }

  /** Every tween of step `i` sits at timeline position `i`. */
  lemma StepTweensSitAtStep(projects: seq<ProjectEntry>, cards: seq<bool>, i: nat)
    requires i < |projects|
    ensures forall k :: 0 <= k < |StepTweens(projects, cards, i)| ==> StepTweens(projects, cards, i)[k].at == i
  {
    if Present(cards, i) {
      HideOthersFacts(cards, i, |cards|);
      var hides := HideOthers(cards, i, |cards|);
      assert forall k :: 2 <= k < |StepTweens(projects, cards, i)| ==> StepTweens(projects, cards, i)[k] == hides[k - 2];
    }
  }

  /**
   * Step `i` of the timeline, when card `i` is present: the background turns to
   * project `i`'s colour, card `i` is the only card brought forward, and every other
   * present card is sent back. A missing card adds nothing.
   */
  lemma StepTargets(projects: seq<ProjectEntry>, cards: seq<bool>, i: nat)
    requires i < |projects|
    ensures !Present(cards, i) ==> StepTweens(projects, cards, i) == []
    ensures Present(cards, i) ==>
      var tws := StepTweens(projects, cards, i);
      tws[0] == Background(projects[i].bg, i)
      && (forall k :: 1 <= k < |tws| ==> !tws[k].Background?)
      && ShownCards(tws) == {i}
      && HiddenCards(tws) == set j | 0 <= j < |cards| && j != i && cards[j]
  {
    if Present(cards, i) {
      var hides := HideOthers(cards, i, |cards|);
      HideOthersFacts(cards, i, |cards|);
      var tws := StepTweens(projects, cards, i);
      var head := [Background(projects[i].bg, i), ShowCard(i, i)];
      assert tws == head + hides;
      assert forall k :: 2 <= k < |tws| ==> tws[k] == hides[k - 2];
      assert ShownCards(tws) == {i} by {
        assert tws[1].ShowCard?;
      }
      assert HiddenCards(tws) == HiddenCards(hides) by {
        forall c | c in HiddenCards(hides) ensures c in HiddenCards(tws) {
          var k :| 0 <= k < |hides| && hides[k].HideCard? && hides[k].card == c;
          assert tws[k + 2] == hides[k];
        }
      }
    }
  }

  /** Every tween sits before position `upto`, and positions never decrease along the list. */
  predicate InPositionOrder(tws: seq<Tween>, upto: nat) {
    (forall k :: 0 <= k < |tws| ==> tws[k].at < upto)
    && forall k, m :: 0 <= k < m < |tws| ==> tws[k].at <= tws[m].at
  }

  /**
   * The timeline is laid out in position order: the tweens of the first `upto` steps all
   * sit before `upto`, and a tween added later never sits at an earlier position. With
   * `PlanStep` and `StepTweensSitAtStep` this makes position `i` hold exactly step `i`'s tweens.
   */
  lemma PlanInPositionOrder(projects: seq<ProjectEntry>, cards: seq<bool>, upto: nat)
    requires upto <= |projects|
    ensures InPositionOrder(Plan(projects, cards, upto), upto)
  {
    var steps: seq<seq<Tween>> := Steps(projects, cards);
    forall k, m | 0 <= k < |steps| && 0 <= m < |steps[k]|
      ensures steps[k][m].at == k
    {
      StepTweensSitAtStep(projects, cards, k);
    }
    ConcatInPositionOrder(steps, upto);
  }

  /** Steps whose tweens all sit at their own index in the list of steps. */
  predicate AtOwnIndex(steps: seq<seq<Tween>>) {
    forall k, m :: 0 <= k < |steps| && 0 <= m < |steps[k]| ==> steps[k][m].at == k
  }

  /** Concatenating steps that sit at their own index gives a list in position order. */
  lemma {:induction false} ConcatInPositionOrder(steps: seq<seq<Tween>>, upto: nat)
    requires upto <= |steps| && AtOwnIndex(steps)
    ensures InPositionOrder(Concat(steps, upto), upto)
  {
    if upto > 0 {
      ConcatInPositionOrder(steps, upto - 1);
      var before := Concat(steps, upto - 1);
      var step := steps[upto - 1];
      var whole := Concat(steps, upto);
      assert whole == before + step;
      forall k | 0 <= k < |whole|
        ensures whole[k].at < upto
        ensures |before| <= k ==> whole[k].at == upto - 1
      {
        if k < |before| {
          assert whole[k] == before[k];
        } else {
          assert whole[k] == step[k - |before|];
        }
      }
      forall k, m | 0 <= k < m < |whole|
        ensures whole[k].at <= whole[m].at
      {
        if m < |before| {
          assert whole[k] == before[k] && whole[m] == before[m];
        }
      }
    }
  }

  /** With every card present, the initial styles are the very targets of step 0: the timeline starts without a jump. */
  lemma InitialStylesMatchStepZero(projects: seq<ProjectEntry>, cards: seq<bool>, j: nat)
    requires |projects| >= 1 && |cards| >= 1 && j < |cards|
    requires forall c :: 0 <= c < |cards| ==> cards[c]
    ensures InitialStyles(|cards|)[j] == ShownStyle <==> j in ShownCards(StepTweens(projects, cards, 0))
    ensures InitialStyles(|cards|)[j] == HiddenStyle <==> j in HiddenCards(StepTweens(projects, cards, 0))
  {
    StepTargets(projects, cards, 0);
  }
}
