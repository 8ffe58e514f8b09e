/** The stateful pieces of the landing page (src/App.tsx): the bonus card's
    hidden click counter, the FAQ accordion item, and the page selector.
    Timers are events: the load timer and the reset timer each fire once after
    being scheduled, whenever the environment chooses. */
module Landing {

  /** Clicks it takes to reveal a bonus card's secret. */
  const RevealClicks: nat := 5

  /** What a bonus card shows: a spinner while loading, then a counter of
      clicks that reveals a secret on the fifth. */
  datatype CardState = CardState(loading: bool, clickCount: nat, isSecretRevealed: bool)

  /** A freshly mounted card. */
  const Mounted: CardState := CardState(true, 0, false)

  /** A card whose load timer has fired and that has not been clicked. */
  const Loaded: CardState := CardState(false, 0, false)

  /** `handleInteraction`. */
  function Click(s: CardState): CardState
  {
    if s.loading || s.isSecretRevealed then s
    else
      var newCount := s.clickCount + 1;
      CardState(s.loading, newCount, if newCount == RevealClicks then true else s.isSecretRevealed)
  }

  /** The load timer's callback. */
  function LoadTimer(s: CardState): CardState
  {
    s.(loading := false)
  }

  /** The reset timer's callback. */
  function ResetTimer(s: CardState): CardState
  {
    s.(isSecretRevealed := false, clickCount := 0)
  }

  /** What every reachable card state satisfies: the counter is at most 5, it is
      5 exactly when the secret is shown, and it is 0 while loading. */
  ghost predicate Consistent(s: CardState)
  {
    && s.clickCount <= RevealClicks
    && (s.isSecretRevealed <==> s.clickCount == RevealClicks)
    && (s.loading ==> s.clickCount == 0 && !s.isSecretRevealed)
  }

  /** A click while loading or revealed changes nothing; any other click adds
      exactly one to the counter and reveals the secret when the counter reaches
      5. Clicks and both timers keep a card consistent. */
  lemma CardEvents(s: CardState)
    requires Consistent(s)
    ensures s.loading || s.isSecretRevealed ==> Click(s) == s
    ensures !(s.loading || s.isSecretRevealed) ==>
      && Click(s).clickCount == s.clickCount + 1
      && Click(s).loading == s.loading
      && (Click(s).isSecretRevealed <==> s.clickCount + 1 == RevealClicks)
    ensures Consistent(Click(s)) && Consistent(LoadTimer(s)) && Consistent(ResetTimer(s))
    ensures !LoadTimer(s).loading && LoadTimer(s).clickCount == s.clickCount
    ensures LoadTimer(s).isSecretRevealed == s.isSecretRevealed
    ensures ResetTimer(s) == CardState(s.loading, 0, false)
  {
  }

  /** The card after `n` clicks. */
  function Clicks(s: CardState, n: nat): CardState
  {
    if n == 0 then s else Click(Clicks(s, n - 1))
  }

  /** On a loaded card, the first four clicks only count, the fifth reveals the
      secret, and later clicks change nothing until the reset timer fires. */
  lemma {:induction false} ClicksOnLoadedCard(n: nat)
    ensures Clicks(Loaded, n) == if n < RevealClicks then CardState(false, n, false) else CardState(false, RevealClicks, true)
  {
    if n > 0 {
      ClicksOnLoadedCard(n - 1);
    }
  }

  /** Clicks on a loading card are all ignored. */
  lemma {:induction false} ClicksWhileLoading(n: nat)
    ensures Clicks(Mounted, n) == Mounted
  {
    if n > 0 {
      ClicksWhileLoading(n - 1);
    }
  }

  /** The reset after a reveal returns the card to its loaded, unclicked state,
      so the secret can be found again with five more clicks. */
  lemma RevealThenReset()
    ensures ResetTimer(Clicks(Loaded, RevealClicks)) == Loaded
  {
    ClicksOnLoadedCard(RevealClicks);
  }

  /** The bonus card component, with its two pending timers. */
  class BonusCard {
    /** The `delay` prop: how long the card shows its spinner. */
    const delay: nat
    var loading: bool
    var clickCount: nat
    var isSecretRevealed: bool
    /** The load timer is scheduled and has not fired. */
    var loadTimerPending: bool
    /** The reset timer is scheduled and has not fired. */
    var resetTimerPending: bool

    function State(): CardState
      reads this
    {
      CardState(loading, clickCount, isSecretRevealed)
    }

    /** The card is consistent, the load timer is pending exactly while the card
        loads, and the reset timer exactly while the secret is shown. */
    ghost predicate Valid()
      reads this
    {
      && Consistent(State())
      && (loadTimerPending <==> loading)
      && (resetTimerPending <==> isSecretRevealed)
    }

    /** Mounting: loading, no clicks, the load timer scheduled for `delay`. */
    constructor (delay: nat)
      ensures Valid()
      ensures this.delay == delay && State() == Mounted
      ensures loadTimerPending && !resetTimerPending
    {
      this.delay := delay;
      loading, clickCount, isSecretRevealed := true, 0, false;
      loadTimerPending, resetTimerPending := true, false;
    }

    /** A click on the card; the click that reveals the secret schedules the
        reset timer. */
    method HandleInteraction()
      requires Valid()
      modifies this
      ensures Valid()
      ensures State() == Click(old(State()))
      ensures loadTimerPending == old(loadTimerPending)
      ensures resetTimerPending == (old(resetTimerPending) || isSecretRevealed)
    {
      if loading || isSecretRevealed {
        return;
      }
      var newCount := clickCount + 1;
      clickCount := newCount;
      if newCount == RevealClicks {
        isSecretRevealed := true;
        resetTimerPending := true;
      }
    }

    /** The load timer fires: the card stops loading and nothing else changes. */
    method LoadTimerFires()
      requires Valid() && loadTimerPending
      modifies this
      ensures Valid()
      ensures State() == LoadTimer(old(State()))
      ensures !loadTimerPending && resetTimerPending == old(resetTimerPending)
    {
      loading := false;
      loadTimerPending := false;
    }

    /** The reset timer fires: the secret is hidden and the counter starts again. */
    method ResetTimerFires()
      requires Valid() && resetTimerPending
      modifies this
      ensures Valid()
      ensures State() == ResetTimer(old(State()))
      ensures !resetTimerPending && loadTimerPending == old(loadTimerPending)
    {
      isSecretRevealed := false;
      clickCount := 0;
      resetTimerPending := false;
    }
  }

  /** The delay of the `i`-th bonus card. */
  function BonusDelay(i: nat): nat
  {
    1000 + i * 200
  }

  /** A later card finishes loading strictly later, 200 ms per position. */
  lemma BonusDelaysIncrease(i: nat, j: nat)
    requires i < j
    ensures BonusDelay(i) < BonusDelay(j)
    ensures BonusDelay(j) - BonusDelay(i) == 200 * (j - i)
  {
  }

  /** One FAQ entry; it starts closed. */
  class AccordionItem {
    var isOpen: bool

    constructor ()
      ensures !isOpen
    {
      isOpen := false;
    }

    /** A click on the question flips the entry, so two clicks restore it. */
    method Toggle()
      modifies this
      ensures isOpen == !old(isOpen)
    {
      isOpen := !isOpen;
    }
  }

  /** The three pages the site shows. */
  datatype Page = Home | Terms | Privacy

  /** The top-level page selector. */
  class App {
    var page: Page

    constructor ()
      ensures page == Home
    {
      page := Home;
    }

    /** The footer's terms-of-use link, shown only on the home page. */
    method OpenTerms()
      requires page == Home
      modifies this
      ensures page == Terms
    {
      page := Terms;
    }

    /** The footer's privacy-policy link, shown only on the home page. */
    method OpenPrivacy()
      requires page == Home
      modifies this
      ensures page == Privacy
    {
      page := Privacy;
    }

    /** Either back button of a terms or privacy page. */
    method Back()
      requires page == Terms || page == Privacy
      modifies this
      ensures page == Home
    {
      page := Home;
    }
  }
}
