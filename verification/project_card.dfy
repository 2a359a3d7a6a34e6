/** The expand/collapse behaviour of a project card: opening a collapsed card
    loads its aliveness figures once, unless they are held or already loading.
    The fetch is taken as one atomic step whose outcome is an input. */
module ProjectCard {
  import opened Nullable
  import opened Domain

  const LoadError: string := "Failed to load metrics"

  /** How the request for a card's aliveness figures ended. */
  datatype FetchOutcome = Loaded(metrics: AlivenessMetrics) | Failed

  datatype Card = Card(expanded: bool, aliveness: Option<AlivenessMetrics>, loading: bool, error: Option<string>)

  /** A freshly mounted card: collapsed, nothing loaded, nothing in flight. */
  const Initial: Card := Card(false, None, false, None)

  /** A click issues a request only on a collapsed card with no figures and no request in flight. */
  predicate ShouldFetch(c: Card) {
    !c.expanded && c.aliveness.None? && !c.loading
  }

  /** The card as the request goes out: loading, with any earlier error cleared. */
  function BeginFetch(c: Card): (r: Card)
    ensures r.loading && r.error.None?
    ensures r.expanded == c.expanded && r.aliveness == c.aliveness
  {
    c.(loading := true, error := None)
  }

  /** The card once the request has ended, successfully or not. */
  function Settle(c: Card, outcome: FetchOutcome): (r: Card)
    ensures !r.loading && r.expanded == c.expanded
    ensures outcome.Loaded? ==> r.aliveness == Some(outcome.metrics) && r.error == c.error
    ensures outcome.Failed? ==> r.aliveness == c.aliveness && r.error == Some(LoadError)
  {
    match outcome
    case Loaded(m) => c.(aliveness := Some(m), loading := false)
    case Failed => c.(error := Some(LoadError), loading := false)
  }

  /** A click and whether it issued a request. */
  datatype Step = Step(card: Card, fetched: bool)

  /** One click on the card's main row; `outcome` is consulted only if a request is issued. */
  function Toggle(c: Card, outcome: FetchOutcome): (s: Step)
    ensures s.fetched <==> !c.expanded && c.aliveness.None? && !c.loading
    ensures s.card.expanded == !c.expanded
    ensures !s.fetched ==> s.card == c.(expanded := !c.expanded)
    ensures s.fetched ==> !s.card.loading
    ensures s.fetched && outcome.Loaded? ==> s.card.aliveness == Some(outcome.metrics) && s.card.error.None?
    ensures s.fetched && outcome.Failed? ==> s.card.aliveness.None? && s.card.error == Some(LoadError)
  {
    if ShouldFetch(c) then
      Step(Settle(BeginFetch(c), outcome).(expanded := !c.expanded), true)
    else
      Step(c.(expanded := !c.expanded), false)
  }

  /** The card after a sequence of clicks, with the number of requests issued
      and the number of those that loaded figures. */
  datatype Trace = Trace(card: Card, fetches: nat, loads: nat)

  /** Clicks the card once per outcome, in order. */
  function Run(c: Card, outcomes: seq<FetchOutcome>): (t: Trace)
    decreases |outcomes|
  {
    if |outcomes| == 0 then Trace(c, 0, 0)
    else
      var s := Toggle(c, outcomes[0]);
      var rest := Run(s.card, outcomes[1..]);
      var loaded := s.fetched && outcomes[0].Loaded?;
      Trace(rest.card, rest.fetches + (if s.fetched then 1 else 0), rest.loads + (if loaded then 1 else 0))
  }

  /** Once a card holds figures, no click ever requests them again, and it keeps them. */
  lemma {:induction false} HeldFiguresAreNeverRefetched(c: Card, outcomes: seq<FetchOutcome>)
    requires c.aliveness.Some?
    ensures Run(c, outcomes).fetches == 0
    ensures Run(c, outcomes).card.aliveness == c.aliveness
    decreases |outcomes|
  {
    if |outcomes| > 0 {
      HeldFiguresAreNeverRefetched(Toggle(c, outcomes[0]).card, outcomes[1..]);
    }
  }

  /** Figures are loaded at most once, and a card holds figures exactly when it
      started with them or a request loaded them. */
  lemma {:induction false} LoadedAtMostOnce(c: Card, outcomes: seq<FetchOutcome>)
    ensures Run(c, outcomes).loads <= (if c.aliveness.None? then 1 else 0)
    ensures Run(c, outcomes).card.aliveness.Some? <==> c.aliveness.Some? || Run(c, outcomes).loads > 0
    decreases |outcomes|
  {
    if |outcomes| > 0 {
      var s := Toggle(c, outcomes[0]);
      LoadedAtMostOnce(s.card, outcomes[1..]);
      if c.aliveness.Some? {
        HeldFiguresAreNeverRefetched(s.card, outcomes[1..]);
      } else if s.fetched && outcomes[0].Loaded? {
        HeldFiguresAreNeverRefetched(s.card, outcomes[1..]);
      }
    }
  }

  /** Starting with nothing in flight: no click leaves a request in flight, every
      click flips the card, and only every other click can issue a request. */
  lemma {:induction false} ClicksAlternate(c: Card, outcomes: seq<FetchOutcome>)
    requires !c.loading
    ensures !Run(c, outcomes).card.loading
    ensures Run(c, outcomes).card.expanded == (c.expanded != (|outcomes| % 2 == 1))
    ensures Run(c, outcomes).fetches <= (|outcomes| + (if c.expanded then 0 else 1)) / 2
    decreases |outcomes|
  {
    if |outcomes| > 0 {
      ClicksAlternate(Toggle(c, outcomes[0]).card, outcomes[1..]);
    }
  }

  /** A freshly mounted card: its first click issues a request, it loads figures
      at most once and holds them exactly when it did, it never leaves a request
      in flight, it is open after an odd number of clicks, and at most every
      other click issues a request. */
  lemma FreshCard(outcomes: seq<FetchOutcome>)
    ensures |outcomes| >= 1 ==> Run(Initial, outcomes).fetches >= 1
    ensures Run(Initial, outcomes).loads <= 1
    ensures Run(Initial, outcomes).card.aliveness.Some? <==> Run(Initial, outcomes).loads == 1
    ensures !Run(Initial, outcomes).card.loading
    ensures Run(Initial, outcomes).card.expanded <==> |outcomes| % 2 == 1
    ensures Run(Initial, outcomes).fetches <= (|outcomes| + 1) / 2
  {
    LoadedAtMostOnce(Initial, outcomes);
    ClicksAlternate(Initial, outcomes);
  }

  /** A failed request leaves the card open with an error and no figures; closing
      it issues nothing, and opening it again retries. */
  lemma RetryAfterFailure(c: Card, close: FetchOutcome, reopen: FetchOutcome)
    requires ShouldFetch(c)
    ensures Toggle(c, Failed).fetched
    ensures Toggle(c, Failed).card == Card(true, None, false, Some(LoadError))
    ensures !Toggle(Toggle(c, Failed).card, close).fetched
    ensures Toggle(Toggle(Toggle(c, Failed).card, close).card, reopen).fetched
  {
  }
}
