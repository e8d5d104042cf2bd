/**
 * The interactive content card (src/components/common/Card.jsx): expand /
 * collapse with a view counter, and a favourite toggle.
 */
module Cards {

  /** The card's three state fields as values. */
  datatype CardState = CardState(isExpanded: bool, isFavorite: bool, viewCount: nat)

  const Initial := CardState(false, false, 0)

  /** The card's event handlers. */
  datatype CardEvent = Expand | Favorite | Share

  /** handleExpand: toggle, counting a view when the card was collapsed. */
  function OnExpand(s: CardState): (t: CardState)
    ensures t.isExpanded == !s.isExpanded && t.isFavorite == s.isFavorite
    ensures t.viewCount == if s.isExpanded then s.viewCount else s.viewCount + 1
  {
    CardState(!s.isExpanded, s.isFavorite, if !s.isExpanded then s.viewCount + 1 else s.viewCount)
  }

  /** handleFavorite: toggle the favourite flag only. */
  function OnFavorite(s: CardState): (t: CardState)
    ensures t.isFavorite == !s.isFavorite
    ensures t.isExpanded == s.isExpanded && t.viewCount == s.viewCount
  {
    s.(isFavorite := !s.isFavorite)
  }

  /** The effect of one event; sharing only shows an alert. */
  function Step(s: CardState, e: CardEvent): CardState
  {
    match e
    case Expand => OnExpand(s)
    case Favorite => OnFavorite(s)
    case Share => s
  }

  /** No event lowers the view count. */
  lemma StepKeepsViews(s: CardState, e: CardEvent)
    ensures s.viewCount <= Step(s, e).viewCount
  {
  }

  /** The state after a sequence of events, starting from the initial state. */
  function Run(events: seq<CardEvent>): CardState
  {
    if events == [] then Initial else Step(Run(events[..|events| - 1]), events[|events| - 1])
  }

  /** How many events of the given kind a sequence holds. */
  function Count(events: seq<CardEvent>, e: CardEvent): nat
  {
    if events == [] then 0
    else Count(events[..|events| - 1], e) + (if events[|events| - 1] == e then 1 else 0)
  }

  /**
   * After any sequence of events the card is expanded iff it was clicked open an
   * odd number of times, is a favourite iff the star was clicked an odd number of
   * times, and its view count is the number of times it was opened: every
   * second expand click, starting with the first.
   */
  lemma {:induction false} RunState(events: seq<CardEvent>)
    ensures Run(events).isExpanded <==> Count(events, Expand) % 2 == 1
    ensures Run(events).isFavorite <==> Count(events, Favorite) % 2 == 1
    ensures Run(events).viewCount == (Count(events, Expand) + 1) / 2
  {
    if events != [] {
      RunState(events[..|events| - 1]);
    }
  }

  /** The view count never decreases as events are added. */
  lemma {:induction false} ViewCountMonotone(events: seq<CardEvent>, more: seq<CardEvent>)
    ensures Run(events).viewCount <= Run(events + more).viewCount
  {
    if more == [] {
      assert events + more == events;
    } else {
      var prefix := events + more[..|more| - 1];
      assert events + more == prefix + [more[|more| - 1]];
      assert (events + more)[..|events + more| - 1] == prefix;
      ViewCountMonotone(events, more[..|more| - 1]);
      assert Run(events + more) == Step(Run(prefix), more[|more| - 1]);
      StepKeepsViews(Run(prefix), more[|more| - 1]);
    }
  }

  /** Toggling the favourite twice restores the state. */
  lemma FavoriteTwice(s: CardState)
    ensures OnFavorite(OnFavorite(s)) == s
  {
  }

  /** The component's state. */
  class Card {
    var isExpanded: bool
    var isFavorite: bool
    var viewCount: nat
    /** The handler calls made so far. */
    ghost var events: seq<CardEvent>

    ghost predicate Valid()
      reads this
    {
      State() == Run(events)
    }

    function State(): CardState
      reads this
    {
      CardState(isExpanded, isFavorite, viewCount)
    }

    /** Collapsed, not a favourite, never viewed. */
    constructor ()
      ensures Valid() && State() == Initial && events == []
    {
      isExpanded := false;
      isFavorite := false;
      viewCount := 0;
      events := [];
    }

    method HandleExpand()
      requires Valid()
      modifies this
      ensures Valid() && events == old(events) + [Expand]
      ensures State() == OnExpand(old(State()))
    {
      var wasExpanded := isExpanded;
      isExpanded := !wasExpanded;
      if !wasExpanded {
        viewCount := viewCount + 1;
      }
      events := events + [Expand];
    }

    method HandleFavorite()
      requires Valid()
      modifies this
      ensures Valid() && events == old(events) + [Favorite]
      ensures State() == OnFavorite(old(State()))
    {
      isFavorite := !isFavorite;
      events := events + [Favorite];
    }

    /** handleShare only raises an alert: no field changes. */
    method HandleShare()
      requires Valid()
      modifies this
      ensures Valid() && events == old(events) + [Share]
      ensures State() == old(State())
    {
      events := events + [Share];
    }

    /** The live counter equals the number of times this card was opened. */
    lemma ViewCountIsOpens()
      requires Valid()
      ensures viewCount == (Count(events, Expand) + 1) / 2
    {
      RunState(events);
    }
  }
}
