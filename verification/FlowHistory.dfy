/** The execution history pager: a stack of page tokens over a listing, proved to be a page number, and the class that
    performs its steps. */
module FlowHistory {
  import opened Prelude

  datatype Filters = Filters(flowVersion: string, status: string, triggerType: string, startedAfter: string,
                             startedBefore: string)

  const EMPTY_FILTERS := Filters("", "", "", "", "")

  datatype Query = Query(filters: Filters, tokens: seq<string>, attempt: nat)
  {
    /** `tokens.at(-1)` */
    function Token(): Option<string> { if tokens == [] then None else Some(tokens[|tokens| - 1]) }
  }

  datatype Page = Page(items: seq<string>, nextPageToken: Option<string>)
  {
    predicate HasNext() { nextPageToken.Some? && nextPageToken.value != "" }
  }

  /** A fixed server-side listing: the page it answers for filters and a page token. */
  type Listing = (Filters, Option<string>) -> Page

  /** The query the result belongs to (its key), with the page or the failure it settled with. */
  datatype Result = Result(key: Option<Query>, data: Option<Page>, error: Option<Failure>)

  /** `requests` holds every request sent with whether it is answered; `active` is the one of the live effect. */
  datatype Pager = Pager(query: Query, result: Result, requests: seq<Query>, answered: set<nat>, active: nat)
  {
    predicate Busy() { result.key != Some(query) }
  }

  const FIRST := Query(EMPTY_FILTERS, [], 0)

  const INITIAL := Pager(FIRST, Result(None, None, None), [FIRST], {}, 0)

  // ----- Steps -----

  /** A changed key cancels the live effect and sends a new request. */
  function SetQuery(s: Pager, q: Query): Pager {
    if q == s.query then s else s.(query := q, requests := s.requests + [q], active := |s.requests|)
  }

  datatype Event =
    | Next | Previous | Retry | Change(filters: Filters) | Clear
    | Replied(i: nat, failure: Option<Failure>)

  function Step(listing: Listing, s: Pager, ev: Event): Pager {
    match ev
    case Next =>
      if !s.Busy() && s.result.data.Some? && s.result.data.value.HasNext()
      then SetQuery(s, s.query.(tokens := s.query.tokens + [s.result.data.value.nextPageToken.value])) else s
    case Previous =>
      if !s.Busy() && s.query.tokens != [] then SetQuery(s, s.query.(tokens := s.query.tokens[..|s.query.tokens| - 1]))
      else s
    case Retry => SetQuery(s, s.query.(attempt := s.query.attempt + 1))
    case Change(filters) => SetQuery(s, Query(filters, [], 0))
    case Clear => SetQuery(s, FIRST)
    case Replied(i, failure) =>
      if i >= |s.requests| || i in s.answered then s
      else
        var q := s.requests[i];
        var s := s.(answered := s.answered + {i});
        if i != s.active then s
        else s.(result := if failure.Some? then Result(Some(q), None, failure)
                          else Result(Some(q), Some(listing(q.filters, q.Token())), None))
  }

  function Run(listing: Listing, s: Pager, evs: seq<Event>): Pager
    decreases |evs|
  {
    if evs == [] then s else Run(listing, Step(listing, s, evs[0]), evs[1..])
  }

  // ----- The page-number pager -----

  /** Page n of the listing under the filters, if there are that many. */
  function PageAt(listing: Listing, filters: Filters, n: nat): Option<Page> {
    if n == 0 then Some(listing(filters, None))
    else
      var prior := PageAt(listing, filters, n - 1);
      if prior.Some? && prior.value.HasNext() then Some(listing(filters, prior.value.nextPageToken)) else None
  }

  /** Token j leads from page j to page j + 1. */
  predicate Chained(listing: Listing, q: Query) {
    forall j :: 0 <= j < |q.tokens| ==>
      var page := PageAt(listing, q.filters, j);
      page.Some? && page.value.HasNext() && page.value.nextPageToken == Some(q.tokens[j])
  }

  lemma ChainedQueryIsItsPage(listing: Listing, q: Query)
    requires Chained(listing, q)
    ensures PageAt(listing, q.filters, |q.tokens|) == Some(listing(q.filters, q.Token()))
  {
    if q.tokens != [] { assert PageAt(listing, q.filters, |q.tokens| - 1).Some?; }
  }

  predicate Inv(listing: Listing, s: Pager) {
    && s.active < |s.requests| && s.requests[s.active] == s.query
    && (forall i :: i in s.answered ==> i < |s.requests|)
    && (forall i :: 0 <= i < |s.requests| ==> Chained(listing, s.requests[i]))
    && (s.result.key.Some? ==>
          && Chained(listing, s.result.key.value)
          && (s.result.data.Some? <==> s.result.error.None?)
          && (s.result.data.Some? ==>
                s.result.data == PageAt(listing, s.result.key.value.filters, |s.result.key.value.tokens|)))
  }

  lemma SetQueryKeepsInv(listing: Listing, s: Pager, q: Query)
    requires Inv(listing, s) && Chained(listing, q)
    ensures Inv(listing, SetQuery(s, q))
  {}

  lemma StepKeepsInv(listing: Listing, s: Pager, ev: Event)
    requires Inv(listing, s)
    ensures Inv(listing, Step(listing, s, ev))
  {
    hide PageAt;
    assert Chained(listing, s.query);
    match ev
    case Next =>
      if !s.Busy() && s.result.data.Some? && s.result.data.value.HasNext() {
        SetQueryKeepsInv(listing, s, s.query.(tokens := s.query.tokens + [s.result.data.value.nextPageToken.value]));
      }
    case Replied(i, _) => if i < |s.requests| { ChainedQueryIsItsPage(listing, s.requests[i]); }
    case _ =>
  }

  lemma {:induction false} RunFromKeepsInv(listing: Listing, s: Pager, evs: seq<Event>)
    requires Inv(listing, s)
    ensures Inv(listing, Run(listing, s, evs))
    decreases |evs|
  {
    hide Step, Inv;
    if evs != [] {
      StepKeepsInv(listing, s, evs[0]);
      RunFromKeepsInv(listing, Step(listing, s, evs[0]), evs[1..]);
    }
  }

  lemma RunKeepsInv(listing: Listing, evs: seq<Event>)
    ensures Inv(listing, Run(listing, INITIAL, evs))
  {
    RunFromKeepsInv(listing, INITIAL, evs);
  }

  /** Over any sequence of actions and answers, a query that has settled without error shows exactly page number
      |tokens| of the listing. */
  lemma ShowsThePageOfItsNumber(listing: Listing, evs: seq<Event>)
    ensures var s := Run(listing, INITIAL, evs);
      !s.Busy() && s.result.error.None? ==>
        s.result.data.Some? && s.result.data == PageAt(listing, s.query.filters, |s.query.tokens|)
  {
    RunKeepsInv(listing, evs);
  }

  // ----- Requests -----

  /** Every changed query sends exactly one request for itself, which becomes the live one; nothing else does. */
  lemma ChangedQueriesAsk(listing: Listing, s: Pager, ev: Event)
    ensures var s' := Step(listing, s, ev);
      if s'.query == s.query then s'.requests == s.requests && s'.active == s.active
      else s'.requests == s.requests + [s'.query] && s'.active == |s.requests| && s'.answered == s.answered
           && s'.result == s.result
  {}

  /** Next needs a settled page with a non-empty token and puts that token on top; Previous needs a settled result and
      takes the top one off; a change of the filters and their clearing start over at the first page. */
  lemma ButtonsMoveTheStack(listing: Listing, s: Pager, filters: Filters)
    ensures Step(listing, s, Next).query ==
      if s.result.key == Some(s.query) && s.result.data.Some? && s.result.data.value.nextPageToken.Some?
         && s.result.data.value.nextPageToken.value != ""
      then s.query.(tokens := s.query.tokens + [s.result.data.value.nextPageToken.value]) else s.query
    ensures Step(listing, s, Previous).query ==
      if s.result.key == Some(s.query) && s.query.tokens != []
      then s.query.(tokens := s.query.tokens[..|s.query.tokens| - 1]) else s.query
    ensures Step(listing, s, Change(filters)).query == Query(filters, [], 0)
    ensures Step(listing, s, Clear).query == Query(Filters("", "", "", "", ""), [], 0)
  {}

  /** A retry asks for the same page again, under a new key. */
  lemma RetryAsksAgain(listing: Listing, s: Pager)
    ensures var s' := Step(listing, s, Retry);
      && s'.query != s.query && s'.query.filters == s.query.filters && s'.query.tokens == s.query.tokens
      && s'.query.attempt > s.query.attempt && s'.requests == s.requests + [s'.query] && s'.active == |s.requests|
  {}

  /** While the pager is busy its live request is unanswered. */
  predicate BusyWaits(s: Pager) { s.Busy() ==> s.active !in s.answered }

  lemma StepKeepsBusyWaits(listing: Listing, s: Pager, ev: Event)
    requires Inv(listing, s) && BusyWaits(s)
    ensures BusyWaits(Step(listing, s, ev))
  {
    hide PageAt, Chained;
  }

  lemma {:induction false} RunKeepsBusyWaits(listing: Listing, s: Pager, evs: seq<Event>)
    requires Inv(listing, s) && BusyWaits(s)
    ensures BusyWaits(Run(listing, s, evs))
    decreases |evs|
  {
    hide Step, Inv, BusyWaits;
    if evs != [] {
      StepKeepsInv(listing, s, evs[0]);
      StepKeepsBusyWaits(listing, s, evs[0]);
      RunKeepsBusyWaits(listing, Step(listing, s, evs[0]), evs[1..]);
    }
  }

  /** In every run a busy pager waits for an answer, and that answer settles it: with the page, or with its failure. The
      answer to any other request changes nothing on display. */
  lemma LiveAnswerSettles(listing: Listing, evs: seq<Event>, i: nat, failure: Option<Failure>)
    ensures var s := Run(listing, INITIAL, evs);
      var s' := Step(listing, s, Replied(i, failure));
      && (s.Busy() ==> s.active !in s.answered)
      && (i == s.active && i !in s.answered ==>
            && !s'.Busy() && s'.result.error == failure
            && s'.result.data == if failure.Some? then None else PageAt(listing, s.query.filters, |s.query.tokens|))
      && (i != s.active || i in s.answered ==> s'.result == s.result)
      && s'.answered == (if i < |s.requests| then s.answered + {i} else s.answered)
      && s'.query == s.query
  {
    RunKeepsInv(listing, evs);
    RunKeepsBusyWaits(listing, INITIAL, evs);
    var s := Run(listing, INITIAL, evs);
    hide Run, PageAt;
    ChainedQueryIsItsPage(listing, s.query);
  }

  /** The abstract pager. */
  datatype Position = Position(filters: Filters, page: nat)

  function Abstract(s: Pager): Position { Position(s.query.filters, |s.query.tokens|) }

  /** What an action does to a page number; `ready` and `shown` say whether the buttons are enabled. */
  function Move(listing: Listing, p: Position, ev: Event, ready: bool, shown: bool): Position {
    match ev
    case Next => if ready && shown && PageAt(listing, p.filters, p.page + 1).Some? then p.(page := p.page + 1) else p
    case Previous => if ready && p.page > 0 then p.(page := p.page - 1) else p
    case Retry => p
    case Change(filters) => Position(filters, 0)
    case Clear => Position(EMPTY_FILTERS, 0)
    case Replied(_, _) => p
  }

  /** Every step of the token stack is a move of the page number. */
  lemma StepRefinesMove(listing: Listing, evs: seq<Event>, ev: Event)
    ensures var s := Run(listing, INITIAL, evs);
      Abstract(Step(listing, s, ev)) == Move(listing, Abstract(s), ev, !s.Busy(), s.result.error.None?)
  {
    RunKeepsInv(listing, evs);
    hide Run;
  }

  /** Previous undoes a Next that moved, and Next undoes a Previous that moved, once their page has loaded. */
  lemma PreviousAndNextUndoEachOther(listing: Listing, evs: seq<Event>)
    ensures var s := Run(listing, INITIAL, evs);
      var there := Step(listing, s, Next);
      there.query != s.query ==>
        Step(listing, Step(listing, there, Replied(there.active, None)), Previous).query == s.query
    ensures var s := Run(listing, INITIAL, evs);
      var back := Step(listing, s, Previous);
      back.query != s.query ==>
        Step(listing, Step(listing, back, Replied(back.active, None)), Next).query == s.query
  {
    RunKeepsInv(listing, evs);
    var s := Run(listing, INITIAL, evs);
    hide Run, PageAt;
    UndoNext(listing, s);
    UndoPrevious(listing, s);
  }

  lemma UndoNext(listing: Listing, s: Pager)
    requires Inv(listing, s)
    ensures var there := Step(listing, s, Next);
      there.query != s.query ==>
        Step(listing, Step(listing, there, Replied(there.active, None)), Previous).query == s.query
  {
    var there := Step(listing, s, Next);
    if there.query != s.query { assert there.query.tokens[..|there.query.tokens| - 1] == s.query.tokens; }
  }

  lemma UndoPrevious(listing: Listing, s: Pager)
    requires Inv(listing, s)
    ensures var back := Step(listing, s, Previous);
      back.query != s.query ==>
        Step(listing, Step(listing, back, Replied(back.active, None)), Next).query == s.query
  {
    var back := Step(listing, s, Previous);
    if back.query != s.query {
      assert Chained(listing, s.query) && Chained(listing, back.query);
      ChainedQueryIsItsPage(listing, back.query);
      assert PageAt(listing, s.query.filters, |back.query.tokens|).value.nextPageToken
          == Some(s.query.tokens[|back.query.tokens|]);
      assert back.query.tokens + [s.query.tokens[|back.query.tokens|]] == s.query.tokens;
    }
  }

  class History {
    const listing: Listing
    var query: Query
    var result: Result
    // The promises sent so far; the last field is the one whose effect is live.
    var requests: seq<Query>
    var answered: set<nat>
    var active: nat

    ghost function View(): Pager
      reads this
    {
      Pager(query, result, requests, answered, active)
    }

    constructor (listing: Listing)
      ensures this.listing == listing && View() == INITIAL
    {
      this.listing := listing;
      query, result, requests, answered, active := FIRST, Result(None, None, None), [FIRST], {}, 0;
    }

    /** setQuery and, when the key changed, the effect. */
    method ChangeQuery(next: Query)
      modifies this
      ensures View() == SetQuery(old(View()), next)
    {
      if next == query { return; }
      query := next;
      active := |requests|;
      requests := requests + [next];
    }

    method OnNext()
      modifies this
      ensures View() == Step(listing, old(View()), Next)
    {
      if result.key == Some(query) && result.data.Some? && result.data.value.HasNext() {
        ChangeQuery(query.(tokens := query.tokens + [result.data.value.nextPageToken.value]));
      }
    }

    method OnPrevious()
      modifies this
      ensures View() == Step(listing, old(View()), Previous)
    {
      if result.key == Some(query) && query.tokens != [] {
        ChangeQuery(query.(tokens := query.tokens[..|query.tokens| - 1]));
      }
    }

    method OnRetry()
      modifies this
      ensures View() == Step(listing, old(View()), Retry)
    {
      ChangeQuery(query.(attempt := query.attempt + 1));
    }

    method OnChange(filters: Filters)
      modifies this
      ensures View() == Step(listing, old(View()), Change(filters))
    {
      ChangeQuery(Query(filters, [], 0));
    }

    method OnReply(i: nat, failure: Option<Failure>)
      requires i < |requests| && i !in answered
      modifies this
      ensures View() == Step(listing, old(View()), Replied(i, failure))
    {
      answered := answered + {i};
      if i != active { return; }
      if failure.Some? {
        result := Result(Some(requests[i]), None, failure);
      } else {
        result := Result(Some(requests[i]), Some(listing(requests[i].filters, requests[i].Token())), None);
      }
    }
  }
}
