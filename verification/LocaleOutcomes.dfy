/** What a load, an answer and a registration do to the loader's visible state, and what its error flag means. */
module LocaleOutcomes {
  import opened Prelude
  import opened LocaleLoading

  // ----- The error on display -----

  /** A load in flight is the last one. An idle loader with a target shows an error exactly if its last load failed;
      without a target there is none. */
  predicate ErrorOk(s: State) {
    && (s.inFlight.Some? ==> s.inFlight.value == |s.loads| - 1)
    && (!s.pending && s.target.Some? ==>
          && s.loads != [] && s.target == Some(s.loads[|s.loads| - 1].target)
          && (s.error <==> s.loads[|s.loads| - 1].stage == Finished(false)))
    && (s.target.None? ==> !s.error)
  }

  lemma StepKeepsErrorOk(s: State, ev: Event)
    requires Inv(s) && ErrorOk(s)
    ensures ErrorOk(Step(s, ev))
  {
    hide AddBundles, AllAnswered, Put, Delete, LoadsOk, Distinct;
    if ev.BundleAnswered? && ev.k < |s.loads| && ev.i < |s.loads[ev.k].calls| == |s.loads[ev.k].active|
       && s.loads[ev.k].calls[ev.i].Waiting?
    {
      AnswerKeepsErrorOk(s, ev.k, ev.i, ev.answer);
      hide StepAnswered;
    }
  }

  lemma AnswerKeepsErrorOk(s: State, k: nat, i: nat, answer: Option<Bundle>)
    requires SingleFlight(s) && ErrorOk(s)
    requires k < |s.loads| && i < |s.loads[k].calls| == |s.loads[k].active| && s.loads[k].calls[i].Waiting?
    ensures ErrorOk(StepAnswered(s, k, i, answer))
  {
    hide AddBundles, AllAnswered;
  }

  lemma {:induction false} RunKeepsErrorOk(s: State, evs: seq<Event>)
    requires Inv(s) && ErrorOk(s)
    ensures ErrorOk(Run(s, evs))
    decreases |evs|
  {
    hide Step, Inv, ErrorOk;
    if evs != [] {
      StepKeepsInv(s, evs[0]);
      StepKeepsErrorOk(s, evs[0]);
      RunKeepsErrorOk(Step(s, evs[0]), evs[1..]);
    }
  }

  /** In every run an idle loader shows an error exactly if its last load failed: a bundle of it was rejected, or with
      all bundles in place the language change was. */
  lemma ErrorShowsTheLastFailure(catalog: Catalog, evs: seq<Event>)
    ensures var s := Run(Init(catalog), evs);
      && (s.target.None? ==> !s.error && !s.pending)
      && (!s.pending && s.target.Some? ==>
            && s.loads != []
            && var last := s.loads[|s.loads| - 1];
               && s.target == Some(last.target) && last.stage.Finished?
               && (s.error <==> !last.stage.ok)
               && (SomeBroken(last.calls) ==> s.error))
  {
    RunKeepsInv(catalog, evs);
    RunKeepsErrorOk(Init(catalog), evs);
    hide Run;
    var s := Run(Init(catalog), evs);
    if s.loads != [] { assert LoadOk(s.loads[|s.loads| - 1], s.catalog); }
  }

  // ----- Which loads import -----

  /** Call i of load k was a dynamic import through the loader f, and failed. */
  predicate ImportFailedAt(s: State, k: int, i: int, f: nat) {
    && 0 <= k < |s.loads| && 0 <= i < |s.loads[k].calls| && i < |s.loads[k].active|
    && s.loads[k].calls[i] == Broken(true) && s.loads[k].Loader(i) == f
  }

  /** Only failed imports are remembered as such. */
  ghost predicate OnlyFailures(s: State) {
    forall f :: f in s.importFailed ==> exists k, i :: ImportFailedAt(s, k, i, f)
  }

  lemma StepKeepsOnlyFailures(s: State, ev: Event)
    requires OnlyFailures(s)
    ensures OnlyFailures(Step(s, ev))
  {
    var s' := Step(s, ev);
    forall f | f in s'.importFailed ensures exists k, i :: ImportFailedAt(s', k, i, f) {
      if f in s.importFailed {
        var k, i :| ImportFailedAt(s, k, i, f);
        FailureStays(s, ev, k, i, f);
      } else {
        FailureIsTheCalls(s, ev, f);
      }
      hide Step;
    }
  }

  lemma FailureStays(s: State, ev: Event, k: int, i: int, f: nat)
    requires ImportFailedAt(s, k, i, f)
    ensures ImportFailedAt(Step(s, ev), k, i, f)
  {
    hide AddBundles, AllAnswered, Put, Delete;
  }

  lemma FailureIsTheCalls(s: State, ev: Event, f: nat)
    requires f !in s.importFailed && f in Step(s, ev).importFailed
    ensures ev.BundleAnswered? && ImportFailedAt(Step(s, ev), ev.k, ev.i, f)
  {
    hide AddBundles, AllAnswered, Put, Delete;
  }

  lemma {:induction false} RunKeepsOnlyFailures(s: State, evs: seq<Event>)
    requires OnlyFailures(s)
    ensures OnlyFailures(Run(s, evs))
    decreases |evs|
  {
    hide Step, OnlyFailures;
    if evs != [] {
      StepKeepsOnlyFailures(s, evs[0]);
      RunKeepsOnlyFailures(Step(s, evs[0]), evs[1..]);
    }
  }

  /** A load joins the one in flight. Otherwise it calls the loader of every namespace registered now, by dynamic import
      exactly if this does not repeat the target that failed last and no import through that loader ever failed. */
  lemma LoadCallsEveryLoader(catalog: Catalog, evs: seq<Event>, target: Locale)
    ensures var s := Run(Init(catalog), evs);
      var s' := Step(s, LoadLocale(target));
      if s.pending then s' == s
      else
        && |s'.loads| == |s.loads| + 1 && s'.loads[..|s.loads|] == s.loads
        && s' == s.(pending := true, target := Some(target), revision := s'.revision, inFlight := Some(|s.loads|),
                    loads := s'.loads)
        && var load := s'.loads[|s.loads|];
           && load.target == target && load.active == s.registrations && |load.calls| == |load.active|
           && load.before == s.catalog && load.stage == (if load.active == [] then Changing else Loading)
           && forall i :: 0 <= i < |load.calls| ==>
                && load.Loader(i) == (if target.Es? then load.active[i].loaders.es else load.active[i].loaders.en)
                && load.calls[i] == Waiting(!(s.error && s.target == Some(target))
                                         && !exists k, j :: ImportFailedAt(s, k, j, load.Loader(i)))
  {
    RunKeepsInv(catalog, evs);
    RunKeepsRemembered(Init(catalog), evs);
    RunKeepsOnlyFailures(Init(catalog), evs);
    var s := Run(Init(catalog), evs);
    hide Run, LoadsOk, Distinct;
    var s' := Step(s, LoadLocale(target));
    if !s.pending {
      var load := s'.loads[|s.loads|];
      forall i | 0 <= i < |load.calls|
        ensures load.calls[i] == Waiting(!(s.error && s.target == Some(target))
                                         && !exists k, j :: ImportFailedAt(s, k, j, load.Loader(i)))
      {
        assert load.Loader(i) in s.importFailed <==> exists k, j :: ImportFailedAt(s, k, j, load.Loader(i));
      }
    }
  }

  // ----- Answers and registrations -----

  /** An answer is recorded as its call's. The first rejection ends a load that is still loading, the last answer makes
      it commit, and after its end answers change nothing visible. */
  lemma AnswerDecides(s: State, k: nat, i: nat, answer: Option<Bundle>)
    requires Inv(s) && k < |s.loads| && i < |s.loads[k].calls| && s.loads[k].calls[i].Waiting?
    ensures var s' := Step(s, BundleAnswered(k, i, answer));
      var (l, l') := (s.loads[k], s'.loads[k]);
      var imported := l.calls[i].imported;
      var call := match answer case Some(b) => Answered(imported, b) case None => Broken(imported);
      && s'.loads == s.loads[k := l'] && l'.active == l.active && l'.calls == l.calls[i := call]
      && s'.registrations == s.registrations && s'.target == s.target
      && l'.stage == (if !l.stage.Loading? then l.stage else if answer.None? then Finished(false)
                      else if AllAnswered(l'.calls) then Changing else Loading)
      && (l'.stage == l.stage || l'.stage.Changing? ==>
            && s'.pending == s.pending && s'.error == s.error && s'.inFlight == s.inFlight
            && s'.catalog.language == s.catalog.language)
      && (l'.stage == l.stage ==> s'.catalog == s.catalog && s'.revision == s.revision)
      && (l'.stage != l.stage && l'.stage.Finished? ==>
            !s'.pending && s'.error && s'.inFlight.None? && s'.catalog == s.catalog)
  {
    hide AddBundles, Distinct;
    assert LoadOk(s.loads[k], s.catalog);
  }

  /** A load that has committed ends with the language change: with the target language if it succeeds, and otherwise
      with an error; the bundles stay. */
  lemma LanguageDecides(s: State, k: nat, ok: bool)
    requires k < |s.loads| && s.loads[k].stage.Changing?
    ensures var s' := Step(s, LanguageChanged(k, ok));
      && s'.loads == s.loads[k := s'.loads[k]] && s'.loads[k].stage == Finished(ok)
      && s'.loads[k].calls == s.loads[k].calls && s'.loads[k].active == s.loads[k].active
      && !s'.pending && s'.error == !ok && s'.inFlight.None? && s'.target == s.target
      && s'.registrations == s.registrations && s'.importFailed == s.importFailed
      && s'.catalog.resources == s.catalog.resources
      && s'.catalog.language == if ok then s.loads[k].target else s.catalog.language
  {}

  /** Once nothing is registered any more, an idle loader forgets its error and target; no other registration or its end
      changes what is on display. */
  lemma RegistrationsDecide(s: State, e: Entry)
    requires Inv(s)
    ensures var s' := Step(s, Register(e));
      (forall x :: x in s'.registrations <==> x == e || (x in s.registrations && x.namespace != e.namespace))
      && s' == s.(registrations := s'.registrations)
    ensures var s' := Step(s, Unregister(e));
      && (forall x :: x in s'.registrations <==> x in s.registrations && x != e)
      && s' == (if s'.registrations == [] && !s.pending
                then s.(registrations := [], error := false, target := None, revision := s'.revision)
                else s.(registrations := s'.registrations))
  {
    PutKeepsDistinct(s.registrations, e);
    DeleteKeepsDistinct(s.registrations, e);
    hide Put, Delete, LoadsOk, SingleFlight;
    if i :| 0 <= i < |s.registrations| && s.registrations[i].namespace == e.namespace {
      assert Put(s.registrations, e) == s.registrations[i := e];
      assert s.registrations[i := e][i] == e;
      forall x
        ensures x in s.registrations[i := e] <==> x == e || (x in s.registrations && x.namespace != e.namespace)
      {
        if x in s.registrations && x.namespace != e.namespace {
          var j :| 0 <= j < |s.registrations| && s.registrations[j] == x;
          assert s.registrations[i := e][j] == x;
        }
      }
    }
  }
}
