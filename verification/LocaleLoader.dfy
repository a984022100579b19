/** The loader's own form: module variables updated step by step, and the loop that commits the bundles. */
module LocaleLoader {
  import opened Prelude
  import opened LocaleLoading

  class Loader {
    var registrations: seq<Entry>
    var pending: bool
    var error: bool
    var target: Option<Locale>
    var revision: nat
    var inFlight: Option<nat>
    // The promises created so far, and the importFailed flags captured by the bundle loaders.
    var loads: seq<Load>
    var importFailed: set<nat>
    // The i18n instance.
    var resources: Resources
    var language: Locale

    ghost function View(): State
      reads this
    {
      State(registrations, pending, error, target, revision, inFlight, loads, importFailed,
            Catalog(resources, language))
    }

    constructor (resources: Resources, language: Locale)
      ensures View() == Init(Catalog(resources, language))
    {
      this.resources, this.language := resources, language;
      registrations, pending, error, target, revision := [], false, false, None, 0;
      inFlight, loads, importFailed := None, [], {};
    }

    method Update(pending: bool, error: bool, target: Option<Locale>)
      modifies this`pending, this`error, this`target, this`revision
      ensures this.pending == pending && this.error == error && this.target == target && revision == old(revision) + 1
    {
      this.pending, this.error, this.target, revision := pending, error, target, revision + 1;
    }

    method Register(entry: Entry)
      modifies this`registrations
      ensures View() == Step(old(View()), Event.Register(entry))
    {
      registrations := Put(registrations, entry);
    }

    method Unregister(entry: Entry)
      modifies this
      ensures View() == Step(old(View()), Event.Unregister(entry))
    {
      registrations := Delete(registrations, entry);
      if registrations == [] && !pending { Update(pending, false, None); }
    }

    /** loadLocale up to its first await; the promise in flight is returned instead if there is one. */
    method LoadLocale(next: Locale) returns (promise: nat)
      modifies this
      ensures View() == StartLoad(old(View()), next)
      ensures inFlight == Some(promise)
    {
      if inFlight.Some? { return inFlight.value; }
      var retry := error && target == Some(next);
      var active := registrations;
      var calls := [];
      for i := 0 to |active|
        invariant |calls| == i
        invariant forall j :: 0 <= j < i ==> calls[j] == Waiting(!retry && active[j].loaders.For(next) !in importFailed)
      {
        calls := calls + [Waiting(!retry && active[i].loaders.For(next) !in importFailed)];
      }
      Update(true, error, Some(next));
      promise := |loads|;
      inFlight := Some(promise);
      var stage := if active == [] then Changing else Loading;
      loads := loads + [Load(next, active, calls, stage, Catalog(resources, language), Catalog(resources, language))];
      assert calls == StartLoad(old(View()), next).loads[promise].calls;
    }

    method RetryLocale()
      modifies this
      ensures View() == Step(old(View()), Event.RetryLocale)
    {
      hide StartLoad;
      if target.Some? { var _ := LoadLocale(target.value); }
    }

    /** The commit loop over the loaded bundles. */
    method CommitBundles(target: Locale, active: seq<Entry>, calls: seq<Call>)
      requires |active| == |calls| && AllAnswered(calls)
      modifies this`resources
      ensures resources == AddBundles(old(resources), target, active, calls, |active|)
    {
      for i := 0 to |active|
        invariant resources == AddBundles(old(resources), target, active, calls, i)
      {
        var key := (target, active[i].namespace);
        var bundle := calls[i].bundle;
        resources := resources[key := if key in resources then resources[key] + bundle else bundle];
      }
    }

    method Finish(k: nat, ok: bool)
      requires k < |loads|
      modifies this
      ensures View() == FinishLoad(old(View()), k, ok)
    {
      Update(false, !ok, target);
      inFlight := None;
      loads := loads[k := loads[k].(stage := Finished(ok), after := Catalog(resources, language))];
    }

    /** A bundle loader answered or rejected. */
    method OnBundle(k: nat, i: nat, answer: Option<Bundle>)
      requires k < |loads| && i < |loads[k].calls| == |loads[k].active| && loads[k].calls[i].Waiting?
      modifies this
      ensures View() == StepAnswered(old(View()), k, i, answer)
    {
      hide FinishLoad, AddBundles;
      var l := loads[k];
      var imported := l.calls[i].imported;
      if answer.None? && imported { importFailed := importFailed + {l.Loader(i)}; }
      l := l.(calls := l.calls[i := if answer.Some? then Answered(imported, answer.value) else Broken(imported)]);
      loads := loads[k := l];
      if !l.stage.Loading? { return; }
      if answer.None? {
        Finish(k, false);
        return;
      }
      if AllAnswered(l.calls) {
        CommitBundles(l.target, l.active, l.calls);
        loads := loads[k := l.(stage := Changing)];
        ghost var expected := StepAnswered(old(View()), k, i, answer);
        assert loads == expected.loads;
      }
    }

    /** changeLocale resolved or rejected. */
    method OnLanguage(k: nat, ok: bool)
      requires k < |loads| && loads[k].stage.Changing?
      modifies this
      ensures View() == Step(old(View()), LanguageChanged(k, ok))
    {
      hide FinishLoad;
      if ok { language := loads[k].target; }
      Finish(k, ok);
    }
  }
}
