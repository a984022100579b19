/** The locale loader as a transition system. Pages register and unregister, bundle loads and the language change answer
    in any order. */
module LocaleLoading {
  import opened Prelude

  datatype Locale = Es | En

  /** Translated texts by their path; a nested bundle is the set of its paths. */
  type Bundle = map<string, string>

  /** One loaders record: its identity and the loader function it holds for each locale. */
  datatype Loaders = Loaders(id: nat, es: nat, en: nat)
  {
    function For(locale: Locale): nat { if locale.Es? then es else en }
  }

  /** The registrations map, in insertion order. */
  datatype Entry = Entry(namespace: string, loaders: Loaders)

  type Resources = map<(Locale, string), Bundle>
  datatype Catalog = Catalog(resources: Resources, language: Locale)

  /** A loader call: through the dynamic import or through a fetch of the asset, and its answer. */
  datatype Call = Waiting(imported: bool) | Answered(imported: bool, bundle: Bundle) | Broken(imported: bool)

  datatype Stage = Loading | Changing | Finished(ok: bool)

  /** One loadLocale promise with the registrations it started from, its calls in the same order, and the catalog when
      it started and when it finished. */
  datatype Load = Load(target: Locale, active: seq<Entry>, calls: seq<Call>, stage: Stage, before: Catalog,
                       after: Catalog)
  {
    function Loader(i: nat): nat
      requires i < |active|
    {
      active[i].loaders.For(target)
    }
  }

  datatype State = State(registrations: seq<Entry>, pending: bool, error: bool, target: Option<Locale>, revision: nat,
                         inFlight: Option<nat>, loads: seq<Load>, importFailed: set<nat>, catalog: Catalog)

  function Init(catalog: Catalog): State {
    State([], false, false, None, 0, None, [], {}, catalog)
  }

  // ----- Registrations -----

  function Put(entries: seq<Entry>, e: Entry): seq<Entry> {
    if entries == [] then [e]
    else if entries[0].namespace == e.namespace then [e] + entries[1..]
    else [entries[0]] + Put(entries[1..], e)
  }

  function Delete(entries: seq<Entry>, e: Entry): seq<Entry> {
    if entries == [] then []
    else if entries[0] == e then entries[1..]
    else [entries[0]] + Delete(entries[1..], e)
  }

  predicate Distinct(entries: seq<Entry>) {
    forall i, j :: 0 <= i < j < |entries| ==> entries[i].namespace != entries[j].namespace
  }

  // ----- Steps -----

  /** addResourceBundle with deep merge and overwrite. */
  function AddBundle(r: Resources, key: (Locale, string), bundle: Bundle): Resources {
    r[key := if key in r then r[key] + bundle else bundle]
  }

  predicate AllAnswered(calls: seq<Call>) {
    forall i :: 0 <= i < |calls| ==> calls[i].Answered?
  }

  /** The commit loop over the bundles of the first `n` active namespaces. */
  function AddBundles(r: Resources, target: Locale, active: seq<Entry>, calls: seq<Call>, n: nat): Resources
    requires n <= |active| == |calls| && AllAnswered(calls)
  {
    if n == 0 then r
    else AddBundle(AddBundles(r, target, active, calls, n - 1), (target, active[n - 1].namespace), calls[n - 1].bundle)
  }

  function Committed(l: Load): Resources
    requires |l.active| == |l.calls| && AllAnswered(l.calls)
  {
    AddBundles(l.before.resources, l.target, l.active, l.calls, |l.active|)
  }

  function StartLoad(s: State, target: Locale): State {
    if s.inFlight.Some? then s
    else
      var retry := s.error && s.target == Some(target);
      var calls := seq(|s.registrations|, i requires 0 <= i < |s.registrations| =>
        Waiting(!retry && s.registrations[i].loaders.For(target) !in s.importFailed));
      var stage := if s.registrations == [] then Changing else Loading;
      s.(pending := true, target := Some(target), revision := s.revision + 1, inFlight := Some(|s.loads|),
         loads := s.loads + [Load(target, s.registrations, calls, stage, s.catalog, s.catalog)])
  }

  /** The last lines of the promise: its outcome and its `finally`. */
  function FinishLoad(s: State, k: nat, ok: bool): State
    requires k < |s.loads|
  {
    s.(pending := false, error := !ok, revision := s.revision + 1, inFlight := None,
       loads := s.loads[k := s.loads[k].(stage := Finished(ok), after := s.catalog)])
  }

  /** Call i of load k answered; None is a rejection. The first rejection ends the load, the last answer commits it. */
  function StepAnswered(s: State, k: nat, i: nat, answer: Option<Bundle>): State
    requires k < |s.loads| && i < |s.loads[k].calls| == |s.loads[k].active| && s.loads[k].calls[i].Waiting?
  {
    var l := s.loads[k];
    var imported := l.calls[i].imported;
    var call := if answer.Some? then Answered(imported, answer.value) else Broken(imported);
    var l := l.(calls := l.calls[i := call]);
    var s := s.(loads := s.loads[k := l],
                importFailed := if imported && answer.None? then s.importFailed + {l.Loader(i)} else s.importFailed);
    if !l.stage.Loading? then s
    else if answer.None? then FinishLoad(s, k, false)
    else if AllAnswered(l.calls) then
      s.(loads := s.loads[k := l.(stage := Changing)], catalog := s.catalog.(resources := 
           AddBundles(s.catalog.resources, l.target, l.active, l.calls, |l.active|)))
    else s
  }

  datatype Event =
    | Register(entry: Entry)
    | Unregister(entry: Entry)
    | LoadLocale(target: Locale)
    | RetryLocale
    | BundleAnswered(k: nat, i: nat, answer: Option<Bundle>)
    | LanguageChanged(k: nat, ok: bool)

  /** One atomic step; an answer nobody waits for leaves the state unchanged. */
  function Step(s: State, ev: Event): State {
    match ev
    case Register(entry) => s.(registrations := Put(s.registrations, entry))
    case Unregister(entry) =>
      var s := s.(registrations := Delete(s.registrations, entry));
      if s.registrations == [] && !s.pending then s.(error := false, target := None, revision := s.revision + 1) else s
    case LoadLocale(target) => StartLoad(s, target)
    case RetryLocale => if s.target.Some? then StartLoad(s, s.target.value) else s
    case BundleAnswered(k, i, answer) =>
      if k < |s.loads| && i < |s.loads[k].calls| == |s.loads[k].active| && s.loads[k].calls[i].Waiting?
      then StepAnswered(s, k, i, answer) else s
    case LanguageChanged(k, ok) =>
      if k < |s.loads| && s.loads[k].stage.Changing?
      then FinishLoad(if ok then s.(catalog := s.catalog.(language := s.loads[k].target)) else s, k, ok) else s
  }

  function Run(s: State, evs: seq<Event>): State
    decreases |evs|
  {
    if evs == [] then s else Run(Step(s, evs[0]), evs[1..])
  }

  // ----- Invariant -----

  /** Only the last load can be unfinished; it is the one in flight, and `pending` says so. */
  predicate SingleFlight(s: State) {
    && (s.inFlight.Some? ==> s.inFlight.value < |s.loads| && s.target == Some(s.loads[s.inFlight.value].target))
    && (forall k :: 0 <= k < |s.loads| ==> (s.loads[k].stage.Finished? <==> s.inFlight != Some(k)))
    && (s.pending <==> s.inFlight.Some?)
    && (s.pending || s.error ==> s.target.Some?)
  }

  predicate SomeBroken(calls: seq<Call>) {
    exists i :: 0 <= i < |calls| && calls[i].Broken?
  }

  /** Until its commit a load leaves the catalog alone; a broken call ends it with the catalog it found; otherwise
      it has added every bundle, and changed the language exactly if it returned true. */
  predicate LoadOk(l: Load, now: Catalog) {
    && |l.active| == |l.calls| && Distinct(l.active)
    && match l.stage
       case Loading => now == l.before && !AllAnswered(l.calls) && !SomeBroken(l.calls)
       case Changing => AllAnswered(l.calls) && now == l.before.(resources := Committed(l))
       case Finished(ok) =>
         if SomeBroken(l.calls) then !ok && l.after == l.before
         else AllAnswered(l.calls)
              && l.after == Catalog(Committed(l), if ok then l.target else l.before.language)
  }

  predicate LoadsOk(loads: seq<Load>, now: Catalog) {
    forall k :: 0 <= k < |loads| ==> LoadOk(loads[k], now)
  }

  predicate Inv(s: State) {
    SingleFlight(s) && Distinct(s.registrations) && LoadsOk(s.loads, s.catalog)
  }

  lemma {:induction false} PutKeepsDistinct(entries: seq<Entry>, e: Entry)
    requires Distinct(entries)
    ensures Distinct(Put(entries, e))
    ensures forall i :: 0 <= i < |entries| && entries[i].namespace == e.namespace ==> Put(entries, e) == entries[i := e]
    ensures (forall i :: 0 <= i < |entries| ==> entries[i].namespace != e.namespace) ==>
      Put(entries, e) == entries + [e]
  {
    if entries != [] && entries[0].namespace != e.namespace {
      var rest := entries[1..];
      PutKeepsDistinct(rest, e);
      assert forall i :: 0 < i < |entries| ==> entries[i] == rest[i - 1];
      if i :| 0 <= i < |entries| && entries[i].namespace == e.namespace {
        assert rest[i - 1].namespace == e.namespace;
      } else {
        assert forall i :: 0 <= i < |rest| ==> rest[i] == entries[i + 1];
      }
    }
  }

  lemma {:induction false} DeleteKeepsDistinct(entries: seq<Entry>, e: Entry)
    requires Distinct(entries)
    ensures Distinct(Delete(entries, e))
    ensures forall x :: x in Delete(entries, e) <==> x in entries && x != e
  {
    if entries != [] && entries[0] != e {
      DeleteKeepsDistinct(entries[1..], e);
      var rest := Delete(entries[1..], e);
      forall i | 0 <= i < |rest| ensures rest[i].namespace != entries[0].namespace {
        assert rest[i] in rest;
      }
    }
  }

  lemma StartKeepsInv(s: State, target: Locale)
    requires Inv(s)
    ensures Inv(StartLoad(s, target))
  {
    if s.inFlight.None? {
      var s' := StartLoad(s, target);
      var l := s'.loads[|s.loads|];
      if l.active != [] { assert l.calls[0].Waiting?; }
      assert LoadOk(l, s'.catalog);
      forall k | 0 <= k < |s.loads| ensures LoadOk(s'.loads[k], s'.catalog) { assert LoadOk(s.loads[k], s.catalog); }
    }
  }

  /** Finished loads do not depend on what the catalog becomes. */
  lemma OthersStayOk(s: State, k: nat, loads: seq<Load>, now: Catalog)
    requires Inv(s) && k < |s.loads| == |loads| && LoadOk(loads[k], now)
    requires s.inFlight == Some(k) || now == s.catalog
    requires forall j :: 0 <= j < |loads| && j != k ==> loads[j] == s.loads[j]
    ensures LoadsOk(loads, now)
  {
    forall j | 0 <= j < |loads| && j != k ensures LoadOk(loads[j], now) { assert LoadOk(s.loads[j], s.catalog); }
  }

  lemma AnsweredKeepsInv(s: State, k: nat, i: nat, answer: Option<Bundle>)
    requires Inv(s) && k < |s.loads| && i < |s.loads[k].calls| == |s.loads[k].active| && s.loads[k].calls[i].Waiting?
    ensures Inv(StepAnswered(s, k, i, answer))
  {
    hide AddBundles, Distinct;
    var l := s.loads[k];
    assert LoadOk(l, s.catalog);
    var imported := l.calls[i].imported;
    var call := if answer.Some? then Answered(imported, answer.value) else Broken(imported);
    var calls := l.calls[i := call];
    BrokenAfter(l.calls, i, call);
    var s' := StepAnswered(s, k, i, answer);
    if l.stage.Finished? {
      assert SomeBroken(l.calls);
    }
    assert LoadOk(s'.loads[k], s'.catalog);
    OthersStayOk(s, k, s'.loads, s'.catalog);
  }

  lemma BrokenAfter(calls: seq<Call>, i: nat, call: Call)
    requires i < |calls| && calls[i].Waiting? && !call.Waiting?
    ensures !AllAnswered(calls)
    ensures SomeBroken(calls[i := call]) <==> SomeBroken(calls) || call.Broken?
    ensures SomeBroken(calls[i := call]) ==> !AllAnswered(calls[i := call])
  {
    var after := calls[i := call];
    if SomeBroken(calls) {
      var j :| 0 <= j < |calls| && calls[j].Broken?;
      assert after[j].Broken?;
    }
    if call.Broken? { assert after[i].Broken?; }
    if SomeBroken(after) {
      var j :| 0 <= j < |after| && after[j].Broken?;
      assert j != i ==> calls[j].Broken?;
    }
  }

  lemma ChangedKeepsInv(s: State, k: nat, ok: bool)
    requires Inv(s) && k < |s.loads| && s.loads[k].stage.Changing?
    ensures Inv(Step(s, LanguageChanged(k, ok)))
  {
    hide AddBundles, Distinct;
    assert LoadOk(s.loads[k], s.catalog);
    var s' := Step(s, LanguageChanged(k, ok));
    assert LoadOk(s'.loads[k], s'.catalog);
    OthersStayOk(s, k, s'.loads, s'.catalog);
  }

  lemma StepKeepsInv(s: State, ev: Event)
    requires Inv(s)
    ensures Inv(Step(s, ev))
  {
    hide StartLoad, StepAnswered, LoadOk, Distinct;
    match ev
    case Register(entry) => PutKeepsDistinct(s.registrations, entry);
    case Unregister(entry) => DeleteKeepsDistinct(s.registrations, entry);
    case LoadLocale(target) => StartKeepsInv(s, target);
    case RetryLocale => if s.target.Some? { StartKeepsInv(s, s.target.value); }
    case BundleAnswered(k, i, answer) =>
      if k < |s.loads| && i < |s.loads[k].calls| == |s.loads[k].active| && s.loads[k].calls[i].Waiting? {
        AnsweredKeepsInv(s, k, i, answer);
      }
    case LanguageChanged(k, ok) => if k < |s.loads| && s.loads[k].stage.Changing? { ChangedKeepsInv(s, k, ok); }
  }

  lemma {:induction false} RunFromKeepsInv(s: State, evs: seq<Event>)
    requires Inv(s)
    ensures Inv(Run(s, evs))
    decreases |evs|
  {
    hide Step, Inv;
    if evs != [] {
      StepKeepsInv(s, evs[0]);
      RunFromKeepsInv(Step(s, evs[0]), evs[1..]);
    }
  }

  lemma RunKeepsInv(catalog: Catalog, evs: seq<Event>)
    ensures Inv(Run(Init(catalog), evs))
  {
    RunFromKeepsInv(Init(catalog), evs);
  }

  // ----- Guarantees -----

  /** Every text of the bundle is in place under the key. */
  predicate Holds(r: Resources, key: (Locale, string), bundle: Bundle) {
    key in r && forall path :: path in bundle ==> path in r[key] && r[key][path] == bundle[path]
  }

  predicate SameAt(a: Resources, b: Resources, key: (Locale, string)) {
    (key in a <==> key in b) && (key in a ==> a[key] == b[key])
  }

  /** Adding bundles touches only their namespaces. */
  lemma {:induction false} AddBundlesFrame(r: Resources, target: Locale, active: seq<Entry>, calls: seq<Call>, n: nat,
                                           key: (Locale, string))
    requires n <= |active| == |calls| && AllAnswered(calls)
    requires forall i :: 0 <= i < n ==> key != (target, active[i].namespace)
    ensures SameAt(AddBundles(r, target, active, calls, n), r, key)
  {
    if n > 0 { AddBundlesFrame(r, target, active, calls, n - 1, key); }
  }

  /** Adding bundles under distinct namespaces puts every one of them in place. */
  lemma {:induction false} AddBundlesHold(r: Resources, target: Locale, active: seq<Entry>, calls: seq<Call>, n: nat,
                                          i: nat)
    requires i < n <= |active| == |calls| && AllAnswered(calls) && Distinct(active)
    ensures Holds(AddBundles(r, target, active, calls, n), (target, active[i].namespace), calls[i].bundle)
  {
    if i < n - 1 {
      AddBundlesHold(r, target, active, calls, n - 1, i);
      assert active[i].namespace != active[n - 1].namespace;
    }
  }

  /** A locale switch is all or nothing: a load with a broken bundle returns false and ends with the catalog it started
      from; one that returns true has every bundle of every namespace registered at its start in place, nothing else
      changed, and the target as language, whatever registered meanwhile. */
  lemma SwitchIsAllOrNothing(catalog: Catalog, evs: seq<Event>, k: nat)
    requires k < |Run(Init(catalog), evs).loads| && Run(Init(catalog), evs).loads[k].stage.Finished?
    ensures var l := Run(Init(catalog), evs).loads[k];
      && |l.active| == |l.calls|
      && (SomeBroken(l.calls) ==> !l.stage.ok && l.after == l.before)
      && (!SomeBroken(l.calls) ==> AllAnswered(l.calls))
      && (l.stage.ok ==>
            && l.after.language == l.target && AllAnswered(l.calls)
            && (forall i :: 0 <= i < |l.active| ==>
                  Holds(l.after.resources, (l.target, l.active[i].namespace), l.calls[i].bundle))
            && (forall key :: (forall i :: 0 <= i < |l.active| ==> key != (l.target, l.active[i].namespace)) ==>
                  SameAt(l.after.resources, l.before.resources, key)))
  {
    RunKeepsInv(catalog, evs);
    var l := Run(Init(catalog), evs).loads[k];
    assert LoadOk(l, Run(Init(catalog), evs).catalog);
    hide Run, AddBundles;
    if l.stage.ok {
      forall i | 0 <= i < |l.active|
        ensures Holds(l.after.resources, (l.target, l.active[i].namespace), l.calls[i].bundle)
      {
        AddBundlesHold(l.before.resources, l.target, l.active, l.calls, |l.active|, i);
      }
      forall key | forall i :: 0 <= i < |l.active| ==> key != (l.target, l.active[i].namespace)
        ensures SameAt(l.after.resources, l.before.resources, key)
      {
        AddBundlesFrame(l.before.resources, l.target, l.active, l.calls, |l.active|, key);
      }
    }
  }

  /** While the newest load has not committed, the catalog is the one it started from. */
  lemma NothingChangesBeforeTheCommit(catalog: Catalog, evs: seq<Event>)
    ensures var s := Run(Init(catalog), evs);
      forall k :: 0 <= k < |s.loads| && s.loads[k].stage.Loading? ==> s.catalog == s.loads[k].before
  {
    RunKeepsInv(catalog, evs);
    var s := Run(Init(catalog), evs);
    forall k | 0 <= k < |s.loads| && s.loads[k].stage.Loading? ensures s.catalog == s.loads[k].before {
      assert LoadOk(s.loads[k], s.catalog);
    }
  }

  /** Loads never overlap, and whenever a load is pending or has failed there is a target, so a retry starts a load
      of it or joins the pending one. */
  lemma LoadsNeverOverlap(catalog: Catalog, evs: seq<Event>)
    ensures var s := Run(Init(catalog), evs);
      && (forall k :: 0 <= k < |s.loads| ==> (!s.loads[k].stage.Finished? <==> s.inFlight == Some(k)))
      && (s.pending <==> s.inFlight.Some?)
      && (s.pending || s.error ==> s.target.Some? && Step(s, RetryLocale) == Step(s, LoadLocale(s.target.value)))
      && (s.error && !s.pending ==> |Step(s, RetryLocale).loads| == |s.loads| + 1)
  {
    RunKeepsInv(catalog, evs);
  }

  /** Every visible change of the loader state raises the revision. */
  lemma RevisionIsStrict(s: State, ev: Event)
    ensures Step(s, ev).revision >= s.revision
    ensures Step(s, ev).revision > s.revision
         || (Step(s, ev).pending == s.pending && Step(s, ev).error == s.error && Step(s, ev).target == s.target)
  {}

  /** No load from number `from` on imports through a loader whose import had failed before. */
  predicate NoImport(s: State, from: nat, failed: set<nat>) {
    && failed <= s.importFailed
    && forall k, i ::
         (from <= k < |s.loads| && 0 <= i < |s.loads[k].active| == |s.loads[k].calls|
          && s.loads[k].Loader(i) in failed)
         ==> !s.loads[k].calls[i].imported
  }

  lemma StepKeepsNoImport(s: State, ev: Event, from: nat, failed: set<nat>)
    requires NoImport(s, from, failed)
    ensures NoImport(Step(s, ev), from, failed)
  {
    hide AddBundles, AllAnswered, Put, Delete;
  }

  lemma {:induction false} RunKeepsNoImport(s: State, evs: seq<Event>, from: nat, failed: set<nat>)
    requires NoImport(s, from, failed)
    ensures NoImport(Run(s, evs), from, failed)
    decreases |evs|
  {
    hide Step, NoImport;
    if evs != [] {
      StepKeepsNoImport(s, evs[0], from, failed);
      RunKeepsNoImport(Step(s, evs[0]), evs[1..], from, failed);
    }
  }

  /** Every failed dynamic import is remembered. */
  predicate Remembered(s: State) {
    forall k, i ::
      (0 <= k < |s.loads| && 0 <= i < |s.loads[k].calls| && i < |s.loads[k].active|
       && s.loads[k].calls[i] == Broken(true))
      ==> s.loads[k].Loader(i) in s.importFailed
  }

  lemma StepKeepsRemembered(s: State, ev: Event)
    requires Remembered(s)
    ensures Remembered(Step(s, ev))
  {
    hide AddBundles, AllAnswered, Put, Delete, StepAnswered;
    if ev.BundleAnswered? && ev.k < |s.loads| && ev.i < |s.loads[ev.k].calls| == |s.loads[ev.k].active|
       && s.loads[ev.k].calls[ev.i].Waiting?
    {
      AnswerIsRemembered(s, ev.k, ev.i, ev.answer);
    }
  }

  lemma AnswerIsRemembered(s: State, k: nat, i: nat, answer: Option<Bundle>)
    requires Remembered(s)
    requires k < |s.loads| && i < |s.loads[k].calls| == |s.loads[k].active| && s.loads[k].calls[i].Waiting?
    ensures Remembered(StepAnswered(s, k, i, answer))
  {
    hide AddBundles, AllAnswered;
  }

  lemma {:induction false} RunKeepsRemembered(s: State, evs: seq<Event>)
    requires Remembered(s)
    ensures Remembered(Run(s, evs))
    decreases |evs|
  {
    hide Step, Remembered;
    if evs != [] {
      StepKeepsRemembered(s, evs[0]);
      RunKeepsRemembered(Step(s, evs[0]), evs[1..]);
    }
  }

  /** Once a dynamic import through a loader has failed, in whatever load, no load started later in the run imports
      through it again. */
  lemma FailedImportIsNeverRepeated(catalog: Catalog, before: seq<Event>, after: seq<Event>, k: nat, i: nat, l: nat,
                                    j: nat)
    requires var s := Run(Init(catalog), before); k < |s.loads| && i < |s.loads[k].calls|
    requires var s' := Run(Run(Init(catalog), before), after); l < |s'.loads| && j < |s'.loads[l].calls|
    ensures var (s, s') := (Run(Init(catalog), before), Run(Run(Init(catalog), before), after));
      && |s.loads[k].calls| == |s.loads[k].active| && |s'.loads[l].calls| == |s'.loads[l].active|
      && (s.loads[k].calls[i] == Broken(true) && l >= |s.loads| && s'.loads[l].Loader(j) == s.loads[k].Loader(i) ==>
            !s'.loads[l].calls[j].imported)
  {
    var s := Run(Init(catalog), before);
    var s' := Run(s, after);
    RunKeepsInv(catalog, before);
    RunFromKeepsInv(s, after);
    RunKeepsRemembered(Init(catalog), before);
    RunKeepsNoImport(s, after, |s.loads|, s.importFailed);
    assert LoadOk(s.loads[k], s.catalog) && LoadOk(s'.loads[l], s'.catalog);
    hide Run, Step;
  }
}
