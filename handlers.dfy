/**
  The controller's request handlers, step by step: each runs its guarded
  early returns, then reads or updates the fact store. Each is proved to
  answer, and to leave the store, as the matching function of
  `StatesController` says.
*/
module Handlers {
  import opened Wrappers
  import opened StatesCatalog
  import C = StatesController
  import opened FactStores

  /** `getAllStates`: filter the catalog, then attach each state's facts in catalog order. */
  method GetAllStates(store: FactStore, catalog: seq<StateRecord>, contig: Option<string>)
    returns (resp: C.Response)
    ensures resp == C.GetAllStates(catalog, store.docs, contig)
  {
    var list := ContigFilter(catalog, contig);
    var views: seq<MergedState> := [];
    var i := 0;
    while i < |list|
      invariant 0 <= i <= |list|
      invariant |views| == i
      invariant forall k :: 0 <= k < i ==> views[k] == Merge(list[k], store.docs)
    {
      var found := store.FindOne(list[i].code);
      var facts := if found.Some? then found.value else [];
      views := views + [MergedState(list[i], facts)];
      i := i + 1;
    }
    assert views == MergeAll(list, store.docs);
    resp := C.Response(200, C.StateList(views));
  }

  /** `getState`. */
  method GetState(store: FactStore, catalog: seq<StateRecord>, code: Option<string>)
    returns (resp: C.Response)
    ensures resp == C.GetState(catalog, store.docs, code)
  {
    if !C.Present(code) {
      return C.StateCodeRequired;
    }
    var key := UpperCase(code.value);
    var rec := FindState(catalog, key);
    if rec.None? {
      return C.InvalidAbbreviation;
    }
    var found := store.FindOne(key);
    var facts := if found.Some? then found.value else [];
    resp := C.Response(200, C.StateView(MergedState(rec.value, facts)));
  }

  /** `getStateFunFact`, the random number in [0, 1) drawn as `num / den`. */
  method GetStateFunFact(store: FactStore, catalog: seq<StateRecord>, code: Option<string>,
                         num: nat, den: nat)
    returns (resp: C.Response)
    requires num < den
    ensures resp == C.GetFunFact(catalog, store.docs, code, num, den)
  {
    if !C.Present(code) {
      return C.StateCodeRequired;
    }
    var key := UpperCase(code.value);
    var rec := FindState(catalog, key);
    if rec.None? {
      return C.InvalidAbbreviation;
    }
    var found := store.FindOne(key);
    if found.None? || |found.value| == 0 {
      return C.NoFunFacts(rec.value.state);
    }
    var i := C.RandomIndex(num, den, |found.value|);
    resp := C.Response(200, C.FunFact(found.value[i]));
  }

  /** `createStateFunFact`. */
  method CreateStateFunFact(store: FactStore, catalog: seq<StateRecord>, code: Option<string>,
                            payload: C.Json)
    returns (resp: C.Response)
    modifies store
    ensures C.Outcome(resp, store.docs) == C.Create(catalog, old(store.docs), code, payload)
  {
    if !C.Present(code) {
      return C.StateCodeRequired;
    }
    if !C.Truthy(payload) {
      return C.FunFactsRequired;
    }
    if !payload.JArray? {
      return C.FunFactsNotArray;
    }
    var key := UpperCase(code.value);
    var rec := FindState(catalog, key);
    if rec.None? {
      return C.InvalidAbbreviation;
    }
    store.Append(key, payload.items);
    resp := C.Response(201, C.Document(key, store.docs[key]));
  }

  /** `updateStateFunFact`. */
  method UpdateStateFunFact(store: FactStore, catalog: seq<StateRecord>, code: Option<string>,
                            index: Option<int>, funfact: Option<string>)
    returns (resp: C.Response)
    modifies store
    ensures C.Outcome(resp, store.docs) == C.Update(catalog, old(store.docs), code, index, funfact)
  {
    if !C.Present(code) {
      return C.StateCodeRequired;
    }
    if !C.IndexPresent(index) {
      return C.IndexRequired;
    }
    if !C.Present(funfact) {
      return C.FunFactRequired;
    }
    var key := UpperCase(code.value);
    var rec := FindState(catalog, key);
    if rec.None? {
      return C.InvalidAbbreviation;
    }
    var found := store.FindOne(key);
    if found.None? || |found.value| == 0 {
      return C.NoFunFacts(rec.value.state);
    }
    var adjusted := index.value - 1;
    if adjusted < 0 || adjusted >= |found.value| {
      return C.NoFunFactAtIndex(rec.value.state);
    }
    store.ReplaceAt(key, adjusted, funfact.value);
    resp := C.Response(200, C.Document(key, store.docs[key]));
  }

  /** `deleteStateFunFact`. */
  method DeleteStateFunFact(store: FactStore, catalog: seq<StateRecord>, code: Option<string>,
                            index: Option<int>)
    returns (resp: C.Response)
    modifies store
    ensures C.Outcome(resp, store.docs) == C.Delete(catalog, old(store.docs), code, index)
  {
    if !C.Present(code) {
      return C.StateCodeRequired;
    }
    if !C.IndexPresent(index) {
      return C.IndexRequired;
    }
    var key := UpperCase(code.value);
    var rec := FindState(catalog, key);
    if rec.None? {
      return C.InvalidAbbreviation;
    }
    var found := store.FindOne(key);
    if found.None? || |found.value| == 0 {
      return C.NoFunFacts(rec.value.state);
    }
    var adjusted := index.value - 1;
    if adjusted < 0 || adjusted >= |found.value| {
      return C.NoFunFactAtIndex(rec.value.state);
    }
    store.RemoveAt(key, adjusted);
    resp := C.Response(200, C.Document(key, store.docs[key]));
  }
}
