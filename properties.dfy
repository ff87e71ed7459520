/**
  What the states controller promises, stated over the handler functions:
  the order of its validation checks, the effect of each mutation on the fact
  lists, and the invariants the mutations keep.
*/
module ControllerProperties {
  import opened Wrappers
  import opened StatesCatalog
  import opened StatesController

  // ---------------------------------------------------------------------
  // Lookup
  // ---------------------------------------------------------------------

  /**
    A code given in any letter case reaches every handler as the same request:
    the responses and the new store contents agree.
  */
  lemma HandlersIgnoreCase(catalog: seq<StateRecord>, docs: Docs, a: string, b: string, num: nat, den: nat,
                           payload: Json, index: Option<int>, funfact: Option<string>)
    requires UpperCase(a) == UpperCase(b) && num < den
    ensures GetState(catalog, docs, Some(a)) == GetState(catalog, docs, Some(b))
    ensures GetFunFact(catalog, docs, Some(a), num, den) == GetFunFact(catalog, docs, Some(b), num, den)
    ensures GetCapital(catalog, Some(a)) == GetCapital(catalog, Some(b))
    ensures GetNickname(catalog, Some(a)) == GetNickname(catalog, Some(b))
    ensures GetPopulation(catalog, Some(a)) == GetPopulation(catalog, Some(b))
    ensures GetAdmission(catalog, Some(a)) == GetAdmission(catalog, Some(b))
    ensures Create(catalog, docs, Some(a), payload) == Create(catalog, docs, Some(b), payload)
    ensures Update(catalog, docs, Some(a), index, funfact) == Update(catalog, docs, Some(b), index, funfact)
    ensures Delete(catalog, docs, Some(a), index) == Delete(catalog, docs, Some(b), index)
  {
  }

  /**
    A missing or empty code is the first check of every handler that takes
    one: 400 "State code required.", with the store unchanged.
  */
  lemma MissingCodeIs400(catalog: seq<StateRecord>, docs: Docs, code: Option<string>, num: nat, den: nat,
                         payload: Json, index: Option<int>, funfact: Option<string>)
    requires !Present(code) && num < den
    ensures GetState(catalog, docs, code) == StateCodeRequired
    ensures GetFunFact(catalog, docs, code, num, den) == StateCodeRequired
    ensures GetCapital(catalog, code) == StateCodeRequired
    ensures GetNickname(catalog, code) == StateCodeRequired
    ensures GetPopulation(catalog, code) == StateCodeRequired
    ensures GetAdmission(catalog, code) == StateCodeRequired
    ensures Create(catalog, docs, code, payload) == Outcome(StateCodeRequired, docs)
    ensures Update(catalog, docs, code, index, funfact) == Outcome(StateCodeRequired, docs)
    ensures Delete(catalog, docs, code, index) == Outcome(StateCodeRequired, docs)
  {
  }

  /**
    A code with no catalog record draws 404 "Invalid state abbreviation
    parameter" from every handler once its payload checks have passed, and
    leaves the store as it was.
  */
  lemma UnknownCodeIs404(catalog: seq<StateRecord>, docs: Docs, code: string, num: nat, den: nat,
                         items: seq<string>, index: int, funfact: string)
    requires code != "" && FindState(catalog, code).None?
    requires num < den && index != 0 && funfact != ""
    ensures GetState(catalog, docs, Some(code)) == InvalidAbbreviation
    ensures GetFunFact(catalog, docs, Some(code), num, den) == InvalidAbbreviation
    ensures GetCapital(catalog, Some(code)) == InvalidAbbreviation
    ensures GetNickname(catalog, Some(code)) == InvalidAbbreviation
    ensures GetPopulation(catalog, Some(code)) == InvalidAbbreviation
    ensures GetAdmission(catalog, Some(code)) == InvalidAbbreviation
    ensures Create(catalog, docs, Some(code), JArray(items)) == Outcome(InvalidAbbreviation, docs)
    ensures Update(catalog, docs, Some(code), Some(index), Some(funfact)) == Outcome(InvalidAbbreviation, docs)
    ensures Delete(catalog, docs, Some(code), Some(index)) == Outcome(InvalidAbbreviation, docs)
  {
  }

  /** `getState` answers with the catalog record, unaltered, plus its stored facts or `[]`. */
  lemma GetStateMerges(catalog: seq<StateRecord>, docs: Docs, code: string, rec: StateRecord)
    requires code != "" && FindState(catalog, code) == Some(rec)
    ensures GetState(catalog, docs, Some(code)) == Response(200, StateView(Merge(rec, docs)))
    ensures rec in catalog && rec.code == UpperCase(code)
    ensures rec.code in docs ==> Merge(rec, docs).funfacts == docs[rec.code]
    ensures rec.code !in docs ==> Merge(rec, docs).funfacts == []
  {
  }

  /** The four field getters project one static field of the record the code finds. */
  lemma FieldGettersProject(catalog: seq<StateRecord>, code: string, rec: StateRecord)
    requires code != "" && FindState(catalog, code) == Some(rec)
    ensures GetCapital(catalog, Some(code)) == Response(200, Capital(rec.state, rec.capitalCity))
    ensures GetNickname(catalog, Some(code)) == Response(200, Nickname(rec.state, rec.nickname))
    ensures GetPopulation(catalog, Some(code)) == Response(200, Population(rec.state, rec.population))
    ensures GetAdmission(catalog, Some(code)) == Response(200, Admitted(rec.state, rec.admissionDate))
  {
  }

  // ---------------------------------------------------------------------
  // Random fun fact
  // ---------------------------------------------------------------------

  /** A state with a non-empty list answers with one of its stored facts. */
  lemma RandomFunFactIsStored(catalog: seq<StateRecord>, docs: Docs, code: string, num: nat, den: nat)
    requires code != "" && FindState(catalog, code).Some? && num < den
    requires StoredFacts(docs, UpperCase(code)) != []
    ensures GetFunFact(catalog, docs, Some(code), num, den).status == 200
    ensures GetFunFact(catalog, docs, Some(code), num, den).body.FunFact?
    ensures GetFunFact(catalog, docs, Some(code), num, den).body.funfact in docs[UpperCase(code)]
  {
  }

  /** Every position of a list of length `n` is the pick of some draw. */
  lemma RandomIndexReachesAll(n: nat, i: nat)
    requires i < n
    ensures RandomIndex(i, n, n) == i
  {
    DivExact(i * n, n, i);
  }

  lemma DivAtLeast(x: int, d: int, q: int)
    requires 0 < d && q * d <= x
    ensures q <= x / d
  {
    var r := x / d;
    if r < q {
      MulMono(r, q - 1, d);
    }
  }

  lemma MulMono(a: int, b: int, d: int)
    requires a <= b && 0 < d
    ensures a * d <= b * d
  {
  }

  lemma DivExact(x: int, d: int, q: int)
    requires 0 < d && x == q * d
    ensures x / d == q
  {
    assert x < d * (q + 1) by { assert d * (q + 1) == q * d + d; }
    DivBelow(x, d, q + 1);
    DivAtLeast(x, d, q);
  }

  // ---------------------------------------------------------------------
  // No facts, missing index
  // ---------------------------------------------------------------------

  /**
    A state with no list, or an empty one, draws 404 "No Fun Facts found for
    <name>" from the random-fact, update and delete handlers, and the store
    does not change.
  */
  lemma NoFactsIs404(catalog: seq<StateRecord>, docs: Docs, code: string, rec: StateRecord,
                     num: nat, den: nat, index: int, funfact: string)
    requires code != "" && FindState(catalog, code) == Some(rec)
    requires StoredFacts(docs, UpperCase(code)) == []
    requires num < den && index != 0 && funfact != ""
    ensures GetFunFact(catalog, docs, Some(code), num, den) == NoFunFacts(rec.state)
    ensures Update(catalog, docs, Some(code), Some(index), Some(funfact)) == Outcome(NoFunFacts(rec.state), docs)
    ensures Delete(catalog, docs, Some(code), Some(index)) == Outcome(NoFunFacts(rec.state), docs)
  {
  }

  /**
    An index that is absent or 0 is rejected as missing (400) before the code
    is looked up: the answer does not depend on the catalog or the store.
  */
  lemma MissingIndexBeforeLookup(catalog: seq<StateRecord>, docs: Docs, code: string,
                                 index: Option<int>, funfact: Option<string>)
    requires code != "" && (index == None || index == Some(0))
    ensures Update(catalog, docs, Some(code), index, funfact) == Outcome(IndexRequired, docs)
    ensures Delete(catalog, docs, Some(code), index) == Outcome(IndexRequired, docs)
  {
  }

  /**
    Validation order of `updateStateFunFact`: a missing code, then a missing
    or zero index, then a missing or empty fact, each a 400 that leaves the
    store alone and is decided before the catalog is consulted.
  */
  lemma UpdateValidationOrder(catalog: seq<StateRecord>, other: seq<StateRecord>, docs: Docs,
                              code: Option<string>, index: Option<int>, funfact: Option<string>)
    ensures !Present(code) ==> Update(catalog, docs, code, index, funfact) == Outcome(StateCodeRequired, docs)
    ensures Present(code) && !IndexPresent(index) ==>
              Update(catalog, docs, code, index, funfact) == Outcome(IndexRequired, docs)
    ensures Present(code) && IndexPresent(index) && !Present(funfact) ==>
              Update(catalog, docs, code, index, funfact) == Outcome(FunFactRequired, docs)
    ensures !(Present(code) && IndexPresent(index) && Present(funfact)) ==>
              Update(catalog, docs, code, index, funfact) == Update(other, docs, code, index, funfact)
  {
  }

  /**
    Validation order of `deleteStateFunFact`: a missing code, then a missing
    or zero index, each a 400 that leaves the store alone and is decided
    before the catalog is consulted.
  */
  lemma DeleteValidationOrder(catalog: seq<StateRecord>, other: seq<StateRecord>, docs: Docs,
                              code: Option<string>, index: Option<int>)
    ensures !Present(code) ==> Delete(catalog, docs, code, index) == Outcome(StateCodeRequired, docs)
    ensures Present(code) && !IndexPresent(index) ==>
              Delete(catalog, docs, code, index) == Outcome(IndexRequired, docs)
    ensures !(Present(code) && IndexPresent(index)) ==>
              Delete(catalog, docs, code, index) == Delete(other, docs, code, index)
  {
  }

  // ---------------------------------------------------------------------
  // Create
  // ---------------------------------------------------------------------

  /**
    Validation order of `createStateFunFact`: a missing code, then a falsy
    payload, then a payload that is not an array, each a 400 that leaves the
    store alone and is decided before the catalog is consulted.
  */
  lemma CreateValidationOrder(catalog: seq<StateRecord>, other: seq<StateRecord>, docs: Docs,
                              code: Option<string>, payload: Json)
    ensures !Present(code) ==> Create(catalog, docs, code, payload) == Outcome(StateCodeRequired, docs)
    ensures Present(code) && !Truthy(payload) ==>
              Create(catalog, docs, code, payload) == Outcome(FunFactsRequired, docs)
    ensures Present(code) && Truthy(payload) && !payload.JArray? ==>
              Create(catalog, docs, code, payload) == Outcome(FunFactsNotArray, docs)
    ensures !(Present(code) && payload.JArray?) ==>
              Create(catalog, docs, code, payload) == Create(other, docs, code, payload)
  {
  }

  /**
    A valid `createStateFunFact` answers 201 and puts, under the upper-cased
    code, the old list followed by the submitted facts (exactly the submitted
    facts when there was no list); every other code keeps its list.
  */
  lemma CreateAppends(catalog: seq<StateRecord>, docs: Docs, code: string, items: seq<string>)
    requires code != "" && FindState(catalog, code).Some?
    ensures var out := Create(catalog, docs, Some(code), JArray(items));
            var key := UpperCase(code);
            && out.response == Response(201, Document(key, out.docs[key]))
            && (key in docs ==> out.docs[key] == docs[key] + items)
            && (key !in docs ==> out.docs[key] == items)
            && (forall k :: k != key ==> (k in out.docs <==> k in docs))
            && (forall k :: k != key && k in docs ==> out.docs[k] == docs[k])
  {
  }

  /** Submitting an empty array to a state that has a list answers 201 and changes nothing. */
  lemma CreateEmptyIsNoOp(catalog: seq<StateRecord>, docs: Docs, code: string)
    requires code != "" && FindState(catalog, code).Some? && UpperCase(code) in docs
    ensures Create(catalog, docs, Some(code), JArray([])).response.status == 201
    ensures Create(catalog, docs, Some(code), JArray([])).docs == docs
  {
    CreateAppends(catalog, docs, code, []);
    var key := UpperCase(code);
    assert docs[key] + [] == docs[key];
  }

  // ---------------------------------------------------------------------
  // Update and delete
  // ---------------------------------------------------------------------

  /**
    An index outside the list (`index-1 < 0` or `index-1 >= |facts|`) draws 400
    "No Fun Fact found at that index for <name>" from update and delete, and
    the store does not change.
  */
  lemma OutOfRangeIs400(catalog: seq<StateRecord>, docs: Docs, code: string, rec: StateRecord,
                        index: int, funfact: string)
    requires code != "" && FindState(catalog, code) == Some(rec)
    requires index != 0 && funfact != ""
    requires StoredFacts(docs, UpperCase(code)) != []
    requires index - 1 < 0 || index - 1 >= |docs[UpperCase(code)]|
    ensures Update(catalog, docs, Some(code), Some(index), Some(funfact)) == Outcome(NoFunFactAtIndex(rec.state), docs)
    ensures Delete(catalog, docs, Some(code), Some(index)) == Outcome(NoFunFactAtIndex(rec.state), docs)
  {
    FindStateOfUpper(catalog, code);
  }

  /**
    An in-range update answers 200; the fact at `index-1` becomes the new
    fact, the list keeps its length, every other fact and every other code's
    list stays as it was.
  */
  lemma UpdateReplaces(catalog: seq<StateRecord>, docs: Docs, code: string, index: int, funfact: string)
    requires code != "" && FindState(catalog, code).Some? && funfact != ""
    requires UpperCase(code) in docs && 1 <= index <= |docs[UpperCase(code)]|
    ensures var out := Update(catalog, docs, Some(code), Some(index), Some(funfact));
            var key := UpperCase(code);
            && out.response.status == 200
            && out.docs.Keys == docs.Keys
            && |out.docs[key]| == |docs[key]|
            && out.docs[key][index - 1] == funfact
            && (forall j :: 0 <= j < |docs[key]| && j != index - 1 ==> out.docs[key][j] == docs[key][j])
            && (forall k :: k in docs && k != key ==> out.docs[k] == docs[k])
  {
  }

  /**
    An in-range delete answers 200 and removes exactly the fact at `index-1`:
    the list is one shorter, the facts before it stay, the facts after it move
    down by one, and every other code's list stays as it was.
  */
  lemma DeleteRemoves(catalog: seq<StateRecord>, docs: Docs, code: string, index: int)
    requires code != "" && FindState(catalog, code).Some?
    requires UpperCase(code) in docs && 1 <= index <= |docs[UpperCase(code)]|
    ensures var out := Delete(catalog, docs, Some(code), Some(index));
            var key := UpperCase(code);
            && out.response.status == 200
            && out.docs.Keys == docs.Keys
            && |out.docs[key]| == |docs[key]| - 1
            && (forall j :: 0 <= j < index - 1 ==> out.docs[key][j] == docs[key][j])
            && (forall j :: index - 1 <= j < |out.docs[key]| ==> out.docs[key][j] == docs[key][j + 1])
            && (forall k :: k in docs && k != key ==> out.docs[k] == docs[k])
  {
  }

  /** Deleting and then re-inserting the removed fact gives back the list. */
  lemma SpliceOutThenInsert(s: seq<string>, i: nat)
    requires i < |s|
    ensures SpliceOut(s, i)[..i] + [s[i]] + SpliceOut(s, i)[i..] == s
  {
  }

  // ---------------------------------------------------------------------
  // Store invariant
  // ---------------------------------------------------------------------

  /** Every stored list sits under an upper-case code that the catalog knows. */
  ghost predicate KeysResolved(catalog: seq<StateRecord>, docs: Docs)
  {
    forall k :: k in docs ==> UpperCase(k) == k && FindState(catalog, k).Some?
  }

  /** Storing a list under a known upper-case code keeps the invariant. */
  lemma KeysResolvedStore(catalog: seq<StateRecord>, docs: Docs, key: string, facts: seq<string>)
    requires KeysResolved(catalog, docs)
    requires UpperCase(key) == key && FindState(catalog, key).Some?
    ensures KeysResolved(catalog, docs[key := facts])
  {
  }

  /**
    Since every mutation resolves the code before touching the store, the
    store only ever holds lists under known, upper-case codes.
  */
  lemma MutationsKeepKeysResolved(catalog: seq<StateRecord>, docs: Docs, code: Option<string>,
                                  payload: Json, index: Option<int>, funfact: Option<string>)
    requires KeysResolved(catalog, docs)
    ensures KeysResolved(catalog, Create(catalog, docs, code, payload).docs)
    ensures KeysResolved(catalog, Update(catalog, docs, code, index, funfact).docs)
    ensures KeysResolved(catalog, Delete(catalog, docs, code, index).docs)
  {
    if Present(code) {
      var key := Key(code);
      UpperCaseIdempotent(code.value);
      if FindState(catalog, key).Some? {
        var c := Create(catalog, docs, code, payload).docs;
        if c != docs { KeysResolvedStore(catalog, docs, key, c[key]); }
        var u := Update(catalog, docs, code, index, funfact).docs;
        if u != docs { KeysResolvedStore(catalog, docs, key, u[key]); }
        var d := Delete(catalog, docs, code, index).docs;
        if d != docs { KeysResolvedStore(catalog, docs, key, d[key]); }
      }
    }
  }
}
