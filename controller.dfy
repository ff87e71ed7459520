/**
  The request handlers of the states controller as functions of
  (catalog, fact store contents, request) to (response, new store contents).
  Each handler is a fixed chain of guarded early returns.
*/
module StatesController {
  import opened Wrappers
  import opened StatesCatalog

  // ---------------------------------------------------------------------
  // Requests and responses
  // ---------------------------------------------------------------------

  /** The JSON value a request body field can hold. */
  datatype Json =
    | JUndefined
    | JNull
    | JBool(b: bool)
    | JNumber(n: int)
    | JString(s: string)
    | JArray(items: seq<string>)
    | JObject

  /** JavaScript truthiness: `undefined`, `null`, `false`, `0` and `""` are falsy. */
  predicate Truthy(j: Json)
  {
    match j
    case JUndefined => false
    case JNull => false
    case JBool(b) => b
    case JNumber(n) => n != 0
    case JString(s) => s != ""
    case JArray(_) => true
    case JObject => true
  }

  /** A string parameter passes `if (!param)` when it is there and not empty. */
  predicate Present(p: Option<string>)
  {
    p.Some? && p.value != ""
  }

  /** A numeric index passes `if (!index)` when it is there and not zero. */
  predicate IndexPresent(index: Option<int>)
  {
    index.Some? && index.value != 0
  }

  datatype Body =
    | Message(text: string)
    | StateView(view: MergedState)
    | StateList(views: seq<MergedState>)
    | FunFact(funfact: string)
    | Capital(state: string, capital: string)
    | Nickname(state: string, nickname: string)
    | Population(state: string, population: nat)
    | Admitted(state: string, admitted: string)
    | Document(stateCode: string, funfacts: seq<string>)

  datatype Response = Response(status: nat, body: Body)

  /** A handler's response together with the fact store's contents after it. */
  datatype Outcome = Outcome(response: Response, docs: Docs)

  const StateCodeRequired := Response(400, Message("State code required."))
  const InvalidAbbreviation := Response(404, Message("Invalid state abbreviation parameter"))
  const FunFactsRequired := Response(400, Message("State fun facts value required"))
  const FunFactsNotArray := Response(400, Message("State fun facts value must be an array"))
  const IndexRequired := Response(400, Message("State fun fact index value required"))
  const FunFactRequired := Response(400, Message("State fun fact value required"))

  function NoFunFacts(name: string): Response
  {
    Response(404, Message("No Fun Facts found for " + name))
  }

  function NoFunFactAtIndex(name: string): Response
  {
    Response(400, Message("No Fun Fact found at that index for " + name))
  }

  // ---------------------------------------------------------------------
  // Resolving the state code
  // ---------------------------------------------------------------------

  /** The store key a handler uses: the route parameter upper-cased. */
  function Key(code: Option<string>): string
    requires code.Some?
  {
    UpperCase(code.value)
  }

  /**
    The opening checks most handlers share: a missing code is a 400, a code
    with no catalog record a 404, otherwise the record.
  */
  function Resolve(catalog: seq<StateRecord>, code: Option<string>): (r: Result<StateRecord, Response>)
    ensures !Present(code) ==> r == Err(StateCodeRequired)
    ensures Present(code) && FindState(catalog, code.value).None? ==> r == Err(InvalidAbbreviation)
    ensures Present(code) && FindState(catalog, code.value).Some? ==> r == Ok(FindState(catalog, code.value).value)
    ensures r.Ok? ==> Present(code) && Some(r.value) == FindState(catalog, code.value)
    ensures r.Ok? ==> r.value in catalog && r.value.code == Key(code)
  {
    if !Present(code) then Err(StateCodeRequired)
    else
      FindStateOfUpper(catalog, code.value);
      UpperCaseIdempotent(code.value);
      match FindState(catalog, Key(code))
      case None => Err(InvalidAbbreviation)
      case Some(rec) => Ok(rec)
  }

  /**
    The answer of a handler whose checks before the store are the code's
    presence and its lookup: the two errors come first, in that order, and the
    handler succeeds exactly when the code finds a record.
  */
  predicate AnswersAfterLookup(catalog: seq<StateRecord>, code: Option<string>, r: Response)
  {
    && (!Present(code) ==> r == StateCodeRequired)
    && (Present(code) && FindState(catalog, code.value).None? ==> r == InvalidAbbreviation)
  }

  // ---------------------------------------------------------------------
  // Read handlers
  // ---------------------------------------------------------------------

  /** `getAllStates`. */
  function GetAllStates(catalog: seq<StateRecord>, docs: Docs, contig: Option<string>): (r: Response)
    ensures r.status == 200 && r.body.StateList?
    ensures |r.body.views| == |ContigFilter(catalog, contig)|
    ensures forall m :: m in r.body.views ==>
              m.record in catalog && Keeps(ContigModeOf(contig), m.record) &&
              m.funfacts == StoredFacts(docs, m.record.code)
    ensures forall i :: 0 <= i < |r.body.views| ==>
              r.body.views[i] == Merge(ContigFilter(catalog, contig)[i], docs)
  {
    Response(200, StateList(AllStatesView(catalog, docs, contig)))
  }

  /** `getState`. */
  function GetState(catalog: seq<StateRecord>, docs: Docs, code: Option<string>): (r: Response)
    ensures AnswersAfterLookup(catalog, code, r)
    ensures r.status == 200 <==> Present(code) && FindState(catalog, code.value).Some?
    ensures r.status == 200 ==>
              r.body.StateView? && Some(r.body.view.record) == FindState(catalog, code.value) &&
              r.body.view.funfacts == StoredFacts(docs, r.body.view.record.code)
  {
    match Resolve(catalog, code)
    case Err(e) => e
    case Ok(rec) => Response(200, StateView(MergedState(rec, StoredFacts(docs, Key(code)))))
  }

  /** `Math.floor(Math.random() * n)` with the random number drawn as `num / den`. */
  function RandomIndex(num: nat, den: nat, n: nat): (i: nat)
    requires num < den && 0 < n
    ensures i < n
  {
    assert num * n < den * n by { MulStrict(num, den, n); }
    DivBelow(num * n, den, n);
    num * n / den
  }

  lemma MulStrict(a: nat, b: nat, n: nat)
    requires a < b && 0 < n
    ensures a * n < b * n
  {
  }

  lemma DivBelow(x: int, d: int, n: int)
    requires 0 < d && x < d * n
    ensures x / d < n
  {
  }

  /** `getStateFunFact`, with the random draw `num / den` in [0, 1) as a parameter. */
  function GetFunFact(catalog: seq<StateRecord>, docs: Docs, code: Option<string>, num: nat, den: nat): (r: Response)
    requires num < den
    ensures AnswersAfterLookup(catalog, code, r)
    ensures r.status == 200 <==>
              Present(code) && FindState(catalog, code.value).Some? && StoredFacts(docs, Key(code)) != []
    ensures r.status == 200 ==> r.body.FunFact? && r.body.funfact in StoredFacts(docs, Key(code))
  {
    match Resolve(catalog, code)
    case Err(e) => e
    case Ok(rec) =>
      var key := Key(code);
      if key !in docs || |docs[key]| == 0 then NoFunFacts(rec.state)
      else Response(200, FunFact(docs[key][RandomIndex(num, den, |docs[key]|)]))
  }

  /** `getStateCapital`. */
  function GetCapital(catalog: seq<StateRecord>, code: Option<string>): (r: Response)
    ensures AnswersAfterLookup(catalog, code, r)
    ensures r.status == 200 <==> Present(code) && FindState(catalog, code.value).Some?
    ensures r.status == 200 ==> r.body.Capital? && r.body.state == FindState(catalog, code.value).value.state
  {
    match Resolve(catalog, code)
    case Err(e) => e
    case Ok(rec) => Response(200, Capital(rec.state, rec.capitalCity))
  }

  /** `getStateNickname`. */
  function GetNickname(catalog: seq<StateRecord>, code: Option<string>): (r: Response)
    ensures AnswersAfterLookup(catalog, code, r)
    ensures r.status == 200 <==> Present(code) && FindState(catalog, code.value).Some?
    ensures r.status == 200 ==> r.body.Nickname? && r.body.state == FindState(catalog, code.value).value.state
  {
    match Resolve(catalog, code)
    case Err(e) => e
    case Ok(rec) => Response(200, Nickname(rec.state, rec.nickname))
  }

  /** `getStatePopulation` (the raw number; locale formatting is not modelled). */
  function GetPopulation(catalog: seq<StateRecord>, code: Option<string>): (r: Response)
    ensures AnswersAfterLookup(catalog, code, r)
    ensures r.status == 200 <==> Present(code) && FindState(catalog, code.value).Some?
    ensures r.status == 200 ==> r.body.Population? && r.body.state == FindState(catalog, code.value).value.state
  {
    match Resolve(catalog, code)
    case Err(e) => e
    case Ok(rec) => Response(200, Population(rec.state, rec.population))
  }

  /** `getStateAdmission`. */
  function GetAdmission(catalog: seq<StateRecord>, code: Option<string>): (r: Response)
    ensures AnswersAfterLookup(catalog, code, r)
    ensures r.status == 200 <==> Present(code) && FindState(catalog, code.value).Some?
    ensures r.status == 200 ==> r.body.Admitted? && r.body.state == FindState(catalog, code.value).value.state
  {
    match Resolve(catalog, code)
    case Err(e) => e
    case Ok(rec) => Response(200, Admitted(rec.state, rec.admissionDate))
  }

  // ---------------------------------------------------------------------
  // Fun-fact mutations
  // ---------------------------------------------------------------------

  /** `splice(i, 1)`: the list without its element at `i`. */
  function SpliceOut(s: seq<string>, i: nat): (r: seq<string>)
    requires i < |s|
    ensures |r| == |s| - 1
    ensures forall k :: 0 <= k < i ==> r[k] == s[k]
    ensures forall k :: i <= k < |r| ==> r[k] == s[k + 1]
  {
    s[..i] + s[i + 1..]
  }

  /** `createStateFunFact`: append the submitted facts, creating the list when there is none. */
  function Create(catalog: seq<StateRecord>, docs: Docs, code: Option<string>, payload: Json): (out: Outcome)
    ensures out.response.status in {201, 400, 404}
    ensures out.response.status != 201 ==> out.docs == docs
    ensures out.docs == docs || (Present(code) && Key(code) in out.docs &&
                                 out.docs == docs[Key(code) := out.docs[Key(code)]])
    ensures out.response.status == 201 ==>
              Present(code) && out.docs.Keys == docs.Keys + {Key(code)} &&
              out.response.body == Document(Key(code), out.docs[Key(code)])
  {
    if !Present(code) then Outcome(StateCodeRequired, docs)
    else if !Truthy(payload) then Outcome(FunFactsRequired, docs)
    else if !payload.JArray? then Outcome(FunFactsNotArray, docs)
    else
      var key := Key(code);
      match FindState(catalog, key)
      case None => Outcome(InvalidAbbreviation, docs)
      case Some(_) =>
        var facts := if key in docs then docs[key] + payload.items else payload.items;
        Outcome(Response(201, Document(key, facts)), docs[key := facts])
  }

  /** `updateStateFunFact`: replace the fact at a 1-based index. */
  function Update(catalog: seq<StateRecord>, docs: Docs, code: Option<string>,
                  index: Option<int>, funfact: Option<string>): (out: Outcome)
    ensures out.response.status in {200, 400, 404}
    ensures out.response.status != 200 ==> out.docs == docs
    ensures out.docs == docs || (Present(code) && Key(code) in out.docs &&
                                 out.docs == docs[Key(code) := out.docs[Key(code)]])
    ensures out.response.status == 200 ==>
              Present(code) && Key(code) in docs && out.docs.Keys == docs.Keys &&
              |out.docs[Key(code)]| == |docs[Key(code)]| &&
              out.response.body == Document(Key(code), out.docs[Key(code)])
  {
    if !Present(code) then Outcome(StateCodeRequired, docs)
    else if !IndexPresent(index) then Outcome(IndexRequired, docs)
    else if !Present(funfact) then Outcome(FunFactRequired, docs)
    else
      var key := Key(code);
      match FindState(catalog, key)
      case None => Outcome(InvalidAbbreviation, docs)
      case Some(rec) =>
        if key !in docs || |docs[key]| == 0 then Outcome(NoFunFacts(rec.state), docs)
        else
          var adjusted := index.value - 1;
          if adjusted < 0 || adjusted >= |docs[key]| then Outcome(NoFunFactAtIndex(rec.state), docs)
          else
            var facts := docs[key][adjusted := funfact.value];
            Outcome(Response(200, Document(key, facts)), docs[key := facts])
  }

  /** `deleteStateFunFact`: remove the fact at a 1-based index. */
  function Delete(catalog: seq<StateRecord>, docs: Docs, code: Option<string>, index: Option<int>): (out: Outcome)
    ensures out.response.status in {200, 400, 404}
    ensures out.response.status != 200 ==> out.docs == docs
    ensures out.docs == docs || (Present(code) && Key(code) in out.docs &&
                                 out.docs == docs[Key(code) := out.docs[Key(code)]])
    ensures out.response.status == 200 ==>
              Present(code) && Key(code) in docs && out.docs.Keys == docs.Keys &&
              |out.docs[Key(code)]| == |docs[Key(code)]| - 1 &&
              out.response.body == Document(Key(code), out.docs[Key(code)])
  {
    if !Present(code) then Outcome(StateCodeRequired, docs)
    else if !IndexPresent(index) then Outcome(IndexRequired, docs)
    else
      var key := Key(code);
      match FindState(catalog, key)
      case None => Outcome(InvalidAbbreviation, docs)
      case Some(rec) =>
        if key !in docs || |docs[key]| == 0 then Outcome(NoFunFacts(rec.state), docs)
        else
          var adjusted := index.value - 1;
          if adjusted < 0 || adjusted >= |docs[key]| then Outcome(NoFunFactAtIndex(rec.state), docs)
          else
            var facts := SpliceOut(docs[key], adjusted);
            Outcome(Response(200, Document(key, facts)), docs[key := facts])
  }
}
