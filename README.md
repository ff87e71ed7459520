# U.S. states REST API — model of the states controller

This project models the core of a small REST API over U.S. state data:
`controllers/statesController.js`. The API has a fixed catalog of state records
(code, name, capital, nickname, population, admission date). It also has a
document store that holds, for each state code, an ordered list of "fun facts".

The model has two parts:

- **Lookup, filter, merge** (pure, module `StatesCatalog`, `catalog.dfy`).
  `findState` upper-cases a code and returns the first catalog record with that
  code. The `contig` query keeps every record but AK and HI (`'true'`), only AK and
  HI (`'false'`), or the whole catalog (any other value). The merge attaches a
  state's stored list to its static record, or `[]` when there is no list.
- **Handlers** (module `StatesController`, `controller.dfy`). Each handler is a
  function of (catalog, store contents, request) to a response (status and body)
  and the new store contents. It runs the source's chain of early returns in the
  source's order. The store is a `map` from state code to `seq<string>`.
  Module `ControllerProperties` (`properties.dfy`) proves what the handlers
  promise.
- **Imperative layer** (`fact_store.dfy`, `handlers.dfy`). The class
  `FactStores.FactStore` holds the map in a field. Its methods find, append,
  replace at an index and remove at an index. The methods of module `Handlers`
  are the request handlers written step by step. Each is proved to give the
  response and the new store that the matching `StatesController` function gives.

Requests are explicit values. A route parameter or string body field is an
`Option<string>`; JavaScript's `if (!x)` is `Present`, true when the value is
there and not `""`. The `index` body field is an `Option<int>`; `if (!index)` is
`IndexPresent`, true when it is there and not `0`. The `funfacts` body field of
a create is a small JSON value (`Json`) so that falsy values and non-arrays can
be told apart with JavaScript's truthiness rules.

Update and delete answer 404 "No Fun Facts found for <name>" when the state has
no list or an empty one. They do this before they check the index, so only an
existing non-empty list can give 400 "No Fun Fact found at that index for <name>".

## Model

| member | source | states |
|---|---|---|
| `StatesCatalog.UpperCase` | controllers/statesController.js:38 | `toUpperCase` keeps the length and upper-cases every character (ASCII letters) |
| `StatesCatalog.UpperCaseIdempotent` | controllers/statesController.js:38-39 | upper-casing an already upper-cased code changes nothing, so the double upper-casing in the handlers is harmless |
| `StatesCatalog.FindCode` | controllers/statesController.js:5-7 | `find` returns a catalog record whose code is the key, and the first such one; it returns nothing exactly when no record has that code |
| `StatesCatalog.FindState` | controllers/statesController.js:5-7 | `findState(c)` is a catalog record whose code is `c` upper-cased, and is nothing exactly when no record has that code |
| `StatesCatalog.FindStateExact` | controllers/statesController.js:5-7 | with one record per code, `findState(c)` is `rec` if and only if `rec` is in the catalog and its code is `c` upper-cased |
| `StatesCatalog.FindStateOfUpper` | controllers/statesController.js:38-39 | looking up the upper-cased parameter finds the same record as looking up the raw parameter |
| `StatesCatalog.FindStateCaseInsensitive` | controllers/statesController.js:5-7 | two codes that differ only in letter case find the same record (or both find none) |
| `StatesCatalog.Filter` | controllers/statesController.js:14-18 | the filtered list is no longer than the catalog, and a record is in it if and only if it is in the catalog and the mode keeps it |
| `StatesCatalog.FilterAppend` | controllers/statesController.js:14-18 | filtering distributes over concatenation, so it keeps catalog order |
| `StatesCatalog.FilterPartition` | controllers/statesController.js:14-18 | the `'true'` list and the `'false'` list together are exactly as long as the catalog |
| `StatesCatalog.ContigTrue` | controllers/statesController.js:14-15 | `contig=true` keeps exactly the catalog records whose code is neither AK nor HI, in catalog order |
| `StatesCatalog.ContigFalse` | controllers/statesController.js:16-17 | `contig=false` keeps exactly the AK and HI records, in catalog order |
| `StatesCatalog.ContigOther` | controllers/statesController.js:11-18 | any other `contig` value, or none, keeps the whole catalog unchanged |
| `StatesCatalog.ContigFilter` | controllers/statesController.js:11-18 | the list `getAllStates` merges is no longer than the catalog, and holds exactly the catalog records the `contig` value selects |
| `StatesCatalog.MergeAll` | controllers/statesController.js:21-27 | the merged list has one entry per record in the same order; each entry has the record's static fields unchanged, plus the stored list, or `[]` when there is none |
| `StatesCatalog.AllStatesNonContiguous` | controllers/statesController.js:16-27 | every entry answered for `contig=false` is an AK or HI catalog record with its own stored facts |
| `StatesController.Resolve` | controllers/statesController.js:34-43 | a missing code gives 400 "State code required."; an unknown code gives 404 "Invalid state abbreviation parameter"; otherwise the result is the catalog record whose code is the parameter upper-cased |
| `StatesController.GetAllStates` | controllers/statesController.js:10-30 | `getAllStates` answers 200 with one entry per selected record, in catalog order: entry i is the i-th selected record, unchanged, with its stored facts or `[]`; every entry is a catalog record the `contig` value keeps |
| `StatesController.GetState` | controllers/statesController.js:33-54 | a missing code gives 400 and an unknown code 404; the answer is 200 exactly when the code finds a record, and then holds that record with its stored facts |
| `StatesController.GetFunFact` | controllers/statesController.js:57-82 | a missing code gives 400 and an unknown code 404; the answer is 200 exactly when the code finds a record with a non-empty list, and then the fact is one of the stored facts |
| `StatesController.GetCapital` | controllers/statesController.js:85-101 | a missing code gives 400 and an unknown code 404; the answer is 200 exactly when the code finds a record, and then names that state |
| `StatesController.GetNickname` | controllers/statesController.js:104-120 | a missing code gives 400 and an unknown code 404; the answer is 200 exactly when the code finds a record, and then names that state |
| `StatesController.GetPopulation` | controllers/statesController.js:123-139 | a missing code gives 400 and an unknown code 404; the answer is 200 exactly when the code finds a record, and then names that state |
| `StatesController.GetAdmission` | controllers/statesController.js:142-158 | a missing code gives 400 and an unknown code 404; the answer is 200 exactly when the code finds a record, and then names that state |
| `StatesController.RandomIndex` | controllers/statesController.js:79 | `floor(random * n)` lies in `[0, n)` for every random number in `[0, 1)` |
| `StatesController.SpliceOut` | controllers/statesController.js:287 | `splice(i, 1)` shortens the list by one, keeps the elements before `i` and shifts the elements after `i` down by one |
| `StatesController.Create` | controllers/statesController.js:161-203 | the status is 201, 400 or 404; every failure leaves the store unchanged; at most the upper-cased code's list changes; on 201 the body is the new document |
| `StatesController.Update` | controllers/statesController.js:206-249 | the status is 200, 400 or 404; every failure leaves the store unchanged; on 200 only the code's list changes, it keeps its length, and the body is the new document |
| `StatesController.Delete` | controllers/statesController.js:252-291 | the status is 200, 400 or 404; every failure leaves the store unchanged; on 200 only the code's list changes, it loses one element, and the body is the new document |
| `ControllerProperties.HandlersIgnoreCase` | controllers/statesController.js:38-39 | a code sent in any letter case gets the same response, and the same new store, from each of the nine handlers that take a code |
| `ControllerProperties.MissingCodeIs400` | controllers/statesController.js:162-164 | a missing or empty code gives 400 "State code required." from each of the nine handlers that take a code, with the store unchanged |
| `ControllerProperties.UnknownCodeIs404` | controllers/statesController.js:174-179 | a code the catalog lacks gets 404 "Invalid state abbreviation parameter" from every handler, and the store is unchanged |
| `ControllerProperties.GetStateMerges` | controllers/statesController.js:46-53 | `getState` answers 200 with the catalog record, unaltered, plus its stored list, or `[]` when there is none |
| `ControllerProperties.FieldGettersProject` | controllers/statesController.js:84-158 | capital, nickname, population and admission each answer 200 with the state name and that one static field of the record found |
| `ControllerProperties.RandomFunFactIsStored` | controllers/statesController.js:78-81 | for a state with a non-empty list, the random-fact answer is 200 and the fact is one of the stored facts |
| `ControllerProperties.RandomIndexReachesAll` | controllers/statesController.js:79 | every position of the list is picked by some random draw |
| `ControllerProperties.NoFactsIs404` | controllers/statesController.js:72-76 | with no list or an empty list, random-fact, update and delete answer 404 "No Fun Facts found for <name>" and leave the store unchanged |
| `ControllerProperties.MissingIndexBeforeLookup` | controllers/statesController.js:211-213 | an index that is absent or 0 is rejected with 400 "State fun fact index value required" by update and delete, whatever the catalog and the store hold |
| `ControllerProperties.UpdateValidationOrder` | controllers/statesController.js:207-217 | a missing code, then a missing or zero index, then a missing or empty fact each give 400, leave the store unchanged, and are decided before the catalog is consulted |
| `ControllerProperties.DeleteValidationOrder` | controllers/statesController.js:253-259 | a missing code, then a missing or zero index each give 400, leave the store unchanged, and are decided before the catalog is consulted |
| `ControllerProperties.CreateValidationOrder` | controllers/statesController.js:162-172 | a missing code, then a falsy payload ("value required"), then a non-array payload ("must be an array") each give 400, leave the store unchanged, and are decided before the catalog is consulted |
| `ControllerProperties.CreateAppends` | controllers/statesController.js:183-198 | a valid create answers 201; the code's list becomes the old list followed by the submitted facts, or exactly the submitted facts when there was none; no other code changes |
| `ControllerProperties.CreateEmptyIsNoOp` | controllers/statesController.js:188 | submitting an empty array for a state that has a list answers 201 and leaves the store unchanged |
| `ControllerProperties.OutOfRangeIs400` | controllers/statesController.js:236-242 | when `index-1 < 0` or `index-1 >= length`, update and delete answer 400 "No Fun Fact found at that index for <name>" and leave the store unchanged |
| `ControllerProperties.UpdateReplaces` | controllers/statesController.js:244-248 | an in-range update answers 200; the element at `index-1` becomes the new fact; the length and every other element are unchanged; no other code's list changes |
| `ControllerProperties.DeleteRemoves` | controllers/statesController.js:286-290 | an in-range delete answers 200; the list loses exactly the element at `index-1`, the elements before it stay and the elements after it shift down by one; no other code's list changes |
| `ControllerProperties.SpliceOutThenInsert` | controllers/statesController.js:287 | putting the removed element back at its position restores the list |
| `ControllerProperties.MutationsKeepKeysResolved` | controllers/statesController.js:174-196 | because every mutation looks the code up before writing, the store only ever holds lists under upper-case codes the catalog knows |
| `FactStores.FactStore.FindOne` | controllers/statesController.js:183 | the lookup returns the stored list exactly when a document exists for the code |
| `FactStores.FactStore.Append` | controllers/statesController.js:186-196 | an existing list gets the new facts appended; a missing one is created holding exactly them; no other document changes |
| `FactStores.FactStore.ReplaceAt` | controllers/statesController.js:245-246 | the stored list gets the new fact at the index and nothing else changes |
| `FactStores.FactStore.RemoveAt` | controllers/statesController.js:287-288 | the stored list loses the element at the index and nothing else changes |
| `Handlers.GetAllStates` | controllers/statesController.js:10-30 | the filter-then-merge loop answers 200 with the merged view of the filtered catalog, in catalog order |
| `Handlers.GetState` | controllers/statesController.js:33-54 | the step-by-step handler answers as `StatesController.GetState` |
| `Handlers.GetStateFunFact` | controllers/statesController.js:57-82 | the step-by-step handler answers as `StatesController.GetFunFact` |
| `Handlers.CreateStateFunFact` | controllers/statesController.js:161-203 | the step-by-step handler answers, and leaves the store, as `StatesController.Create` |
| `Handlers.UpdateStateFunFact` | controllers/statesController.js:206-249 | the step-by-step handler answers, and leaves the store, as `StatesController.Update` |
| `Handlers.DeleteStateFunFact` | controllers/statesController.js:252-291 | the step-by-step handler answers, and leaves the store, as `StatesController.Delete` |

## Left out

- Document store I/O (`State.findOne(...).exec()`, `save()`, `State.create`): these are reads and reassignments of the `docs` map. Persistence failures and the 500 "Server error" path of create are not modelled.
- The `Promise.all` fan-out of `getAllStates` is a sequential loop that keeps catalog order. Concurrency between requests and atomic read-modify-write are not modelled.
- `Math.random()`: the random number is passed in as a fraction `num / den` with `num < den`.
- `population.toLocaleString()`: the population getter answers with the raw number, because the formatting depends on the locale.
- Loading the states data file: the catalog is a parameter of every operation.
- `toUpperCase` is modelled on ASCII letters only. Full Unicode case mapping is not modelled. Some non-ASCII letters upper-case onto ASCII catalog codes: `'ı'` (U+0131) becomes `I` and `'ſ'` (U+017F) becomes `S`. So the source answers `ıa` with Iowa and `ſc` with South Carolina, where the model answers 404. Other mappings change a string's length.
- The `index` body field is an integer or absent. JavaScript coercion of non-integer or non-numeric values (strings, fractions, `NaN`) by `index - 1` is not modelled.
- The `funfacts` array elements and the `funfact` field are strings. The store schema's casting of other JSON values is not modelled.
- Response bodies of the mutations carry the state code and the list. Other document fields (`_id`, `__v`) are not modelled.
- `server.js` (server bootstrap, CORS, static files, logging) and `routes/api/states.js` (a routing table that only dispatches to the handlers) are not part of this model.
