/**
  The fun-fact collection: one list of facts per state code. Reads and writes
  of the document store are reads and reassignments of the `docs` map.
*/
module FactStores {
  import opened Wrappers
  import opened StatesCatalog
  import opened StatesController

  class FactStore {
    /** Each stored document's `funfacts`, keyed by its `stateCode`. */
    var docs: Docs

    constructor (initial: Docs)
      ensures docs == initial
    {
      docs := initial;
    }

    /** `State.findOne({ stateCode: code })`: the stored list, if there is a document. */
    method FindOne(code: string) returns (facts: Option<seq<string>>)
      ensures facts.Some? <==> code in docs
      ensures facts.Some? ==> facts.value == docs[code]
    {
      if code in docs {
        facts := Some(docs[code]);
      } else {
        facts := None;
      }
    }

    /**
      Append to an existing document's list, or create the document with
      exactly the given facts; every other document is untouched.
    */
    method Append(code: string, items: seq<string>)
      modifies this
      ensures docs == old(docs)[code := StoredFacts(old(docs), code) + items]
      ensures docs.Keys == old(docs.Keys) + {code}
    {
      if code in docs {
        docs := docs[code := docs[code] + items];
      } else {
        assert [] + items == items;
        docs := docs[code := items];
      }
    }

    /** `funfacts[i] = fact` on a stored document, then save. */
    method ReplaceAt(code: string, i: nat, fact: string)
      requires code in docs && i < |docs[code]|
      modifies this
      ensures docs == old(docs)[code := old(docs)[code][i := fact]]
      ensures docs.Keys == old(docs.Keys) && |docs[code]| == |old(docs)[code]|
    {
      var facts := docs[code];
      facts := facts[i := fact];
      docs := docs[code := facts];
    }

    /** `funfacts.splice(i, 1)` on a stored document, then save. */
    method RemoveAt(code: string, i: nat)
      requires code in docs && i < |docs[code]|
      modifies this
      ensures docs == old(docs)[code := SpliceOut(old(docs)[code], i)]
      ensures docs.Keys == old(docs.Keys) && |docs[code]| == |old(docs)[code]| - 1
    {
      docs := docs[code := SpliceOut(docs[code], i)];
    }
  }
}
