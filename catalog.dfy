/**
  The static reference catalog of U.S. states and the pure lookups over it:
  case-insensitive lookup by code, the `contig` filter, and the merge of a
  static record with the stored fun-fact list.
*/
module StatesCatalog {
  import opened Wrappers

  /** One record of the static states data file. */
  datatype StateRecord = StateRecord(
    code: string,
    state: string,
    capitalCity: string,
    nickname: string,
    population: nat,
    admissionDate: string)

  /** The fact store's contents: state code to its ordered fun-fact list. */
  type Docs = map<string, seq<string>>

  // ---------------------------------------------------------------------
  // Upper-case normalisation
  // ---------------------------------------------------------------------

  predicate IsLower(c: char) { 'a' <= c <= 'z' }

  /** Upper-case one character (ASCII letters only). */
  function UpperChar(c: char): (u: char)
    ensures !IsLower(u)
    ensures IsLower(c) ==> u as int == c as int - 32
    ensures !IsLower(c) ==> u == c
  {
    if IsLower(c) then (c as int - 32) as char else c
  }

  /** `String.prototype.toUpperCase`, on ASCII letters. */
  function UpperCase(s: string): (r: string)
    ensures |r| == |s|
    ensures forall i :: 0 <= i < |s| ==> r[i] == UpperChar(s[i])
  {
    if s == [] then [] else [UpperChar(s[0])] + UpperCase(s[1..])
  }

  /** Upper-casing an upper-cased code changes nothing. */
  lemma UpperCaseIdempotent(s: string)
    ensures UpperCase(UpperCase(s)) == UpperCase(s)
  {
  }

  // ---------------------------------------------------------------------
  // Lookup
  // ---------------------------------------------------------------------

  /** `Array.prototype.find` on the code field: the first record whose code is `key`. */
  function FindCode(catalog: seq<StateRecord>, key: string): (r: Option<StateRecord>)
    ensures r.Some? ==> r.value in catalog && r.value.code == key
    ensures r.None? <==> forall i :: 0 <= i < |catalog| ==> catalog[i].code != key
    ensures r.Some? ==> exists i :: 0 <= i < |catalog| && catalog[i] == r.value &&
                          forall j :: 0 <= j < i ==> catalog[j].code != key
  {
    if catalog == [] then None
    else if catalog[0].code == key then Some(catalog[0])
    else
      var r := FindCode(catalog[1..], key);
      if r.Some? then
        ghost var i :| 0 <= i < |catalog[1..]| && catalog[1..][i] == r.value &&
                       forall j :: 0 <= j < i ==> catalog[1..][j].code != key;
        assert catalog[i + 1] == r.value;
        r
      else r
  }

  /** `findState`: look a code up after upper-casing it. */
  function FindState(catalog: seq<StateRecord>, code: string): (r: Option<StateRecord>)
    ensures r.Some? ==> r.value in catalog && r.value.code == UpperCase(code)
    ensures r.None? <==> forall i :: 0 <= i < |catalog| ==> catalog[i].code != UpperCase(code)
  {
    FindCode(catalog, UpperCase(code))
  }

  /** The catalog holds at most one record per code. */
  ghost predicate UniqueCodes(catalog: seq<StateRecord>)
  {
    forall i, j :: 0 <= i < j < |catalog| ==> catalog[i].code != catalog[j].code
  }

  /**
    With one record per code, `findState(c)` is exactly the record whose code
    is `c` upper-cased, and nothing when there is no such record.
  */
  lemma FindStateExact(catalog: seq<StateRecord>, code: string, rec: StateRecord)
    requires UniqueCodes(catalog)
    ensures FindState(catalog, code) == Some(rec) <==> rec in catalog && rec.code == UpperCase(code)
  {
  }

  /**
    Handlers upper-case the code and then call `findState`, which upper-cases
    it again: the lookup is the same as on the raw code.
  */
  lemma FindStateOfUpper(catalog: seq<StateRecord>, code: string)
    ensures FindState(catalog, UpperCase(code)) == FindState(catalog, code)
  {
  }

  /** The lookup does not see letter case: "ca" and "CA" find the same record. */
  lemma FindStateCaseInsensitive(catalog: seq<StateRecord>, a: string, b: string)
    requires |a| == |b|
    requires forall i :: 0 <= i < |a| ==> UpperChar(a[i]) == UpperChar(b[i])
    ensures FindState(catalog, a) == FindState(catalog, b)
  {
  }

  // ---------------------------------------------------------------------
  // The contig filter
  // ---------------------------------------------------------------------

  /** The two states outside the contiguous mainland. */
  predicate IsNonContiguous(code: string)
  {
    code == "AK" || code == "HI"
  }

  /** What the `contig` query parameter selects. */
  datatype ContigMode = AllStates | MainlandOnly | NonMainlandOnly

  /** `'true'` keeps the mainland, `'false'` the two others, anything else (or nothing) all. */
  function ContigModeOf(contig: Option<string>): ContigMode
  {
    if contig == Some("true") then MainlandOnly
    else if contig == Some("false") then NonMainlandOnly
    else AllStates
  }

  predicate Keeps(mode: ContigMode, rec: StateRecord)
  {
    match mode
    case AllStates => true
    case MainlandOnly => !IsNonContiguous(rec.code)
    case NonMainlandOnly => IsNonContiguous(rec.code)
  }

  /** `Array.prototype.filter` with the predicate the mode selects. */
  function Filter(s: seq<StateRecord>, mode: ContigMode): (r: seq<StateRecord>)
    ensures |r| <= |s|
    ensures forall x :: x in r <==> x in s && Keeps(mode, x)
  {
    if s == [] then []
    else if Keeps(mode, s[0]) then [s[0]] + Filter(s[1..], mode)
    else
      assert s == [s[0]] + s[1..];
      Filter(s[1..], mode)
  }

  /** The catalog list that `getAllStates` merges, given the raw query parameter. */
  function ContigFilter(catalog: seq<StateRecord>, contig: Option<string>): (r: seq<StateRecord>)
    ensures |r| <= |catalog|
    ensures forall x :: x in r <==> x in catalog && Keeps(ContigModeOf(contig), x)
  {
    match ContigModeOf(contig)
    case AllStates => catalog
    case mode => Filter(catalog, mode)
  }

  /** Filtering keeps catalog order: it distributes over concatenation. */
  lemma {:induction false} FilterAppend(a: seq<StateRecord>, b: seq<StateRecord>, mode: ContigMode)
    ensures Filter(a + b, mode) == Filter(a, mode) + Filter(b, mode)
  {
    if a == [] {
      assert a + b == b;
    } else {
      assert (a + b)[1..] == a[1..] + b;
      FilterAppend(a[1..], b, mode);
    }
  }

  /** The mainland list and the non-mainland list together are as long as the catalog. */
  lemma {:induction false} FilterPartition(s: seq<StateRecord>)
    ensures |Filter(s, MainlandOnly)| + |Filter(s, NonMainlandOnly)| == |s|
  {
    if s != [] {
      FilterPartition(s[1..]);
    }
  }

  /** `contig=true` keeps every record but AK and HI, in catalog order. */
  lemma ContigTrue(catalog: seq<StateRecord>)
    ensures ContigFilter(catalog, Some("true")) == Filter(catalog, MainlandOnly)
    ensures forall x :: x in ContigFilter(catalog, Some("true")) <==>
                        x in catalog && x.code != "AK" && x.code != "HI"
  {
  }

  /** `contig=false` keeps exactly the AK and HI records, in catalog order. */
  lemma ContigFalse(catalog: seq<StateRecord>)
    ensures ContigFilter(catalog, Some("false")) == Filter(catalog, NonMainlandOnly)
    ensures forall x :: x in ContigFilter(catalog, Some("false")) <==>
                        x in catalog && (x.code == "AK" || x.code == "HI")
  {
  }

  /** Any other value of `contig`, or none, keeps the whole catalog. */
  lemma ContigOther(catalog: seq<StateRecord>, contig: Option<string>)
    requires contig != Some("true") && contig != Some("false")
    ensures ContigFilter(catalog, contig) == catalog
  {
  }

  // ---------------------------------------------------------------------
  // Merge of static record and stored facts
  // ---------------------------------------------------------------------

  /** `stateInDb?.funfacts || []`: the stored list, or the empty list. */
  function StoredFacts(docs: Docs, code: string): seq<string>
  {
    if code in docs then docs[code] else []
  }

  /** `{ ...state, funfacts }`: the static fields, untouched, plus the fact list. */
  datatype MergedState = MergedState(record: StateRecord, funfacts: seq<string>)

  function Merge(rec: StateRecord, docs: Docs): MergedState
  {
    MergedState(rec, StoredFacts(docs, rec.code))
  }

  /** The order-preserving map of `Merge` over a list of records. */
  function MergeAll(records: seq<StateRecord>, docs: Docs): (r: seq<MergedState>)
    ensures |r| == |records|
    ensures forall i :: 0 <= i < |records| ==>
              r[i] == Merge(records[i], docs)
  {
    if records == [] then [] else [Merge(records[0], docs)] + MergeAll(records[1..], docs)
  }

  /** The view `getAllStates` answers with. */
  function AllStatesView(catalog: seq<StateRecord>, docs: Docs, contig: Option<string>): seq<MergedState>
  {
    MergeAll(ContigFilter(catalog, contig), docs)
  }

  /**
    `contig=false` answers with the AK and HI records only, each with its stored
    facts (or none), and leaves the static fields as they are.
  */
  lemma AllStatesNonContiguous(catalog: seq<StateRecord>, docs: Docs)
    ensures forall m :: m in AllStatesView(catalog, docs, Some("false")) ==>
              m.record in catalog && IsNonContiguous(m.record.code) &&
              m.funfacts == StoredFacts(docs, m.record.code)
  {
  }
}
