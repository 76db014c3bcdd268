/**
  Case memory: two parallel lists, `documents` and `metadata`, next to a
  vector index. Embedding and nearest-neighbour search are oracles: `encode`
  may fail (an embedding model that is not there), and `search` returns the
  integer labels a FAISS index returns.
*/
module Memory {
  import opened Wrappers
  import opened Values

  type Vector = seq<real>

  /** What `add_to_memory` stores: `text.content` when the value has one, else the value itself. */
  function Content(text: Value): Value
  {
    if text.Message? then Str(text.content) else text
  }

  /** The metadata entry `{"source": source, "tags": tags}`. */
  function MetaEntry(source: string, tags: seq<(string, Value)>): Value
  {
    Dict([("source", Str(source)), ("tags", Dict(tags))])
  }

  datatype MemState = MemState(documents: seq<Value>, metadata: seq<Value>, index: seq<Vector>)

  /** `len(documents) == len(metadata)`. */
  predicate Parallel(m: MemState)
  {
    |m.documents| == |m.metadata|
  }

  /** The index holds one vector per document. */
  predicate Indexed(m: MemState)
  {
    |m.index| == |m.documents|
  }

  /** `add_to_memory(text, source, tags)`: encode, add the vector, then append to both lists. */
  function AddSpec(m: MemState, text: Value, source: string, tags: seq<(string, Value)>,
                   encode: Value -> Option<Vector>): Result<MemState>
  {
    var doc := Content(text);
    match encode(doc)
    case None => Err("AttributeError: the embedding model cannot encode")
    case Some(v) => Ok(MemState(m.documents + [doc], m.metadata + [MetaEntry(source, tags)], m.index + [v]))
  }

  /**
    A successful add appends exactly one document, one metadata entry and one
    vector and leaves every earlier entry as it was; a failed encoding
    changes nothing, because it happens before anything is appended.
  */
  lemma AddAppendsOne(m: MemState, text: Value, source: string, tags: seq<(string, Value)>,
                      encode: Value -> Option<Vector>)
    ensures AddSpec(m, text, source, tags, encode).Err? <==> encode(Content(text)).None?
    ensures AddSpec(m, text, source, tags, encode).Ok? ==>
      var m' := AddSpec(m, text, source, tags, encode).value;
      |m'.documents| == |m.documents| + 1 && m'.documents[..|m.documents|] == m.documents &&
      |m'.metadata| == |m.metadata| + 1 && m'.metadata[..|m.metadata|] == m.metadata &&
      |m'.index| == |m.index| + 1 && m'.index[..|m.index|] == m.index &&
      m'.documents[|m.documents|] == Content(text) &&
      m'.metadata[|m.metadata|] == MetaEntry(source, tags)
  {
    if encode(Content(text)).Some? {
      var m' := AddSpec(m, text, source, tags, encode).value;
      assert m'.documents[..|m.documents|] == m.documents;
      assert m'.metadata[..|m.metadata|] == m.metadata;
      assert m'.index[..|m.index|] == m.index;
    }
  }

  /** Adding keeps the lists parallel and the index in step with them. */
  lemma AddKeepsInvariants(m: MemState, text: Value, source: string, tags: seq<(string, Value)>,
                           encode: Value -> Option<Vector>)
    requires AddSpec(m, text, source, tags, encode).Ok?
    ensures Parallel(AddSpec(m, text, source, tags, encode).value) <==> Parallel(m)
    ensures Indexed(AddSpec(m, text, source, tags, encode).value) <==> Indexed(m)
  {
  }

  /** A reply's stored document is its text. */
  lemma ContentOfMessage(c: string, rendered: string, dump: seq<(string, Value)>)
    ensures Content(Message(c, rendered, dump)) == Str(c)
    ensures Content(Str(c)) == Str(c)
  {
  }

  // ---------------------------------------------------------------------
  // retrieve_context
  // ---------------------------------------------------------------------

  /** One result, `{"text": documents[i], "metadata": metadata[i]}`. */
  datatype Hit = Hit(text: Value, meta: Value)

  /** Python's `s[i]`: negative indices count from the end; out of range raises. */
  function PyIndex<T>(s: seq<T>, i: int): (r: Option<T>)
    ensures r.Some? <==> -|s| <= i < |s|
    ensures r.Some? ==> r.value == s[if i < 0 then |s| + i else i]
  {
    if 0 <= i < |s| then Some(s[i])
    else if -|s| <= i < 0 then Some(s[|s| + i])
    else None
  }

  /**
    The result comprehension as written: `[... for i in labels if i < len(documents)]`.
    FAISS pads its labels with -1 when the index holds fewer than k vectors,
    and -1 passes this filter.
  */
  function RetrieveAsWritten(docs: seq<Value>, metas: seq<Value>, labels: seq<int>): Result<seq<Hit>>
    decreases |labels|
  {
    if labels == [] then Ok([])
    else
      var i := labels[0];
      if !(i < |docs|) then RetrieveAsWritten(docs, metas, labels[1..])
      else match (PyIndex(docs, i), PyIndex(metas, i))
        case (Some(d), Some(md)) =>
          (match RetrieveAsWritten(docs, metas, labels[1..])
           case Ok(rest) => Ok([Hit(d, md)] + rest)
           case Err(e) => Err(e))
        case _ => Err("IndexError: list index out of range")
  }

  /** Where Python's `documents[i]` reads, for an `i` with `-n <= i < n`. */
  function PyPos(i: int, n: nat): int
  {
    if i < 0 then n + i else i
  }

  /** Every label the filter keeps (`i < n`) is one Python can index with (`-n <= i`). */
  predicate Indexable(labels: seq<int>, n: nat)
  {
    forall j :: 0 <= j < |labels| ==> labels[j] < n ==> -(n as int) <= labels[j]
  }

  /** The positions the comprehension as written reads, in search order. */
  function KeptPositions(labels: seq<int>, n: nat): (ps: seq<nat>)
    ensures forall j :: 0 <= j < |ps| ==> ps[j] < n
    decreases |labels|
  {
    if labels == [] then []
    else if -(n as int) <= labels[0] < n then [PyPos(labels[0], n) as nat] + KeptPositions(labels[1..], n)
    else KeptPositions(labels[1..], n)
  }

  /**
    On parallel lists the comprehension as written raises exactly when it
    keeps a label below `-len(documents)`; otherwise it returns the pairs at
    the positions Python reads, a negative label counting from the end.
  */
  lemma {:induction false} RetrieveAsWrittenSelects(docs: seq<Value>, metas: seq<Value>, labels: seq<int>)
    requires |docs| == |metas|
    ensures RetrieveAsWritten(docs, metas, labels).Ok? <==> Indexable(labels, |docs|)
    ensures Indexable(labels, |docs|) ==>
      RetrieveAsWritten(docs, metas, labels) == Ok(HitsAt(docs, metas, KeptPositions(labels, |docs|)))
    decreases |labels|
  {
    if labels != [] {
      RetrieveAsWrittenSelects(docs, metas, labels[1..]);
      var n := |docs|;
      assert forall j :: 1 <= j < |labels| ==> labels[j] == labels[1..][j - 1];
      assert Indexable(labels, n) <==> (labels[0] < n ==> -(n as int) <= labels[0]) && Indexable(labels[1..], n);
      if -n <= labels[0] < n {
        assert KeptPositions(labels, n)[1..] == KeptPositions(labels[1..], n);
      }
    }
  }

  /** When every label can be indexed, the filter keeps them all and reads each at its Python position. */
  lemma {:induction false} KeptPositionsAll(labels: seq<int>, n: nat)
    requires forall j :: 0 <= j < |labels| ==> -(n as int) <= labels[j] < n
    ensures |KeptPositions(labels, n)| == |labels|
    ensures forall j :: 0 <= j < |labels| ==> KeptPositions(labels, n)[j] == PyPos(labels[j], n)
    decreases |labels|
  {
    if labels != [] {
      KeptPositionsAll(labels[1..], n);
      assert forall j :: 1 <= j < |labels| ==> labels[j] == labels[1..][j - 1];
    }
  }

  /** The filter as intended: only labels that name a stored document, `0 <= i < len(documents)`. */
  function Retrieve(docs: seq<Value>, metas: seq<Value>, labels: seq<int>): Result<seq<Hit>>
    decreases |labels|
  {
    if labels == [] then Ok([])
    else
      var i := labels[0];
      if !(0 <= i < |docs|) then Retrieve(docs, metas, labels[1..])
      else if i >= |metas| then Err("IndexError: list index out of range")
      else
        match Retrieve(docs, metas, labels[1..])
        case Ok(rest) => Ok([Hit(docs[i], metas[i])] + rest)
        case Err(e) => Err(e)
  }

  /** The labels that name a stored document, in search order. */
  function ValidLabels(labels: seq<int>, n: nat): (ls: seq<nat>)
    ensures forall j :: 0 <= j < |ls| ==> ls[j] < n
    ensures |ls| <= |labels|
    decreases |labels|
  {
    if labels == [] then []
    else if 0 <= labels[0] < n then [labels[0] as nat] + ValidLabels(labels[1..], n)
    else ValidLabels(labels[1..], n)
  }

  /** The results for a list of positions. */
  function HitsAt(docs: seq<Value>, metas: seq<Value>, ls: seq<nat>): (hits: seq<Hit>)
    requires forall j :: 0 <= j < |ls| ==> ls[j] < |docs| && ls[j] < |metas|
    ensures |hits| == |ls|
    ensures forall j :: 0 <= j < |ls| ==> hits[j] == Hit(docs[ls[j]], metas[ls[j]])
  {
    if ls == [] then [] else [Hit(docs[ls[0]], metas[ls[0]])] + HitsAt(docs, metas, ls[1..])
  }

  /**
    On parallel lists the corrected lookup never raises, and its results are
    exactly the pairs `documents[i]`, `metadata[i]` for the valid labels, in
    the order the search returned them.
  */
  lemma {:induction false} RetrieveSelects(docs: seq<Value>, metas: seq<Value>, labels: seq<int>)
    requires |docs| == |metas|
    ensures Retrieve(docs, metas, labels) == Ok(HitsAt(docs, metas, ValidLabels(labels, |docs|)))
    decreases |labels|
  {
    if labels != [] {
      RetrieveSelects(docs, metas, labels[1..]);
      var ls := ValidLabels(labels, |docs|);
      if 0 <= labels[0] < |docs| {
        assert ls[1..] == ValidLabels(labels[1..], |docs|);
      }
    }
  }

  /** There are never more results than labels. */
  lemma {:induction false} RetrieveAtMostLabels(docs: seq<Value>, metas: seq<Value>, labels: seq<int>)
    requires Retrieve(docs, metas, labels).Ok?
    ensures |Retrieve(docs, metas, labels).value| <= |labels|
    decreases |labels|
  {
    if labels != [] {
      RetrieveAtMostLabels(docs, metas, labels[1..]);
    }
  }

  /** What a FAISS index of n vectors returns for k neighbours: min(k, n) distinct labels, then -1s. */
  predicate FaissLabels(labels: seq<int>, n: nat, k: nat)
  {
    |labels| == k &&
    (forall j :: 0 <= j < |labels| ==> (j < n ==> 0 <= labels[j] < n) && (j >= n ==> labels[j] == -1))
  }

  lemma {:induction false} ValidLabelsOfFaiss(labels: seq<int>, n: nat, k: nat)
    requires FaissLabels(labels, n, k)
    ensures |ValidLabels(labels, n)| == if k < n then k else n
    decreases k
  {
    if k > 0 {
      var last := labels[k - 1];
      ValidLabelsOfFaiss(labels[..k - 1], n, k - 1);
      ValidLabelsSnoc(labels[..k - 1], last, n);
      assert labels == labels[..k - 1] + [last];
    }
  }

  lemma {:induction false} ValidLabelsSnoc(labels: seq<int>, x: int, n: nat)
    ensures ValidLabels(labels + [x], n) == ValidLabels(labels, n) + (if 0 <= x < n then [x as nat] else [])
    decreases |labels|
  {
    if labels == [] {
      assert [x][1..] == [];
    } else {
      assert (labels + [x])[1..] == labels[1..] + [x];
      ValidLabelsSnoc(labels[1..], x, n);
    }
  }

  /** With FAISS-shaped labels and parallel lists the corrected lookup returns min(k, n) results. */
  lemma RetrieveFaissCount(docs: seq<Value>, metas: seq<Value>, labels: seq<int>, k: nat)
    requires |docs| == |metas| && FaissLabels(labels, |docs|, k)
    ensures Retrieve(docs, metas, labels).Ok?
    ensures |Retrieve(docs, metas, labels).value| == if k < |docs| then k else |docs|
  {
    RetrieveSelects(docs, metas, labels);
    ValidLabelsOfFaiss(labels, |docs|, k);
  }

  /**
    What the code as written returns for FAISS labels: nothing raises once
    memory holds a document, and then all k labels give a result, the
    first min(k, n) the documents found and the rest copies of the last
    document; on an empty memory any search for k > 0 raises IndexError.
  */
  lemma RetrieveAsWrittenFaiss(docs: seq<Value>, metas: seq<Value>, labels: seq<int>, k: nat)
    requires |docs| == |metas| && FaissLabels(labels, |docs|, k)
    ensures RetrieveAsWritten(docs, metas, labels).Ok? <==> |docs| > 0 || k == 0
    ensures |docs| > 0 ==>
      var hits := RetrieveAsWritten(docs, metas, labels).value;
      var n := |docs|;
      |hits| == k &&
      (forall j :: 0 <= j < k && j < n ==> hits[j] == Hit(docs[labels[j]], metas[labels[j]])) &&
      (forall j :: n <= j < k ==> hits[j] == Hit(docs[n - 1], metas[n - 1]))
  {
    var n := |docs|;
    RetrieveAsWrittenSelects(docs, metas, labels);
    if n == 0 && k > 0 {
      assert labels[0] == -1;
      assert !Indexable(labels, n);
    }
    if n > 0 {
      KeptPositionsAll(labels, n);
    }
  }

  /** Where every label names a stored document, the comprehension as written and the corrected one agree. */
  lemma {:induction false} RetrieveAsWrittenAgrees(docs: seq<Value>, metas: seq<Value>, labels: seq<int>)
    requires |docs| == |metas|
    requires forall j :: 0 <= j < |labels| ==> labels[j] >= 0
    ensures RetrieveAsWritten(docs, metas, labels) == Retrieve(docs, metas, labels)
    decreases |labels|
  {
    if labels != [] {
      RetrieveAsWrittenAgrees(docs, metas, labels[1..]);
    }
  }

  /**
    One stored document and k = 3: FAISS answers [0, -1, -1], and the
    comprehension as written returns the document three times (`documents[-1]`
    is the last document); the corrected filter returns it once.
  */
  lemma RetrievePaddingRepeatsLast(d: Value, md: Value)
    ensures RetrieveAsWritten([d], [md], [0, -1, -1]) == Ok([Hit(d, md), Hit(d, md), Hit(d, md)])
    ensures Retrieve([d], [md], [0, -1, -1]) == Ok([Hit(d, md)])
    ensures FaissLabels([0, -1, -1], 1, 3)
  {
    assert [0, -1, -1][1..] == [-1, -1];
    assert [-1, -1][1..] == [-1];
    assert [-1][1..] == [];
    assert [Hit(d, md)] + [] == [Hit(d, md)];
    assert RetrieveAsWritten([d], [md], [-1]) == Ok([Hit(d, md)]);
    assert [Hit(d, md)] + [Hit(d, md)] == [Hit(d, md), Hit(d, md)];
    assert RetrieveAsWritten([d], [md], [-1, -1]) == Ok([Hit(d, md), Hit(d, md)]);
    assert [Hit(d, md)] + [Hit(d, md), Hit(d, md)] == [Hit(d, md), Hit(d, md), Hit(d, md)];
    assert Retrieve([d], [md], [-1]) == Ok([]);
    assert Retrieve([d], [md], [-1, -1]) == Ok([]);
  }

  /** Empty memory: FAISS answers [-1, -1, -1], and the comprehension as written raises IndexError. */
  lemma RetrieveEmptyMemoryRaises()
    ensures RetrieveAsWritten([], [], [-1, -1, -1]).Err?
    ensures Retrieve([], [], [-1, -1, -1]) == Ok([])
    ensures FaissLabels([-1, -1, -1], 0, 3)
  {
    assert [-1, -1, -1][1..] == [-1, -1];
    assert [-1, -1][1..] == [-1];
    assert [-1][1..] == [];
  }

  /** `retrieve_context(query, k)`: encode the query, search the index, and filter the labels as the code does. */
  function RetrieveSpec(m: MemState, query: Value, k: nat, encode: Value -> Option<Vector>,
                        search: (seq<Vector>, Vector, nat) -> seq<int>): Result<seq<Hit>>
  {
    match encode(query)
    case None => Err("AttributeError: the embedding model cannot encode")
    case Some(q) => RetrieveAsWritten(m.documents, m.metadata, search(m.index, q, k))
  }

  /** Results found so far, followed by the outcome of the rest of the scan. */
  function After(hits: seq<Hit>, rest: Result<seq<Hit>>): (r: Result<seq<Hit>>)
    ensures rest.Err? ==> r == rest
    ensures rest.Ok? ==> r == Ok(hits + rest.value)
  {
    match rest
    case Ok(more) => Ok(hits + more)
    case Err(e) => Err(e)
  }

  /** One step of the scan over the labels. */
  lemma RetrieveStep(docs: seq<Value>, metas: seq<Value>, labels: seq<int>, j: nat)
    requires j < |labels|
    ensures var i := labels[j];
      RetrieveAsWritten(docs, metas, labels[j..]) ==
        if !(i < |docs|) then RetrieveAsWritten(docs, metas, labels[j + 1..])
        else if PyIndex(docs, i).None? || PyIndex(metas, i).None? then Err("IndexError: list index out of range")
        else After([Hit(PyIndex(docs, i).value, PyIndex(metas, i).value)], RetrieveAsWritten(docs, metas, labels[j + 1..]))
  {
    assert labels[j..][1..] == labels[j + 1..];
  }

  lemma AfterAfter(hits: seq<Hit>, h: Hit, rest: Result<seq<Hit>>)
    ensures After(hits, After([h], rest)) == After(hits + [h], rest)
  {
    if rest.Ok? {
      assert hits + ([h] + rest.value) == (hits + [h]) + rest.value;
    }
  }

  /** The texts of the results, in order. */
  function HitTexts(hits: seq<Hit>): (ts: seq<Value>)
    ensures |ts| == |hits| && forall j :: 0 <= j < |hits| ==> ts[j] == hits[j].text
  {
    if hits == [] then [] else [hits[0].text] + HitTexts(hits[1..])
  }

  // ---------------------------------------------------------------------
  // save_memory / load_memory
  // ---------------------------------------------------------------------

  /** What `save_memory` writes: the index and the pickled pair of lists. */
  datatype Snapshot = Snapshot(documents: seq<Value>, metadata: seq<Value>, index: seq<Vector>)

  function SaveSpec(m: MemState): Snapshot
  {
    Snapshot(m.documents, m.metadata, m.index)
  }

  /** `load_memory`: rebinds both lists to the pickled pair; the index is not read back. */
  function LoadSpec(m: MemState, snap: Snapshot): MemState
  {
    MemState(snap.documents, snap.metadata, m.index)
  }

  /**
    Loading keeps the lists parallel exactly when the snapshot's lists are,
    leaves the index alone, and restores the lists that were saved.
  */
  lemma LoadReplacesLists(m: MemState, snap: Snapshot)
    ensures Parallel(LoadSpec(m, snap)) <==> |snap.documents| == |snap.metadata|
    ensures LoadSpec(m, snap).index == m.index
    ensures LoadSpec(m, SaveSpec(m)) == m
  {
  }

  /** Loading a snapshot of another size breaks the pairing of the index with the documents. */
  lemma LoadCanBreakIndexed(m: MemState, snap: Snapshot)
    requires Indexed(m) && |snap.documents| != |m.documents|
    ensures !Indexed(LoadSpec(m, snap))
  {
  }

  /** Restoring a snapshot saved earlier brings back its lists next to the current index. */
  lemma SaveLoadRoundTrip(m1: MemState, m2: MemState)
    ensures LoadSpec(m2, SaveSpec(m1)) == MemState(m1.documents, m1.metadata, m2.index)
    ensures Indexed(LoadSpec(m2, SaveSpec(m1))) <==> |m2.index| == |m1.documents|
  {
  }

  /** The module-level memory: `documents`, `metadata` and the index they sit beside. */
  class CaseMemory {
    var documents: seq<Value>
    var metadata: seq<Value>
    var index: seq<Vector>
    /** `embedding_model.encode`; `None` when it raises. */
    const encode: Value -> Option<Vector>
    /** `index.search(vector, k)`: the labels of the k nearest vectors. */
    const search: (seq<Vector>, Vector, nat) -> seq<int>

    constructor (encode: Value -> Option<Vector>, search: (seq<Vector>, Vector, nat) -> seq<int>)
      ensures State() == MemState([], [], [])
      ensures this.encode == encode && this.search == search
    {
      documents := [];
      metadata := [];
      index := [];
      this.encode := encode;
      this.search := search;
    }

    function State(): MemState
      reads this
    {
      MemState(documents, metadata, index)
    }

    /** `add_to_memory(text, source, tags)`. */
    method Add(text: Value, source: string, tags: seq<(string, Value)>) returns (status: Status)
      modifies this
      ensures match AddSpec(old(State()), text, source, tags, encode)
              case Err(e) => status == Failed(e) && State() == old(State())
              case Ok(m) => status == Done && State() == m
    {
      var doc := Content(text);
      var vector := encode(doc);
      if vector.None? {
        return Failed("AttributeError: the embedding model cannot encode");
      }
      index := index + [vector.value];
      documents := documents + [doc];
      metadata := metadata + [MetaEntry(source, tags)];
      status := Done;
    }

    /** `retrieve_context(query, k)`: a filter over the labels the search returns. */
    method RetrieveContext(query: Value, k: nat) returns (r: Result<seq<Hit>>)
      ensures r == RetrieveSpec(State(), query, k, encode, search)
    {
      var q := encode(query);
      if q.None? {
        return Err("AttributeError: the embedding model cannot encode");
      }
      var labels := search(index, q.value, k);
      var hits: seq<Hit> := [];
      var j := 0;
      assert labels[0..] == labels;
      match RetrieveAsWritten(documents, metadata, labels) {
        case Ok(all) => assert [] + all == all;
        case Err(_) =>
      }
      while j < |labels|
        invariant 0 <= j <= |labels|
        invariant RetrieveAsWritten(documents, metadata, labels) == After(hits, RetrieveAsWritten(documents, metadata, labels[j..]))
      {
        var i := labels[j];
        RetrieveStep(documents, metadata, labels, j);
        if i < |documents| {
          var d := PyIndex(documents, i);
          var md := PyIndex(metadata, i);
          if d.None? || md.None? {
            return Err("IndexError: list index out of range");
          }
          AfterAfter(hits, Hit(d.value, md.value), RetrieveAsWritten(documents, metadata, labels[j + 1..]));
          hits := hits + [Hit(d.value, md.value)];
        }
        j := j + 1;
      }
      assert labels[j..] == [];
      assert hits + [] == hits;
      r := Ok(hits);
    }

    /** `save_memory`: the snapshot it writes (the file writes themselves are not modelled). */
    method Save() returns (snap: Snapshot)
      ensures snap == SaveSpec(State())
    {
      snap := Snapshot(documents, metadata, index);
    }

    /** `load_memory`: rebind both lists to the snapshot's. */
    method Load(snap: Snapshot)
      modifies this
      ensures State() == LoadSpec(old(State()), snap)
    {
      documents, metadata := snap.documents, snap.metadata;
    }
  }
}
