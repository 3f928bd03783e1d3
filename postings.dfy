/**
 The in-memory accumulator of the SPIMI block builder: a dictionary from
 term to postings list, where a postings list is a list of
 `(track_id, tf)` pairs, and the update applied for one token.
 */
module Postings {
  import opened Terms

  type DocId = string

  /** One `(track_id, tf)` pair of a postings list. */
  datatype Posting = Posting(doc: DocId, tf: int)

  type PostingsList = seq<Posting>

  /**
   A Python dict from term to postings list. `keys` is its insertion order,
   which is the order `dictionary.keys()` yields; `lists` its entries.
   */
  datatype Dict = Dict(keys: seq<Term>, lists: map<Term, PostingsList>)

  /** The empty dict `{}`. */
  const Empty: Dict := Dict([], map[])

  /** Every key is listed once in insertion order, and only keys are listed. */
  ghost predicate ValidDict(d: Dict)
  {
    && Distinct(d.keys)
    && (forall t :: t in d.lists <==> t in d.keys)
  }

  /** Python's `dictionary[t] = pl`: an existing key keeps its place, a new key goes last. */
  function Put(d: Dict, t: Term, pl: PostingsList): (r: Dict)
    requires ValidDict(d)
    ensures ValidDict(r)
    ensures r.lists == d.lists[t := pl]
    ensures t in d.lists ==> r.keys == d.keys
    ensures t !in d.lists ==> r.keys == d.keys + [t]
  {
    Dict(if t in d.lists then d.keys else d.keys + [t], d.lists[t := pl])
  }

  /** `postings_list[-1]` */
  function Last(pl: PostingsList): Posting
    requires pl != []
  {
    pl[|pl| - 1]
  }

  /**
   The shape every postings list of the accumulator has: it is not empty,
   every frequency is at least 1, and neighbouring postings belong to
   different documents (occurrences in one document are counted in one posting).
   */
  ghost predicate WellFormedList(pl: PostingsList)
  {
    && pl != []
    && (forall i :: 0 <= i < |pl| ==> pl[i].tf >= 1)
    && (forall i, j :: 0 <= i < j < |pl| && j == i + 1 ==> pl[i].doc != pl[j].doc)
  }

  /**
   A dictionary the indexer can take a token into: a valid dict in which no
   term has an empty postings list, so `postings_list[-1]` is defined.
   */
  ghost predicate Indexable(d: Dict)
  {
    && ValidDict(d)
    && (forall t :: t in d.lists ==> d.lists[t] != [])
  }

  ghost predicate WellFormed(d: Dict)
  {
    && ValidDict(d)
    && (forall t :: t in d.lists ==> WellFormedList(d.lists[t]))
  }

  /** Every dictionary of the list is a valid dict. */
  ghost predicate AllValid(blocks: seq<Dict>)
  {
    forall i :: 0 <= i < |blocks| ==> ValidDict(blocks[i])
  }

  /** Every dictionary of the list is well formed. */
  ghost predicate AllWellFormed(blocks: seq<Dict>)
  {
    forall i :: 0 <= i < |blocks| ==> WellFormed(blocks[i])
  }

  lemma AllValidAppend(blocks: seq<Dict>, d: Dict)
    requires AllValid(blocks)
    requires ValidDict(d)
    ensures AllValid(blocks + [d])
  {
  }

  lemma EmptyWellFormed()
    ensures WellFormed(Empty)
  {
  }

  /**
   The postings list of a term seen again, in document `doc`: when its last
   posting is for `doc` that posting's frequency goes up by one, otherwise
   `(doc, 1)` is appended. Every earlier posting stays as it was.
   */
  function AddDoc(pl: PostingsList, doc: DocId): (r: PostingsList)
    requires pl != []
    ensures r != [] && Last(r).doc == doc
    ensures Last(pl).doc == doc ==>
      && |r| == |pl|
      && r[..|r| - 1] == pl[..|pl| - 1]
      && Last(r).tf == Last(pl).tf + 1
    ensures Last(pl).doc != doc ==>
      && |r| == |pl| + 1
      && r[..|pl|] == pl
      && Last(r).tf == 1
  {
    if Last(pl).doc == doc then pl[|pl| - 1 := Posting(doc, Last(pl).tf + 1)]
    else pl + [Posting(doc, 1)]
  }

  /**
   Adds one occurrence of `token` in document `doc`: a new term gets
   `[(doc, 1)]` and goes last in key order; a known term keeps its place and
   its postings list takes `doc` as `AddDoc` says. No other entry changes.
   */
  function AddToken(d: Dict, token: Term, doc: DocId): (r: Dict)
    requires Indexable(d)
    ensures Indexable(r)
    ensures r.lists.Keys == d.lists.Keys + {token}
    ensures forall t :: t in d.lists && t != token ==> r.lists[t] == d.lists[t]
    ensures token !in d.lists ==> r.keys == d.keys + [token] && r.lists[token] == [Posting(doc, 1)]
    ensures token in d.lists ==> r.keys == d.keys && r.lists[token] == AddDoc(d.lists[token], doc)
  {
    if token !in d.lists then
      Put(d, token, [Posting(doc, 1)])
    else
      Put(d, token, AddDoc(d.lists[token], doc))
  }

  /** The empty dictionary takes a token as a one-entry dictionary. */
  lemma AddTokenEmpty(token: Term, doc: DocId)
    ensures AddToken(Empty, token, doc) == Dict([token], map[token := [Posting(doc, 1)]])
  {
    var r := AddToken(Empty, token, doc);
    assert r.keys == [token];
    assert r.lists == map[token := [Posting(doc, 1)]];
  }

  /**
   Taking a document into a well-formed postings list keeps it well formed:
   an increment keeps the frequency positive, and a posting is appended
   only when the last one is for another document.
   */
  lemma AddDocWellFormed(pl: PostingsList, doc: DocId)
    requires WellFormedList(pl)
    ensures WellFormedList(AddDoc(pl, doc))
  {
    var r, n := AddDoc(pl, doc), |pl|;
    if Last(pl).doc == doc {
      forall i | 0 <= i < n - 1 ensures r[i] == pl[i] {
        assert r[i] == r[..n - 1][i];
      }
    } else {
      forall i | 0 <= i < n ensures r[i] == pl[i] {
        assert r[i] == r[..n][i];
      }
    }
  }

  /** Taking a token keeps every postings list of the dictionary well formed. */
  lemma AddTokenWellFormed(d: Dict, token: Term, doc: DocId)
    requires WellFormed(d)
    ensures WellFormed(AddToken(d, token, doc))
  {
    if token in d.lists {
      AddDocWellFormed(d.lists[token], doc);
    }
  }

  /** Total of the frequencies of a postings list. */
  function TfSum(pl: PostingsList): int
  {
    if pl == [] then 0 else TfSum(pl[..|pl| - 1]) + Last(pl).tf
  }

  /** Total of the frequencies a postings list records for document `doc`. */
  function DocTfSum(pl: PostingsList, doc: DocId): int
  {
    if pl == [] then 0
    else DocTfSum(pl[..|pl| - 1], doc) + (if Last(pl).doc == doc then Last(pl).tf else 0)
  }

  /** How many occurrences of `t` the dictionary records; 0 for an absent term. */
  function TermTf(d: Dict, t: Term): int
  {
    if t in d.lists then TfSum(d.lists[t]) else 0
  }

  /** How many occurrences of `t` in document `doc` the dictionary records. */
  function TermDocTf(d: Dict, t: Term, doc: DocId): int
  {
    if t in d.lists then DocTfSum(d.lists[t], doc) else 0
  }

  /** A term present in a well-formed dictionary has been seen at least once. */
  lemma {:induction false} TfSumPositive(pl: PostingsList)
    requires WellFormedList(pl)
    ensures TfSum(pl) >= |pl| >= 1
    decreases |pl|
  {
    var init := pl[..|pl| - 1];
    if init != [] {
      assert WellFormedList(init) by {
        forall i, j | 0 <= i < j < |init| && j == i + 1 ensures init[i].doc != init[j].doc {
          assert init[i] == pl[i] && init[j] == pl[j];
        }
      }
      TfSumPositive(init);
    }
  }

  /**
   Adding a token records exactly one more occurrence of that token, in that
   document, and no other occurrence count moves.
   */
  lemma AddTokenCounts(d: Dict, token: Term, doc: DocId, t: Term, other: DocId)
    requires Indexable(d)
    ensures TermTf(AddToken(d, token, doc), t) == TermTf(d, t) + (if t == token then 1 else 0)
    ensures TermDocTf(AddToken(d, token, doc), t, other)
         == TermDocTf(d, t, other) + (if t == token && other == doc then 1 else 0)
  {
    if t == token {
      if token in d.lists {
        AddDocSums(d.lists[token], doc, other);
      } else {
        var after := AddToken(d, token, doc).lists[token];
        assert after[..0] == [];
        assert TfSum(after) == 1 && DocTfSum(after, other) == if other == doc then 1 else 0;
      }
    }
  }

  /** Taking a document into a postings list adds one occurrence, for that document. */
  lemma AddDocSums(pl: PostingsList, doc: DocId, other: DocId)
    requires pl != []
    ensures TfSum(AddDoc(pl, doc)) == TfSum(pl) + 1
    ensures DocTfSum(AddDoc(pl, doc), other) == DocTfSum(pl, other) + (if other == doc then 1 else 0)
  {
    var r := AddDoc(pl, doc);
    if Last(pl).doc != doc {
      assert r[..|r| - 1] == pl;
    }
  }
}
