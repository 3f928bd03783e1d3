/**
 The contents of a block file: one `(term, postings_list)` record per
 dictionary entry, in the order `write_block_to_disk` visits the keys.
 */
module Blocks {
  import opened Terms
  import opened Postings

  /** One line `str((term, postings_list))` of a block file, kept structured. */
  datatype Record = Record(term: Term, postings: PostingsList)

  /** The records for the keys `ks` of `d`, in the order of `ks`. */
  function RecordsFor(d: Dict, ks: seq<Term>): (r: seq<Record>)
    requires forall t :: t in ks ==> t in d.lists
    ensures |r| == |ks|
    ensures forall i :: 0 <= i < |r| ==> r[i] == Record(ks[i], d.lists[ks[i]])
  {
    if ks == [] then []
    else RecordsFor(d, ks[..|ks| - 1]) + [Record(ks[|ks| - 1], d.lists[ks[|ks| - 1]])]
  }

  /**
   The order in which the keys are visited: `dictionary.keys()` (insertion
   order) when the caller says they are sorted, `sorted(dictionary.keys())`
   otherwise.
   */
  function KeyOrder(d: Dict, isSorted: bool): (ks: seq<Term>)
    requires ValidDict(d)
    ensures Distinct(ks)
    ensures forall t :: t in ks <==> t in d.lists
    ensures |ks| == |d.keys|
    ensures isSorted ==> ks == d.keys
    ensures !isSorted ==> StrictlyAscending(ks)
  {
    if isSorted then d.keys
    else
      SortDistinct(d.keys);
      Sort(d.keys)
  }

  /**
   What a block file written from `d` holds: one record per key, each with
   its own postings list, in insertion order when `isSorted` and in strictly
   ascending term order otherwise.
   */
  function BlockRecords(d: Dict, isSorted: bool): (r: seq<Record>)
    requires ValidDict(d)
    ensures |r| == |d.keys|
    ensures forall i :: 0 <= i < |r| ==> r[i].term in d.lists && r[i].postings == d.lists[r[i].term]
    ensures isSorted ==> forall i :: 0 <= i < |r| ==> r[i].term == d.keys[i]
    ensures !isSorted ==> forall i, j :: 0 <= i < j < |r| ==> Less(r[i].term, r[j].term)
  {
    RecordsFor(d, KeyOrder(d, isSorted))
  }

  function TermsOf(rs: seq<Record>): (ts: seq<Term>)
    ensures |ts| == |rs|
    ensures forall i :: 0 <= i < |rs| ==> ts[i] == rs[i].term
  {
    seq(|rs|, i requires 0 <= i < |rs| => rs[i].term)
  }

  /**
   A block written without `is_sorted` lists every key of the dictionary
   exactly once, in strictly ascending order, each with its postings list.
   */
  lemma SortedBlock(d: Dict)
    requires ValidDict(d)
    ensures StrictlyAscending(TermsOf(BlockRecords(d, false)))
    ensures forall t :: t in TermsOf(BlockRecords(d, false)) <==> t in d.lists
    ensures |BlockRecords(d, false)| == |d.lists|
    ensures forall r :: r in BlockRecords(d, false) ==> r.term in d.lists && r.postings == d.lists[r.term]
  {
    var rs := BlockRecords(d, false);
    assert TermsOf(rs) == KeyOrder(d, false);
    assert |rs| == |d.lists| by {
      DistinctCard(d.keys);
      assert d.lists.Keys == set t | t in d.keys;
    }
  }

  /** A list without repetitions has as many elements as the set of them. */
  lemma {:induction false} DistinctCard(s: seq<Term>)
    requires Distinct(s)
    ensures |set t | t in s| == |s|
    decreases |s|
  {
    if s != [] {
      var init := s[..|s| - 1];
      assert Distinct(init);
      DistinctCard(init);
      assert (set t | t in s) == (set t | t in init) + {s[|s| - 1]};
      assert s[|s| - 1] !in init;
    }
  }

  /** Total frequency recorded for `t` across the records. */
  function RecordsTf(rs: seq<Record>, t: Term): int
  {
    if rs == [] then 0
    else
      var last := rs[|rs| - 1];
      RecordsTf(rs[..|rs| - 1], t) + (if last.term == t then TfSum(last.postings) else 0)
  }

  /** Total frequency recorded for `t` in document `doc` across the records. */
  function RecordsDocTf(rs: seq<Record>, t: Term, doc: DocId): int
  {
    if rs == [] then 0
    else
      var last := rs[|rs| - 1];
      RecordsDocTf(rs[..|rs| - 1], t, doc) + (if last.term == t then DocTfSum(last.postings, doc) else 0)
  }

  lemma {:induction false} RecordsForTf(d: Dict, ks: seq<Term>, t: Term, doc: DocId)
    requires Distinct(ks)
    requires forall k :: k in ks ==> k in d.lists
    ensures RecordsTf(RecordsFor(d, ks), t) == if t in ks then TfSum(d.lists[t]) else 0
    ensures RecordsDocTf(RecordsFor(d, ks), t, doc) == if t in ks then DocTfSum(d.lists[t], doc) else 0
    decreases |ks|
  {
    if ks != [] {
      var init := ks[..|ks| - 1];
      var rs := RecordsFor(d, ks);
      assert rs[..|rs| - 1] == RecordsFor(d, init);
      assert Distinct(init);
      RecordsForTf(d, init, t, doc);
      assert t in ks <==> t in init || t == ks[|ks| - 1];
      assert ks[|ks| - 1] !in init;
    }
  }

  /**
   Writing a dictionary as a block loses and invents no occurrence: the
   records hold, term by term and document by document, the frequencies the
   dictionary held.
   */
  lemma BlockRecordsTf(d: Dict, isSorted: bool, t: Term, doc: DocId)
    requires ValidDict(d)
    ensures RecordsTf(BlockRecords(d, isSorted), t) == TermTf(d, t)
    ensures RecordsDocTf(BlockRecords(d, isSorted), t, doc) == TermDocTf(d, t, doc)
  {
    RecordsForTf(d, KeyOrder(d, isSorted), t, doc);
  }
}
