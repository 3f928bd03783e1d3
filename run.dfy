/**
 Single-pass in-memory indexing (SPIMI) block construction, as a function
 of the token stream.

 `Run` gives the dictionaries the block builder flushes, in order, and
 `WithBlocks` the blocks directory once they are written; the lemmas state
 what a run guarantees. The `SPIMI` class computes the same thing with the
 loops, counter and resets of the Python class.
 */
module BlockRun {
  import opened Terms
  import opened Postings
  import opened Blocks
  import opened Numerals
  import opened Stream

  /**
   The dictionaries flushed while indexing `stream` starting from the
   accumulator `d`: after each token the accumulator is flushed and reset
   when `sizeOf` of it exceeds `limit`; at the end a non-empty accumulator
   is flushed once more. Every flushed dictionary is a valid dict and not
   empty.
   */
  function Run(stream: seq<Occurrence>, d: Dict, sizeOf: Dict -> int, limit: int): (blocks: seq<Dict>)
    requires Indexable(d)
    ensures AllValid(blocks)
    ensures forall i :: 0 <= i < |blocks| ==> |blocks[i].keys| > 0
    decreases |stream|
  {
    if stream == [] then
      if |d.keys| > 0 then [d] else []
    else
      var next := AddToken(d, stream[0].term, stream[0].doc);
      if sizeOf(next) > limit then [next] + Run(stream[1..], Empty, sizeOf, limit)
      else Run(stream[1..], next, sizeOf, limit)
  }

  /**
   Every flushed dictionary is well formed: each postings list holds
   frequencies of at least 1 and never two neighbouring postings for one
   document.
   */
  lemma {:induction false} RunWellFormed(stream: seq<Occurrence>, d: Dict, sizeOf: Dict -> int, limit: int)
    requires WellFormed(d)
    ensures AllWellFormed(Run(stream, d, sizeOf, limit))
    decreases |stream|
  {
    if stream != [] {
      var next := AddToken(d, stream[0].term, stream[0].doc);
      AddTokenWellFormed(d, stream[0].term, stream[0].doc);
      if sizeOf(next) > limit {
        EmptyWellFormed();
        RunWellFormed(stream[1..], Empty, sizeOf, limit);
      } else {
        RunWellFormed(stream[1..], next, sizeOf, limit);
      }
    }
  }

  /**
   One token of the stream, as the block builder's loop body takes it, after
   the blocks `flushed` already written.
   */
  lemma RunStep(flushed: seq<Dict>, o: Occurrence, rest: seq<Occurrence>, d: Dict, sizeOf: Dict -> int, limit: int)
    requires Indexable(d)
    ensures var next := AddToken(d, o.term, o.doc);
      flushed + Run([o] + rest, d, sizeOf, limit)
      == if sizeOf(next) > limit then (flushed + [next]) + Run(rest, Empty, sizeOf, limit)
         else flushed + Run(rest, next, sizeOf, limit)
  {
    assert ([o] + rest)[1..] == rest;
    var next := AddToken(d, o.term, o.doc);
    if sizeOf(next) > limit {
      var later := Run(rest, Empty, sizeOf, limit);
      assert flushed + ([next] + later) == (flushed + [next]) + later;
    }
  }

  /**
   Each flushed dictionary holds at least one token, so a run writes at most
   one block per token, plus one for a non-empty starting accumulator.
   */
  lemma {:induction false} RunLength(stream: seq<Occurrence>, d: Dict, sizeOf: Dict -> int, limit: int)
    requires Indexable(d)
    ensures |Run(stream, d, sizeOf, limit)| <= |stream| + (if |d.keys| > 0 then 1 else 0)
    decreases |stream|
  {
    if stream != [] {
      var next := AddToken(d, stream[0].term, stream[0].doc);
      if sizeOf(next) > limit {
        RunLength(stream[1..], Empty, sizeOf, limit);
      } else {
        RunLength(stream[1..], next, sizeOf, limit);
      }
    }
  }

  /** Every block but the last one was flushed because it exceeded the limit. */
  lemma {:induction false} RunFlushesOverLimit(stream: seq<Occurrence>, d: Dict, sizeOf: Dict -> int, limit: int, i: nat)
    requires Indexable(d)
    requires i + 1 < |Run(stream, d, sizeOf, limit)|
    ensures sizeOf(Run(stream, d, sizeOf, limit)[i]) > limit
    decreases |stream|
  {
    var next := AddToken(d, stream[0].term, stream[0].doc);
    if sizeOf(next) > limit {
      var rest := Run(stream[1..], Empty, sizeOf, limit);
      if i > 0 {
        assert Run(stream, d, sizeOf, limit)[i] == rest[i - 1];
        RunFlushesOverLimit(stream[1..], Empty, sizeOf, limit, i - 1);
      }
    } else {
      RunFlushesOverLimit(stream[1..], next, sizeOf, limit, i);
    }
  }

  /** Total frequency of `t` over a list of dictionaries. */
  function BlocksTf(blocks: seq<Dict>, t: Term): int
  {
    if blocks == [] then 0 else TermTf(blocks[0], t) + BlocksTf(blocks[1..], t)
  }

  /** Total frequency of `t` in document `doc` over a list of dictionaries. */
  function BlocksDocTf(blocks: seq<Dict>, t: Term, doc: DocId): int
  {
    if blocks == [] then 0 else TermDocTf(blocks[0], t, doc) + BlocksDocTf(blocks[1..], t, doc)
  }

  /**
   No occurrence is lost or invented by a flush: the frequencies of `t` over
   all flushed dictionaries add up to what the starting accumulator held plus
   the occurrences of `t` in the stream, in total and per document, however
   the flushes cut through a document.
   */
  lemma {:induction false} RunCounts(stream: seq<Occurrence>, d: Dict, sizeOf: Dict -> int, limit: int, t: Term, doc: DocId)
    requires Indexable(d)
    ensures BlocksTf(Run(stream, d, sizeOf, limit), t) == TermTf(d, t) + Count(stream, t)
    ensures BlocksDocTf(Run(stream, d, sizeOf, limit), t, doc) == TermDocTf(d, t, doc) + DocCount(stream, t, doc)
    decreases |stream|
  {
    if stream == [] {
      if |d.keys| == 0 {
        assert t !in d.lists;
      }
    } else {
      var o := stream[0];
      var next := AddToken(d, o.term, o.doc);
      AddTokenCounts(d, o.term, o.doc, t, doc);
      if sizeOf(next) > limit {
        RunCounts(stream[1..], Empty, sizeOf, limit, t, doc);
        var rest := Run(stream[1..], Empty, sizeOf, limit);
        assert ([next] + rest)[1..] == rest;
      } else {
        RunCounts(stream[1..], next, sizeOf, limit, t, doc);
      }
    }
  }

  /** All tokens indexed into one dictionary, without any flush. */
  function Index(d: Dict, stream: seq<Occurrence>): (r: Dict)
    requires Indexable(d)
    ensures Indexable(r)
    decreases |stream|
  {
    if stream == [] then d else Index(AddToken(d, stream[0].term, stream[0].doc), stream[1..])
  }

  /**
   When the size never exceeds the limit, the whole stream ends up in one
   block, written at the end (none for an empty stream).
   */
  lemma {:induction false} RunWithoutFlush(stream: seq<Occurrence>, d: Dict, sizeOf: Dict -> int, limit: int)
    requires Indexable(d)
    requires forall x: Dict :: sizeOf(x) <= limit
    ensures Run(stream, d, sizeOf, limit) == if |Index(d, stream).keys| > 0 then [Index(d, stream)] else []
    decreases |stream|
  {
    if stream != [] {
      RunWithoutFlush(stream[1..], AddToken(d, stream[0].term, stream[0].doc), sizeOf, limit);
    }
  }

  /** The dictionary holding one occurrence of `o`. */
  function Single(o: Occurrence): Dict
  {
    Dict([o.term], map[o.term := [Posting(o.doc, 1)]])
  }

  /** One single-occurrence dictionary per token of the stream, in order. */
  function Singles(stream: seq<Occurrence>): (r: seq<Dict>)
    ensures |r| == |stream|
    ensures forall i :: 0 <= i < |stream| ==> r[i] == Single(stream[i])
  {
    if stream == [] then [] else [Single(stream[0])] + Singles(stream[1..])
  }

  /**
   When every non-empty dictionary exceeds the limit, each token is flushed
   on its own, as a block holding just that token.
   */
  lemma {:induction false} RunFlushEveryToken(stream: seq<Occurrence>, sizeOf: Dict -> int, limit: int)
    requires forall x: Dict :: |x.keys| > 0 ==> sizeOf(x) > limit
    ensures Run(stream, Empty, sizeOf, limit) == Singles(stream)
    decreases |stream|
  {
    if stream != [] {
      FlushFirstToken(stream, sizeOf, limit);
      RunFlushEveryToken(stream[1..], sizeOf, limit);
    }
  }

  /** A token taken into the empty dictionary that then exceeds the limit is flushed on its own. */
  lemma FlushFirstToken(stream: seq<Occurrence>, sizeOf: Dict -> int, limit: int)
    requires stream != []
    requires sizeOf(Single(stream[0])) > limit
    ensures Run(stream, Empty, sizeOf, limit) == [Single(stream[0])] + Run(stream[1..], Empty, sizeOf, limit)
  {
    AddTokenEmpty(stream[0].term, stream[0].doc);
  }

  /**
   The blocks directory after writing `blocks` as `block0.txt`, `block1.txt`,
   ... in turn. No file already there is removed.
   */
  function WithBlocks(files: map<string, seq<Record>>, blocks: seq<Dict>): (w: map<string, seq<Record>>)
    requires AllValid(blocks)
    ensures forall name :: name in files ==> name in w
  {
    if blocks == [] then files
    else
      var n := |blocks| - 1;
      WithBlocks(files, blocks[..n])[BlockFileName("block", n) := BlockRecords(blocks[n], false)]
  }

  lemma WithBlocksAppend(files: map<string, seq<Record>>, blocks: seq<Dict>, d: Dict)
    requires AllValid(blocks)
    requires ValidDict(d)
    ensures WithBlocks(files, blocks + [d])
         == WithBlocks(files, blocks)[BlockFileName("block", |blocks|) := BlockRecords(d, false)]
  {
    assert (blocks + [d])[..|blocks|] == blocks;
  }

  /** Block `i` is found under its own name: no later block overwrites it. */
  lemma {:induction false} WrittenBlock(files: map<string, seq<Record>>, blocks: seq<Dict>, i: nat)
    requires AllValid(blocks)
    requires i < |blocks|
    ensures BlockFileName("block", i) in WithBlocks(files, blocks)
    ensures WithBlocks(files, blocks)[BlockFileName("block", i)] == BlockRecords(blocks[i], false)
    decreases |blocks|
  {
    var n := |blocks| - 1;
    var prev := WithBlocks(files, blocks[..n]);
    assert WithBlocks(files, blocks) == prev[BlockFileName("block", n) := BlockRecords(blocks[n], false)];
    if i < n {
      BlockFileNameInjective("block", i, n);
      WrittenBlock(files, blocks[..n], i);
      assert blocks[..n][i] == blocks[i];
    }
  }

  /** Files other than the block files are left as they were. */
  lemma {:induction false} OtherFilesKept(files: map<string, seq<Record>>, blocks: seq<Dict>, name: string)
    requires AllValid(blocks)
    requires forall i :: 0 <= i < |blocks| ==> name != BlockFileName("block", i)
    ensures name in WithBlocks(files, blocks) <==> name in files
    ensures name in files ==> WithBlocks(files, blocks)[name] == files[name]
    decreases |blocks|
  {
    if blocks != [] {
      OtherFilesKept(files, blocks[..|blocks| - 1], name);
    }
  }

  /** Total frequency of `t` over the files `block0.txt` to `block<n-1>.txt`. */
  function FilesTf(files: map<string, seq<Record>>, n: nat, t: Term): int
  {
    if n == 0 then 0
    else
      var name := BlockFileName("block", n - 1);
      FilesTf(files, n - 1, t) + (if name in files then RecordsTf(files[name], t) else 0)
  }

  /** Total frequency of `t` in document `doc` over the files `block0.txt` to `block<n-1>.txt`. */
  function FilesDocTf(files: map<string, seq<Record>>, n: nat, t: Term, doc: DocId): int
  {
    if n == 0 then 0
    else
      var name := BlockFileName("block", n - 1);
      FilesDocTf(files, n - 1, t, doc) + (if name in files then RecordsDocTf(files[name], t, doc) else 0)
  }

  /**
   When each file `block<i>.txt` of the blocks directory `w` records the
   frequencies block `i` held, the first `n` block files together record
   those of the first `n` blocks.
   */
  lemma {:induction false} FilesOfBlocks(w: map<string, seq<Record>>, blocks: seq<Dict>, n: nat, t: Term, doc: DocId)
    requires AllValid(blocks)
    requires n <= |blocks|
    requires forall i :: 0 <= i < |blocks| ==> BlockFileName("block", i) in w
    requires forall i :: 0 <= i < |blocks| ==> RecordsTf(w[BlockFileName("block", i)], t) == TermTf(blocks[i], t)
    requires forall i :: 0 <= i < |blocks| ==>
      RecordsDocTf(w[BlockFileName("block", i)], t, doc) == TermDocTf(blocks[i], t, doc)
    ensures FilesTf(w, n, t) == BlocksTf(blocks[..n], t)
    ensures FilesDocTf(w, n, t, doc) == BlocksDocTf(blocks[..n], t, doc)
    decreases n
  {
    if n > 0 {
      FilesOfBlocks(w, blocks, n - 1, t, doc);
      BlocksSplit(blocks[..n], n - 1, t, doc);
      assert blocks[..n][..n - 1] == blocks[..n - 1];
    }
  }

  lemma {:induction false} BlocksSplit(blocks: seq<Dict>, k: nat, t: Term, doc: DocId)
    requires k < |blocks| == k + 1
    ensures BlocksTf(blocks, t) == BlocksTf(blocks[..k], t) + TermTf(blocks[k], t)
    ensures BlocksDocTf(blocks, t, doc) == BlocksDocTf(blocks[..k], t, doc) + TermDocTf(blocks[k], t, doc)
    decreases k
  {
    if k > 0 {
      assert blocks[1..][..k - 1] == blocks[..k][1..];
      BlocksSplit(blocks[1..], k - 1, t, doc);
    }
  }

  /**
   The block files of a run hold, term by term and document by document, exactly
   the occurrences of the input songs.
   */
  lemma SpimiCounts(files: map<string, seq<Record>>, data: seq<Song>, sizeOf: Dict -> int, limit: int, t: Term, doc: DocId)
    ensures var blocks := Run(Flatten(data), Empty, sizeOf, limit);
      && FilesTf(WithBlocks(files, blocks), |blocks|, t) == TermOccurrences(data, t)
      && FilesDocTf(WithBlocks(files, blocks), |blocks|, t, doc) == DocOccurrences(data, t, doc)
  {
    var blocks := Run(Flatten(data), Empty, sizeOf, limit);
    var w := WithBlocks(files, blocks);
    forall i | 0 <= i < |blocks|
      ensures BlockFileName("block", i) in w
      ensures RecordsTf(w[BlockFileName("block", i)], t) == TermTf(blocks[i], t)
      ensures RecordsDocTf(w[BlockFileName("block", i)], t, doc) == TermDocTf(blocks[i], t, doc)
    {
      BlockFileTf(files, blocks, i, t, doc);
    }
    FilesOfBlocks(w, blocks, |blocks|, t, doc);
    assert blocks[..|blocks|] == blocks;
    assert BlocksTf(blocks, t) == TermOccurrences(data, t) && BlocksDocTf(blocks, t, doc) == DocOccurrences(data, t, doc) by {
      RunCounts(Flatten(data), Empty, sizeOf, limit, t, doc);
      FlattenCount(data, t, doc);
    }
  }

  /** The file of block `i` records the frequencies block `i` held. */
  lemma BlockFileTf(files: map<string, seq<Record>>, blocks: seq<Dict>, i: nat, t: Term, doc: DocId)
    requires AllValid(blocks)
    requires i < |blocks|
    ensures var w, name := WithBlocks(files, blocks), BlockFileName("block", i);
      && name in w
      && RecordsTf(w[name], t) == TermTf(blocks[i], t)
      && RecordsDocTf(w[name], t, doc) == TermDocTf(blocks[i], t, doc)
  {
    WrittenBlock(files, blocks, i);
    BlockRecordsTf(blocks[i], false, t, doc);
  }

  /**
   The file of a well-formed block `i`: present, its terms strictly
   ascending, and each of its postings lists well formed.
   */
  lemma BlockFile(files: map<string, seq<Record>>, blocks: seq<Dict>, i: nat)
    requires AllWellFormed(blocks)
    requires i < |blocks|
    ensures AllValid(blocks)
    ensures var w, name := WithBlocks(files, blocks), BlockFileName("block", i);
      && name in w
      && StrictlyAscending(TermsOf(w[name]))
      && (forall r :: r in w[name] ==> WellFormedList(r.postings))
  {
    assert WellFormed(blocks[i]);
    WrittenBlock(files, blocks, i);
    SortedBlock(blocks[i]);
  }

  /**
   After a run, every block `i` is in the file `block<i>.txt`, its terms
   strictly ascending and each of its postings lists well formed: every
   frequency at least 1, no two neighbouring postings for one document.
   */
  lemma SpimiBlockFiles(files: map<string, seq<Record>>, data: seq<Song>, sizeOf: Dict -> int, limit: int)
    ensures var blocks := Run(Flatten(data), Empty, sizeOf, limit);
      var w := WithBlocks(files, blocks);
      forall i :: 0 <= i < |blocks| ==>
        && BlockFileName("block", i) in w
        && StrictlyAscending(TermsOf(w[BlockFileName("block", i)]))
        && (forall r :: r in w[BlockFileName("block", i)] ==> WellFormedList(r.postings))
  {
    var blocks := Run(Flatten(data), Empty, sizeOf, limit);
    EmptyWellFormed();
    RunWellFormed(Flatten(data), Empty, sizeOf, limit);
    forall i | 0 <= i < |blocks|
      ensures var w, name := WithBlocks(files, blocks), BlockFileName("block", i);
        && name in w
        && StrictlyAscending(TermsOf(w[name]))
        && (forall r :: r in w[name] ==> WellFormedList(r.postings))
    {
      BlockFile(files, blocks, i);
    }
  }

  /**
   The first `n` block files of the blocks directory `w` index the songs
   `data`: each file `block<i>.txt` is present, its terms strictly ascending
   and its postings lists well formed, and together the files record every
   occurrence of every term, in total and per document, exactly once.
   */
  ghost predicate IndexedBlocks(w: map<string, seq<Record>>, n: nat, data: seq<Song>)
  {
    && (forall i :: 0 <= i < n ==>
          && BlockFileName("block", i) in w
          && StrictlyAscending(TermsOf(w[BlockFileName("block", i)]))
          && (forall r :: r in w[BlockFileName("block", i)] ==> WellFormedList(r.postings)))
    && (forall t :: FilesTf(w, n, t) == TermOccurrences(data, t))
    && (forall t, doc :: FilesDocTf(w, n, t, doc) == DocOccurrences(data, t, doc))
  }

  /** What the block builder leaves behind: the blocks of the run index the songs. */
  lemma SpimiOutput(files: map<string, seq<Record>>, data: seq<Song>, sizeOf: Dict -> int, limit: int)
    ensures var blocks := Run(Flatten(data), Empty, sizeOf, limit);
      IndexedBlocks(WithBlocks(files, blocks), |blocks|, data)
  {
    var blocks := Run(Flatten(data), Empty, sizeOf, limit);
    var w := WithBlocks(files, blocks);
    SpimiBlockFiles(files, data, sizeOf, limit);
    forall t
      ensures FilesTf(w, |blocks|, t) == TermOccurrences(data, t)
    {
      SpimiCounts(files, data, sizeOf, limit, t, "");
    }
    forall t, doc
      ensures FilesDocTf(w, |blocks|, t, doc) == DocOccurrences(data, t, doc)
    {
      SpimiCounts(files, data, sizeOf, limit, t, doc);
    }
  }
}
