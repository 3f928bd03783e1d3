/**
 The `SPIMI` class: reads the preprocessed songs token by token, keeps a
 dictionary from term to postings list, and writes it to the blocks
 directory as a sorted block whenever it grows over the size limit.
 */
module Spimi {
  import opened Terms
  import opened Postings
  import opened Blocks
  import opened Numerals
  import opened Stream
  import opened BlockRun

  /** The blocks directory on disk: each file's name and the records it holds. */
  class BlocksDirectory {
    var files: map<string, seq<Record>>

    constructor (files: map<string, seq<Record>>)
      ensures this.files == files
    {
      this.files := files;
    }
  }

  class SPIMI {
    /** The preprocessed JSON file; its contents reach `Spimi` as the `data` parameter. */
    const fileNamePreprocessed: string
    /** The size above which the dictionary is written out as a block. */
    const blockLimit: int
    /** The directory the blocks are written to. */
    const blocksDir: BlocksDirectory

    constructor (fileNamePreprocessed: string, blocksDir: BlocksDirectory, blockLimit: int := 10000)
      ensures this.fileNamePreprocessed == fileNamePreprocessed
      ensures this.blocksDir == blocksDir
      ensures this.blockLimit == blockLimit
    {
      this.fileNamePreprocessed := fileNamePreprocessed;
      this.blocksDir := blocksDir;
      this.blockLimit := blockLimit;
    }

    /**
     Writes `dictionary` to the file `blockName + str(blockNumber) + ".txt"`,
     one record per key: in the dictionary's own key order when `isSorted`,
     in ascending term order otherwise. Returns the file's name; no other
     file changes.
     */
    method WriteBlockToDisk(dictionary: Dict, blockName: string, blockNumber: nat, isSorted: bool := false)
      returns (name: string)
      requires ValidDict(dictionary)
      modifies blocksDir
      ensures name == BlockFileName(blockName, blockNumber)
      ensures blocksDir.files == old(blocksDir.files)[name := BlockRecords(dictionary, isSorted)]
    {
      var path := blockName + NatToString(blockNumber) + ".txt";
      var lines: seq<Record>;
      if isSorted {
        lines := RecordLines(dictionary, dictionary.keys);
      } else {
        SortDistinct(dictionary.keys);
        lines := RecordLines(dictionary, Sort(dictionary.keys));
      }
      assert lines == BlockRecords(dictionary, isSorted);
      blocksDir.files := blocksDir.files[path := lines];
      name := path;
    }

    /** The lines of a block file: one record `(term, dictionary[term])` per key of `keys`, in order. */
    method RecordLines(dictionary: Dict, keys: seq<Term>) returns (lines: seq<Record>)
      requires forall t :: t in keys ==> t in dictionary.lists
      ensures lines == RecordsFor(dictionary, keys)
    {
      lines := [];
      var k := 0;
      while k < |keys|
        invariant 0 <= k <= |keys|
        invariant lines == RecordsFor(dictionary, keys[..k])
      {
        var term := keys[k];
        assert keys[..k + 1][..k] == keys[..k];
        lines := lines + [Record(term, dictionary.lists[term])];
        k := k + 1;
      }
      assert keys[..k] == keys;
    }

    /**
     Indexes `data` (the preprocessed songs) into blocks `block0.txt`,
     `block1.txt`, ...: after every token the dictionary is written out and
     emptied if `sizeOf` of it exceeds `blockLimit`, and a non-empty
     dictionary is written out at the end. Returns the number of blocks
     written. The blocks are those of `Run`, so every block is sorted and
     the blocks together record each occurrence of each term exactly once.
     */
    method Spimi(data: seq<Song>, sizeOf: Dict -> int) returns (blockNumber: nat)
      modifies blocksDir
      ensures blockNumber == |Run(Flatten(data), Empty, sizeOf, blockLimit)|
      ensures blocksDir.files == WithBlocks(old(blocksDir.files), Run(Flatten(data), Empty, sizeOf, blockLimit))
      ensures IndexedBlocks(blocksDir.files, blockNumber, data)
    {
      ghost var files := blocksDir.files;
      ghost var total := Run(Flatten(data), Empty, sizeOf, blockLimit);
      var dictionary: Dict;
      ghost var flushed: seq<Dict>;
      dictionary, blockNumber, flushed := IndexSongs(data, sizeOf, files);

      // the last block
      if |dictionary.keys| > 0 {
        WriteNextBlock(dictionary, blockNumber, files, flushed);
        assert flushed + [dictionary] == total by {
          assert Run([], dictionary, sizeOf, blockLimit) == [dictionary];
        }
        flushed := flushed + [dictionary];
        blockNumber := blockNumber + 1;
      } else {
        assert flushed == total by {
          assert Run([], dictionary, sizeOf, blockLimit) == [];
          assert flushed + [] == flushed;
        }
      }

      SpimiOutput(files, data, sizeOf, blockLimit);
    }

    /**
     The start of `Spimi` and its loop over the songs: from an empty
     dictionary and block number 0, takes every token of every song, writing
     the dictionary out as a block and emptying it each time it grows over
     the limit. `flushed` lists the blocks written; together with the
     dictionary left at the end they are the run of the songs' tokens.
     */
    method IndexSongs(data: seq<Song>, sizeOf: Dict -> int, ghost files: map<string, seq<Record>>)
      returns (dictionary: Dict, blockNumber: nat, ghost flushed: seq<Dict>)
      requires blocksDir.files == files
      modifies blocksDir
      ensures Indexable(dictionary)
      ensures blockNumber == |flushed|
      ensures AllValid(flushed)
      ensures blocksDir.files == WithBlocks(files, flushed)
      ensures flushed + Run([], dictionary, sizeOf, blockLimit) == Run(Flatten(data), Empty, sizeOf, blockLimit)
    {
      ghost var total := Run(Flatten(data), Empty, sizeOf, blockLimit);
      flushed := [];
      blockNumber := 0;
      dictionary := Empty;
      assert flushed + Run(Flatten(data[0..]), dictionary, sizeOf, blockLimit) == total by {
        assert data[0..] == data;
      }

      var s := 0;
      while s < |data|
        invariant 0 <= s <= |data|
        invariant Indexable(dictionary)
        invariant blockNumber == |flushed|
        invariant AllValid(flushed)
        invariant flushed + Run(Flatten(data[s..]), dictionary, sizeOf, blockLimit) == total
        invariant blocksDir.files == WithBlocks(files, flushed)
      {
        ghost var later := Flatten(data[s + 1..]);
        assert Flatten(data[s..]) == SongOccurrences(data[s].trackId, data[s].tokens) + later by {
          FlattenFrom(data, s);
        }
        dictionary, blockNumber, flushed :=
          IndexSong(data[s].trackId, data[s].tokens, sizeOf, dictionary, blockNumber,
                    files, flushed, later);
        s := s + 1;
      }
      assert data[s..] == [];
    }

    /**
     The body of the loop over songs in `Spimi`: adds the tokens of one song
     to the dictionary, writing it out and emptying it each time it grows
     over the limit. `flushed` lists the blocks written so far and `later`
     the tokens of the songs still to come; the result continues the same run.
     */
    method IndexSong(trackId: DocId, tokens: seq<Term>, sizeOf: Dict -> int, dictionary: Dict, blockNumber: nat,
                     ghost files: map<string, seq<Record>>, ghost flushed: seq<Dict>, ghost later: seq<Occurrence>)
      returns (dictionaryAfter: Dict, blockNumberAfter: nat, ghost flushedAfter: seq<Dict>)
      requires Indexable(dictionary)
      requires blockNumber == |flushed|
      requires AllValid(flushed)
      requires blocksDir.files == WithBlocks(files, flushed)
      modifies blocksDir
      ensures Indexable(dictionaryAfter)
      ensures blockNumberAfter == |flushedAfter|
      ensures AllValid(flushedAfter)
      ensures blocksDir.files == WithBlocks(files, flushedAfter)
      ensures flushedAfter + Run(later, dictionaryAfter, sizeOf, blockLimit)
           == flushed + Run(SongOccurrences(trackId, tokens) + later, dictionary, sizeOf, blockLimit)
    {
      ghost var total := flushed + Run(SongOccurrences(trackId, tokens) + later, dictionary, sizeOf, blockLimit);
      dictionaryAfter, blockNumberAfter, flushedAfter := dictionary, blockNumber, flushed;

      var j := 0;
      while j < |tokens|
        invariant 0 <= j <= |tokens|
        invariant Indexable(dictionaryAfter)
        invariant blockNumberAfter == |flushedAfter|
        invariant AllValid(flushedAfter)
        invariant flushedAfter + Run(SongOccurrences(trackId, tokens[j..]) + later, dictionaryAfter, sizeOf, blockLimit)
               == total
        invariant blocksDir.files == WithBlocks(files, flushedAfter)
      {
        ghost var rest := SongOccurrences(trackId, tokens[j + 1..]) + later;
        SongOccurrencesFrom(trackId, tokens, j, later);
        dictionaryAfter, blockNumberAfter, flushedAfter :=
          IndexToken(tokens[j], trackId, sizeOf, dictionaryAfter, blockNumberAfter, files, flushedAfter, rest);
        j := j + 1;
      }
      assert SongOccurrences(trackId, tokens[j..]) + later == later by {
        assert tokens[j..] == [];
      }
    }

    /**
     The body of the loop over the tokens of one song: records the token,
     then writes the dictionary out as the next block and empties it if its
     size exceeds the limit. `rest` is the stream after this token.
     */
    method IndexToken(token: Term, trackId: DocId, sizeOf: Dict -> int, dictionary: Dict, blockNumber: nat,
                      ghost files: map<string, seq<Record>>, ghost flushed: seq<Dict>, ghost rest: seq<Occurrence>)
      returns (dictionaryAfter: Dict, blockNumberAfter: nat, ghost flushedAfter: seq<Dict>)
      requires Indexable(dictionary)
      requires blockNumber == |flushed|
      requires AllValid(flushed)
      requires blocksDir.files == WithBlocks(files, flushed)
      modifies blocksDir
      ensures sizeOf(AddToken(dictionary, token, trackId)) > blockLimit ==>
        && flushedAfter == flushed + [AddToken(dictionary, token, trackId)]
        && blockNumberAfter == blockNumber + 1
        && dictionaryAfter == Empty
      ensures sizeOf(AddToken(dictionary, token, trackId)) <= blockLimit ==>
        && flushedAfter == flushed
        && blockNumberAfter == blockNumber
        && dictionaryAfter == AddToken(dictionary, token, trackId)
      ensures Indexable(dictionaryAfter)
      ensures blockNumberAfter == |flushedAfter|
      ensures AllValid(flushedAfter)
      ensures blocksDir.files == WithBlocks(files, flushedAfter)
      ensures flushedAfter + Run(rest, dictionaryAfter, sizeOf, blockLimit)
           == flushed + Run([Occurrence(token, trackId)] + rest, dictionary, sizeOf, blockLimit)
    {
      dictionaryAfter := AddPosting(dictionary, token, trackId);
      blockNumberAfter, flushedAfter := blockNumber, flushed;
      ghost var stream := [Occurrence(token, trackId)] + rest;
      if sizeOf(dictionaryAfter) > blockLimit {
        flushedAfter := flushed + [dictionaryAfter];
        assert flushedAfter + Run(rest, Empty, sizeOf, blockLimit) == flushed + Run(stream, dictionary, sizeOf, blockLimit) by {
          RunStep(flushed, Occurrence(token, trackId), rest, dictionary, sizeOf, blockLimit);
        }
        WriteNextBlock(dictionaryAfter, blockNumber, files, flushed);
        blockNumberAfter := blockNumber + 1;
        dictionaryAfter := Empty;
      } else {
        assert flushed + Run(rest, dictionaryAfter, sizeOf, blockLimit) == flushed + Run(stream, dictionary, sizeOf, blockLimit) by {
          RunStep(flushed, Occurrence(token, trackId), rest, dictionary, sizeOf, blockLimit);
        }
      }
    }

    /**
     `write_block_to_disk(dictionary, "block", block_number)`: the dictionary
     becomes the next block, `block<blockNumber>.txt`, after the blocks
     `flushed` already written over the directory `files`.
     */
    method WriteNextBlock(dictionary: Dict, blockNumber: nat,
                          ghost files: map<string, seq<Record>>, ghost flushed: seq<Dict>)
      requires ValidDict(dictionary)
      requires blockNumber == |flushed|
      requires AllValid(flushed)
      requires blocksDir.files == WithBlocks(files, flushed)
      modifies blocksDir
      ensures AllValid(flushed + [dictionary])
      ensures blocksDir.files == WithBlocks(files, flushed + [dictionary])
    {
      var _ := WriteBlockToDisk(dictionary, "block", blockNumber);
      AllValidAppend(flushed, dictionary);
      WithBlocksAppend(files, flushed, dictionary);
    }

    /**
     Records one occurrence of `token` in song `trackId`: a new term gets the
     postings list `[(trackId, 1)]`; when the term's last posting is for
     `trackId` its frequency goes up by one, otherwise `(trackId, 1)` is
     appended. The result is the one `AddToken` specifies.
     */
    method AddPosting(dictionary: Dict, token: Term, trackId: DocId) returns (updated: Dict)
      requires Indexable(dictionary)
      ensures updated == AddToken(dictionary, token, trackId)
    {
      updated := dictionary;
      if token !in updated.lists {
        updated := Put(updated, token, [Posting(trackId, 1)]);
      } else {
        var postingsList := updated.lists[token];
        if postingsList[|postingsList| - 1].doc == trackId {
          var last := postingsList[|postingsList| - 1];
          postingsList := postingsList[|postingsList| - 1 := Posting(trackId, last.tf + 1)];
        } else {
          postingsList := postingsList + [Posting(trackId, 1)];
        }
        updated := Put(updated, token, postingsList);
      }
    }
  }
}
