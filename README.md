# SPIMI block builder

This project models the block-construction step of a song-lyrics search engine: single-pass in-memory indexing (SPIMI), the `SPIMI` class of `source/spimi.py`. It also proves properties of that model.

The builder works like this:

- It reads the preprocessed songs in order. Each song is a `track_id` with its list of tokens.
- It keeps a dictionary from term to postings list. A postings list is a list of `(track_id, tf)` pairs.
- For each token it does one of three things:
  - a new term gets `[(track_id, 1)]`;
  - a term whose last posting is for the same song has that posting's frequency raised by one;
  - any other term has `(track_id, 1)` appended.
- After every token it checks the dictionary's size against `block_limit`. When the size exceeds the limit, it writes the dictionary to `block<n>.txt`, bumps `n` and empties the dictionary.
- At the end it writes out a non-empty dictionary as the last block and returns the number of blocks.
- `write_block_to_disk` writes one `(term, postings_list)` record per key, in ascending term order unless the caller says the keys are already sorted.

## Modules

| file | module | contents |
|---|---|---|
| `terms.dfy` | `Terms` | Python's string order (`Less`); `sorted` as an insertion sort proved ascending and a permutation |
| `numerals.dfy` | `Numerals` | `str(n)` for block numbers; the block file name; proof that distinct numbers give distinct names |
| `postings.dfy` | `Postings` | the dictionary with its insertion order (`Dict`); the one-token update `AddToken`; well-formedness; frequency totals |
| `blocks.dfy` | `Blocks` | the records of a block file and what a sorted block holds |
| `stream.dfy` | `Stream` | the songs and the token stream the two nested loops walk; occurrence counts |
| `run.dfy` | `BlockRun` | `Run`, the flushed dictionaries as a function of the stream; `WithBlocks`, the blocks directory afterwards; the lemmas about a run |
| `spimi.dfy` | `Spimi` | the `SPIMI` class with its loops, counter and resets, proved against `Run` and `WithBlocks` |

These model choices are worth knowing before reading the table:

- A Python dict is modelled as a map plus its key insertion order. The order is what `dictionary.keys()` yields when `is_sorted` is true.
- The blocks directory is an object `BlocksDirectory` whose field `files` maps each file name to the records written to it. `open(..., 'w')` replaces a file's previous contents.
- `sys.getsizeof` becomes a parameter `sizeOf: Dict -> int` of `Spimi`. Every property is proved for any such function.

## Model

| member | source | states |
|---|---|---|
| Spimi.BlocksDirectory.constructor | source/spimi.py:8 | the blocks directory starts with the given files |
| Spimi.SPIMI.constructor | source/spimi.py:11-16 | keeps the data file name and the block limit, with 10000 as the default limit |
| Spimi.SPIMI.WriteBlockToDisk | source/spimi.py:24-37 | returns `block_name + str(block_number) + ".txt"`; that file now holds exactly the block's records and no other file changes |
| Spimi.SPIMI.RecordLines | source/spimi.py:30-35 | the loop writes one record `(term, dictionary[term])` per key, in the order of the keys it is given |
| Spimi.SPIMI.Spimi | source/spimi.py:39-84 | returns the number of blocks of the run; the directory is the old one plus exactly those blocks, under `block0.txt`, `block1.txt`, ...; every block file is sorted and well formed, and together the files record every occurrence of every term, per song, exactly once |
| Spimi.SPIMI.IndexSongs | source/spimi.py:54-77 | the song loop: the counter equals the number of blocks written; the blocks written plus the dictionary left over continue the run of all the tokens |
| Spimi.SPIMI.IndexSong | source/spimi.py:57-77 | the token loop of one song continues the same run as taking the song's tokens one by one |
| Spimi.SPIMI.IndexToken | source/spimi.py:61-77 | over the limit: the updated dictionary is written as the next block, the counter goes up by one and the dictionary is empty; otherwise nothing is written and the dictionary is the updated one |
| Spimi.SPIMI.WriteNextBlock | source/spimi.py:75-76 | `write_block_to_disk(dictionary, "block", block_number)` makes the dictionary the next block of the directory, after the blocks already written |
| Spimi.SPIMI.AddPosting | source/spimi.py:61-72 | the in-place update yields the dictionary `AddToken` specifies |
| Postings.Put | source/spimi.py:63 | dict assignment: the entry is replaced; an existing key keeps its place and a new key goes last |
| Postings.AddToken | source/spimi.py:61-72 | a new term gets `[(doc, 1)]` and goes last; a known term keeps its place and takes `doc` as `AddDoc` says; the key set grows by the token only; every other entry is unchanged |
| Postings.AddTokenEmpty | source/spimi.py:62-63 | the empty dictionary takes a token as the one-entry dictionary `{token: [(doc, 1)]}` |
| Postings.AddDoc | source/spimi.py:65-72 | same last doc: same length, same earlier postings, last frequency raised by exactly 1; other doc: one posting `(doc, 1)` appended after the unchanged list |
| Postings.AddDocWellFormed | source/spimi.py:67-70 | a postings list with frequencies at least 1 and no two neighbouring postings for one song keeps both properties |
| Postings.AddTokenWellFormed | source/spimi.py:61-72 | taking a token keeps every postings list of the dictionary well formed |
| Postings.TfSumPositive | source/spimi.py:63 | a well-formed postings list records at least one occurrence per posting |
| Postings.AddDocSums | source/spimi.py:65-70 | taking a song into a postings list adds exactly one occurrence, for that song |
| Postings.AddTokenCounts | source/spimi.py:61-72 | taking a token adds exactly one occurrence of that token in that song; no other count moves |
| Blocks.RecordsFor | source/spimi.py:31-35 | record `i` pairs key `i` with its postings list |
| Blocks.KeyOrder | source/spimi.py:30-34 | the keys are visited once each, all of them and only them: in insertion order (`dictionary.keys()`) when `is_sorted`, in strictly ascending order otherwise |
| Blocks.BlockRecords | source/spimi.py:29-35 | a block file holds one record per key, each with its own postings list: in insertion order when `is_sorted`, in strictly ascending term order otherwise |
| Blocks.SortedBlock | source/spimi.py:33-35 | a block written without `is_sorted` lists every key exactly once, in strictly ascending order, each with its own postings list |
| Blocks.BlockRecordsTf | source/spimi.py:29-35 | the records of a block hold, term by term and song by song, the frequencies of the dictionary |
| Terms.Sort | source/spimi.py:34 | `sorted`: the result is ascending and a permutation of the input |
| Terms.SortDistinct | source/spimi.py:34 | sorting keys without repetitions yields a strictly ascending list of the same keys |
| Terms.Less | source/spimi.py:34 | Python's `<` on strings, the order `sorted` uses: no string is below itself |
| Terms.LessPrefix | source/spimi.py:34 | a proper prefix comes before the longer string |
| Terms.LessTotal | source/spimi.py:34 | any two different strings are ordered one way or the other |
| Numerals.NatToString | source/spimi.py:29 | `str(n)`: decimal digits without a leading zero |
| Numerals.ParseNatToString | source/spimi.py:29 | reading `str(n)` back gives `n` |
| Numerals.NatToStringInjective | source/spimi.py:29 | different block numbers have different decimal forms |
| Numerals.BlockFileName | source/spimi.py:29 | the file name starts with the block name and ends in `.txt` |
| Numerals.BlockFileNameInjective | source/spimi.py:29 | different block numbers are written to different files |
| Stream.SongOccurrences | source/spimi.py:58-61 | the tokens of a song, each tagged with the song's `track_id`, in order |
| Stream.Flatten | source/spimi.py:57-61 | the token stream the two nested loops walk: one occurrence per token of every song, the first song's tokens first and in order |
| Stream.FlattenCount | source/spimi.py:57-61 | the stream the loops walk holds every token of every song, per term and per song, and nothing else |
| BlockRun.Run | source/spimi.py:54-82 | the dictionaries flushed: each a valid dict, none empty |
| BlockRun.RunStep | source/spimi.py:61-77 | one token after the blocks already written: taken into the dictionary, which then becomes the next block and is reset if over the limit and is kept otherwise |
| BlockRun.RunWellFormed | source/spimi.py:61-77 | every flushed dictionary has frequencies at least 1 and no two neighbouring postings for one song |
| BlockRun.RunLength | source/spimi.py:74-82 | at most one block per token, plus one for a non-empty starting dictionary |
| BlockRun.RunFlushesOverLimit | source/spimi.py:74-77 | every block but the last was written because its size exceeded the limit |
| BlockRun.RunCounts | source/spimi.py:57-82 | the flushed dictionaries together hold exactly the starting dictionary's occurrences plus the stream's, per term and per song, however the flushes cut through a song |
| BlockRun.RunWithoutFlush | source/spimi.py:74-82 | when the size never exceeds the limit, all tokens end up in one block written at the end, and none for no tokens |
| BlockRun.Singles | source/spimi.py:74-77 | one single-occurrence dictionary per token, in order |
| BlockRun.RunFlushEveryToken | source/spimi.py:74-77 | when every non-empty dictionary exceeds the limit, each token is written as a block of its own |
| BlockRun.FlushFirstToken | source/spimi.py:62-77 | a first token that puts the empty dictionary over the limit is written as a block by itself |
| BlockRun.WithBlocks | source/spimi.py:75-82 | the blocks directory after the blocks are written as `block0.txt`, `block1.txt`, ... in turn; no file already there is removed (`WrittenBlock` and `OtherFilesKept` state the rest) |
| BlockRun.WithBlocksAppend | source/spimi.py:75-76 | writing one more block puts it under the next number |
| BlockRun.WrittenBlock | source/spimi.py:75-82 | block `i` is found in `block<i>.txt`; no later block overwrites it |
| BlockRun.OtherFilesKept | source/spimi.py:29 | files that are not block files of the run are left as they were |
| BlockRun.FilesOfBlocks | source/spimi.py:75-82 | the first `n` block files together record the frequencies of the first `n` blocks |
| BlockRun.BlockFileTf | source/spimi.py:29-35 | the file of block `i` records, per term and per song, the frequencies block `i` held |
| BlockRun.SpimiCounts | source/spimi.py:57-82 | the block files of a run record, per term and per song, exactly the occurrences in the songs |
| BlockRun.BlockFile | source/spimi.py:29-35 | the file of a well-formed block is present, strictly ascending, with well-formed postings lists |
| BlockRun.SpimiBlockFiles | source/spimi.py:54-82 | after a run every `block<i>.txt` is present, strictly ascending and well formed |
| BlockRun.SpimiOutput | source/spimi.py:54-84 | the block files of a run index the songs: sorted, well formed, and recording every occurrence exactly once |

## Left out

- Loading the preprocessed JSON file (`load_preprocessed_data`, `source/spimi.py:18-22`) is I/O. The songs are the parameter `data` of `Spimi`, and `fileNamePreprocessed` is only stored.
- Creating the blocks directory (`os.makedirs`) and the `BLOCKS_DIR` path prefix are left out. File names are relative to the blocks directory, which is the `BlocksDirectory` object.
- The text serialisation `str((term, postings_list)) + '\n'` of a record is left out. Records are kept as structured `Record` values.
- `sys.getsizeof` is specific to the Python runtime. It is the parameter `sizeOf`, and nothing is assumed about it.
- `source/preprocessor.py` (tokenisation, stop words and stemming through NLTK and pandas) is not part of this model.
- `source/execution_time.py` (a wall-clock timing decorator) is not part of this model.
- `source/index_inverted.py` is not part of this model. It calls a `start` method that `SPIMI` does not define.
- The `__main__` example (`source/spimi.py:86-88`) prints, so it is not modelled.
- `Spimi.SPIMI.WriteBlockToDisk` takes `blockNumber` as a `nat`, because the builder only passes the counter, which starts at 0 and only grows. Python's `str` of a negative number is not modelled.
- `Spimi.SPIMI.IndexSongs`, `Spimi.SPIMI.IndexSong`, `Spimi.SPIMI.IndexToken` and `Spimi.SPIMI.WriteNextBlock` cut `spimi`'s nested loop into separate methods. The loops, and the order in which they write blocks, are the same.
- `Postings.AddDocWellFormed` proves that neighbouring postings are for different songs, not that a term's postings are for pairwise different songs. The second holds only when each `track_id` occurs in one song, which the data does not promise.
- Postings and dictionaries are values. Python's aliasing of `postings_list` with `dictionary[token]` has no effect here, because the list is assigned back at `source/spimi.py:72`.
