/**
 The input of the block builder: the preprocessed songs, each a `track_id`
 with its list of tokens, read one token at a time in file order.
 */
module Stream {
  import opened Terms
  import opened Postings

  /** One entry `{"track_id": ..., "track_processed": [...]}` of the preprocessed data. */
  datatype Song = Song(trackId: DocId, tokens: seq<Term>)

  /** One token together with the song it occurs in. */
  datatype Occurrence = Occurrence(term: Term, doc: DocId)

  /** The tokens of one song, tagged with its `track_id`. */
  function SongOccurrences(doc: DocId, tokens: seq<Term>): (r: seq<Occurrence>)
    ensures |r| == |tokens|
    ensures forall i :: 0 <= i < |r| ==> r[i] == Occurrence(tokens[i], doc)
  {
    if tokens == [] then [] else [Occurrence(tokens[0], doc)] + SongOccurrences(doc, tokens[1..])
  }

  /** How many tokens the songs hold together. */
  function TokenTotal(data: seq<Song>): nat
  {
    if data == [] then 0 else |data[0].tokens| + TokenTotal(data[1..])
  }

  /**
   Every token of every song, in the order the two nested loops visit them:
   one occurrence per token, the first song's tokens first and in order.
   */
  function Flatten(data: seq<Song>): (r: seq<Occurrence>)
    ensures |r| == TokenTotal(data)
    ensures data != [] ==>
      forall k :: 0 <= k < |data[0].tokens| ==> r[k] == Occurrence(data[0].tokens[k], data[0].trackId)
  {
    if data == [] then [] else SongOccurrences(data[0].trackId, data[0].tokens) + Flatten(data[1..])
  }

  /** How often `t` occurs in a token list. */
  function CountIn(tokens: seq<Term>, t: Term): nat
  {
    if tokens == [] then 0 else (if tokens[0] == t then 1 else 0) + CountIn(tokens[1..], t)
  }

  /** How often `t` occurs over all songs. */
  function TermOccurrences(data: seq<Song>, t: Term): nat
  {
    if data == [] then 0 else CountIn(data[0].tokens, t) + TermOccurrences(data[1..], t)
  }

  /** How often `t` occurs over the songs whose `track_id` is `doc`. */
  function DocOccurrences(data: seq<Song>, t: Term, doc: DocId): nat
  {
    if data == [] then 0
    else (if data[0].trackId == doc then CountIn(data[0].tokens, t) else 0) + DocOccurrences(data[1..], t, doc)
  }

  /** How many occurrences in the stream are of `t`. */
  function Count(stream: seq<Occurrence>, t: Term): nat
  {
    if stream == [] then 0 else (if stream[0].term == t then 1 else 0) + Count(stream[1..], t)
  }

  /** How many occurrences in the stream are of `t` in document `doc`. */
  function DocCount(stream: seq<Occurrence>, t: Term, doc: DocId): nat
  {
    if stream == [] then 0
    else (if stream[0] == Occurrence(t, doc) then 1 else 0) + DocCount(stream[1..], t, doc)
  }

  lemma {:induction false} CountAppend(a: seq<Occurrence>, b: seq<Occurrence>, t: Term, doc: DocId)
    ensures Count(a + b, t) == Count(a, t) + Count(b, t)
    ensures DocCount(a + b, t, doc) == DocCount(a, t, doc) + DocCount(b, t, doc)
    decreases |a|
  {
    if a != [] {
      assert (a + b)[1..] == a[1..] + b;
      CountAppend(a[1..], b, t, doc);
    } else {
      assert a + b == b;
    }
  }

  lemma {:induction false} SongCount(doc: DocId, tokens: seq<Term>, t: Term, other: DocId)
    ensures Count(SongOccurrences(doc, tokens), t) == CountIn(tokens, t)
    ensures DocCount(SongOccurrences(doc, tokens), t, other) == if doc == other then CountIn(tokens, t) else 0
    decreases |tokens|
  {
    if tokens != [] {
      SongCount(doc, tokens[1..], t, other);
    }
  }

  /** The stream holds every token of every song, and nothing else. */
  lemma {:induction false} FlattenCount(data: seq<Song>, t: Term, doc: DocId)
    ensures Count(Flatten(data), t) == TermOccurrences(data, t)
    ensures DocCount(Flatten(data), t, doc) == DocOccurrences(data, t, doc)
    decreases |data|
  {
    if data != [] {
      var song := data[0];
      CountAppend(SongOccurrences(song.trackId, song.tokens), Flatten(data[1..]), t, doc);
      SongCount(song.trackId, song.tokens, t, doc);
      FlattenCount(data[1..], t, doc);
    }
  }

  /** The tokens of a song from position `j` on start with token `j`. */
  lemma SongOccurrencesFrom(doc: DocId, tokens: seq<Term>, j: nat, later: seq<Occurrence>)
    requires j < |tokens|
    ensures SongOccurrences(doc, tokens[j..]) + later
         == [Occurrence(tokens[j], doc)] + (SongOccurrences(doc, tokens[j + 1..]) + later)
  {
    assert tokens[j..][1..] == tokens[j + 1..];
  }

  /** The stream from song `s` on starts with the tokens of song `s`. */
  lemma FlattenFrom(data: seq<Song>, s: nat)
    requires s < |data|
    ensures Flatten(data[s..]) == SongOccurrences(data[s].trackId, data[s].tokens) + Flatten(data[s + 1..])
  {
    assert data[s..][1..] == data[s + 1..];
  }
}
