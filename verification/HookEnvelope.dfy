/**
 The metadata envelope of pay and cash out hooks
 (`parseHookMetadataEnvelope`, web/src/components/TransactionReviewProvider.tsx:731-771).
 */
module HookEnvelope {
  import opened Prelude

  /*
   A reserved word, a word-padded table of 5-byte entries, and word-aligned payloads. `Build`
   writes the layout down; the parser accepts exactly what `Build` makes and gives back what it was
   made of. Bytes are numbers; the hex text of the source is one digit pair a byte and 64 digits a
   word.
   */

  type Bytes = seq<nat>
  type Word = w: Bytes | |w| == 32 witness seq(32, _ => 0)
  datatype Entry = Entry(id: Bytes, payload: seq<Word>)
  datatype Envelope = Envelope(reserved: Word, entries: seq<Entry>)

  // A metadata argument: no text of hex digit pairs, pairs that do not fill words, or words.
  datatype Value = NotHex | Ragged(bytes: Bytes) | Body(words: seq<Word>)

  // ---------------------------------------------------------------- bytes and words

  function Flatten(words: seq<Word>): (b: Bytes)
    ensures |b| == 32 * |words|
  {
    if words == [] then [] else words[0] + Flatten(words[1..])
  }

  function Split(b: Bytes, n: nat): (words: seq<Word>)
    requires |b| == 32 * n
    ensures |words| == n
  {
    if n == 0 then [] else [b[..32]] + Split(b[32..], n - 1)
  }

  lemma {:induction false} SplitFlatten(words: seq<Word>)
    ensures Split(Flatten(words), |words|) == words
  {
    if words != [] {
      SplitFlatten(words[1..]);
      assert Flatten(words)[..32] == words[0] && Flatten(words)[32..] == Flatten(words[1..]);
    }
  }

  lemma {:induction false} FlattenSplit(b: Bytes, n: nat)
    requires |b| == 32 * n
    ensures Flatten(Split(b, n)) == b
  {
    if n > 0 {
      FlattenSplit(b[32..], n - 1);
      assert Split(b, n)[1..] == Split(b[32..], n - 1);
    }
  }

  // ---------------------------------------------------------------- the layout

  predicate Zero(b: Bytes) { forall i | 0 <= i < |b| :: b[i] == 0 }

  function Zeros(n: nat): (b: Bytes)
    ensures |b| == n && Zero(b)
  {
    seq(n, _ => 0)
  }

  // The words of a table of `n` entries: as many as hold them, none spare.
  function TableWords(n: nat): (w: nat)
    ensures 5 * n <= 32 * w < 5 * n + 32
  {
    if n == 0 then 0
    else
      var w := TableWords(n - 1);
      if 5 * n <= 32 * w then w else w + 1
  }

  function PayloadWords(entries: seq<Entry>): nat {
    if entries == [] then 0 else |entries[0].payload| + PayloadWords(entries[1..])
  }

  // The table entries, when the first payload starts at word `start`.
  function Chunks(entries: seq<Entry>, start: nat): Bytes {
    if entries == [] then [] else entries[0].id + [start] + Chunks(entries[1..], start + |entries[0].payload|)
  }

  function Payloads(entries: seq<Entry>): (words: seq<Word>)
    ensures |words| == PayloadWords(entries)
  {
    if entries == [] then [] else entries[0].payload + Payloads(entries[1..])
  }

  predicate WellFormedEntry(e: Entry) { |e.id| == 4 && !Zero(e.id) && e.payload != [] }

  predicate AllWellFormed(entries: seq<Entry>) { forall k | 0 <= k < |entries| :: WellFormedEntry(entries[k]) }

  function First(entries: seq<Entry>): nat { 1 + TableWords(|entries|) }

  // The offset of entry `i`.
  function Offset(entries: seq<Entry>, start: nat, i: nat): nat
    requires i <= |entries|
  {
    start + PayloadWords(entries[..i])
  }

  // Every offset fits the one byte it is written in.
  predicate WellFormed(e: Envelope) {
    e.entries != [] && AllWellFormed(e.entries) && Offset(e.entries, First(e.entries), |e.entries| - 1) < 256
  }

  lemma {:induction false} ChunksSize(entries: seq<Entry>, start: nat)
    requires AllWellFormed(entries)
    ensures |Chunks(entries, start)| == 5 * |entries|
  {
    if entries != [] {
      ChunksSize(entries[1..], start + |entries[0].payload|);
    }
  }

  function TableBytes(entries: seq<Entry>): (b: Bytes)
    requires AllWellFormed(entries)
    ensures |b| == 32 * TableWords(|entries|)
  {
    ChunksSize(entries, First(entries));
    Chunks(entries, First(entries)) + Zeros(32 * TableWords(|entries|) - 5 * |entries|)
  }

  function Build(e: Envelope): seq<Word>
    requires WellFormed(e)
  {
    [e.reserved] + Split(TableBytes(e.entries), TableWords(|e.entries|)) + Payloads(e.entries)
  }

  // ---------------------------------------------------------------- reading the layout

  // Table entry `i` of a table.
  predicate HasChunk(table: Bytes, i: nat, id: Bytes, offset: nat) {
    |table| >= 5 * i + 5 && table[5 * i..5 * i + 4] == id && table[5 * i + 4] == offset
  }

  lemma {:induction false} ChunkAt(entries: seq<Entry>, start: nat, i: nat)
    requires AllWellFormed(entries) && i < |entries|
    ensures HasChunk(Chunks(entries, start), i, entries[i].id, Offset(entries, start, i))
  {
    ChunksSize(entries, start);
    var next := start + |entries[0].payload|;
    var head, tail := entries[0].id + [start], Chunks(entries[1..], next);
    assert Chunks(entries, start) == head + tail && |head| == 5;
    if i == 0 {
      assert entries[..0] == [] && (head + tail)[0..4] == entries[0].id;
    } else {
      ChunkAt(entries[1..], next, i - 1);
      assert entries[..i][1..] == entries[1..][..i - 1];
      assert (head + tail)[5 * i..5 * i + 4] == tail[5 * (i - 1)..5 * (i - 1) + 4];
    }
  }

  // Payload `i` sits between its offset and the next one.
  lemma {:induction false} PayloadAt(entries: seq<Entry>, i: nat)
    requires AllWellFormed(entries) && i < |entries|
    ensures PayloadWords(entries[..i]) < PayloadWords(entries[..i + 1]) <= PayloadWords(entries)
    ensures Payloads(entries)[PayloadWords(entries[..i])..PayloadWords(entries[..i + 1])] == entries[i].payload
  {
    var rest := entries[1..];
    assert entries[..i + 1][1..] == rest[..i];
    if i == 0 {
      assert entries[..0] == [] && rest[..0] == [];
    } else {
      PayloadAt(rest, i - 1);
      assert entries[..i][1..] == rest[..i - 1];
      var head := entries[0].payload;
      var a, c := PayloadWords(rest[..i - 1]), PayloadWords(rest[..i]);
      assert (head + Payloads(rest))[|head| + a..|head| + c] == Payloads(rest)[a..c];
    }
  }

  // The bytes of the table area of some words.
  function TableArea(words: seq<Word>, tableWords: nat): Bytes
    requires 1 + tableWords <= |words|
  {
    Flatten(words[1..1 + tableWords])
  }

  lemma BuiltTable(e: Envelope)
    requires WellFormed(e)
    ensures |Build(e)| == First(e.entries) + PayloadWords(e.entries)
    ensures TableArea(Build(e), TableWords(|e.entries|)) == TableBytes(e.entries)
    ensures Build(e)[0] == e.reserved && Build(e)[First(e.entries)..] == Payloads(e.entries)
  {
    var n := TableWords(|e.entries|);
    assert Build(e)[1..1 + n] == Split(TableBytes(e.entries), n);
    FlattenSplit(TableBytes(e.entries), n);
  }

  lemma BuiltChunk(e: Envelope, i: nat)
    requires WellFormed(e) && i < |e.entries|
    ensures HasChunk(TableBytes(e.entries), i, e.entries[i].id, Offset(e.entries, First(e.entries), i))
  {
    var start := First(e.entries);
    ChunksSize(e.entries, start);
    ChunkAt(e.entries, start, i);
    assert TableBytes(e.entries)[5 * i..5 * i + 4] == Chunks(e.entries, start)[5 * i..5 * i + 4];
  }

  lemma BuiltPadding(entries: seq<Entry>)
    requires AllWellFormed(entries)
    ensures Zero(TableBytes(entries)[5 * |entries|..])
  {
    ChunksSize(entries, First(entries));
    assert TableBytes(entries)[5 * |entries|..] == Zeros(32 * TableWords(|entries|) - 5 * |entries|);
  }

  lemma FirstWord(words: seq<Word>, tableWords: nat)
    requires 1 <= tableWords < |words|
    ensures words[1] == TableArea(words, tableWords)[..32]
  {
  }

  // The first table word tells where the payloads start.
  lemma BuiltFirst(e: Envelope)
    requires WellFormed(e)
    ensures 1 <= TableWords(|e.entries|) && First(e.entries) < |Build(e)| && Build(e)[1][4] == First(e.entries)
  {
    BuiltTable(e);
    BuiltChunk(e, 0);
    PayloadAt(e.entries, 0);
    assert e.entries[..0] == [];
    FirstWord(Build(e), TableWords(|e.entries|));
  }

  // ---------------------------------------------------------------- from what is found to the envelope

  // An entry as the table loop finds it.
  datatype Found = Found(id: Bytes, offset: nat)

  function SegmentEnd(words: seq<Word>, found: seq<Found>, i: nat): nat
    requires i < |found|
  {
    if i + 1 < |found| then found[i + 1].offset else |words|
  }

  predicate Ascending(found: seq<Found>) { forall i | 0 < i < |found| :: found[i - 1].offset < found[i].offset }

  // Offsets ascend and leave every payload at least one word.
  predicate Tiles(words: seq<Word>, found: seq<Found>) {
    Ascending(found) && forall i | 0 <= i < |found| ::
      |found[i].id| == 4 && !Zero(found[i].id) && found[i].offset < |words|
  }

  lemma SegmentBounds(words: seq<Word>, found: seq<Found>, i: nat)
    requires Tiles(words, found) && i < |found|
    ensures found[i].offset < SegmentEnd(words, found, i) <= |words|
  {
    assert i + 1 < |found| ==> found[i + 1 - 1].offset < found[i + 1].offset;
  }

  function Segment(words: seq<Word>, found: seq<Found>, i: nat): Entry
    requires Tiles(words, found) && i < |found|
  {
    SegmentBounds(words, found, i);
    Entry(found[i].id, words[found[i].offset..SegmentEnd(words, found, i)])
  }

  function Segments(words: seq<Word>, found: seq<Found>): (entries: seq<Entry>)
    requires Tiles(words, found)
    ensures |entries| == |found| && AllWellFormed(entries)
  {
    seq(|found|, i requires 0 <= i < |found| => (SegmentBounds(words, found, i); Segment(words, found, i)))
  }

  predicate TableHolds(table: Bytes, found: seq<Found>) {
    forall k | 0 <= k < |found| :: HasChunk(table, k, found[k].id, found[k].offset)
  }

  lemma {:induction false} PayloadsLast(entries: seq<Entry>)
    requires entries != []
    ensures Payloads(entries) == Payloads(entries[..|entries| - 1]) + entries[|entries| - 1].payload
  {
    if |entries| > 1 {
      PayloadsLast(entries[1..]);
      assert entries[1..][..|entries| - 2] == entries[..|entries| - 1][1..];
      assert entries[1..][|entries| - 2] == entries[|entries| - 1] && entries[..|entries| - 1][0] == entries[0];
    } else {
      assert entries[1..] == [] && entries[..0] == [];
    }
  }

  // The first `i` segments are the words up to where the next one starts.
  lemma {:induction false} SegmentsTile(words: seq<Word>, found: seq<Found>, i: nat)
    requires Tiles(words, found) && 0 < i <= |found|
    ensures found[0].offset < SegmentEnd(words, found, i - 1) <= |words|
    ensures Payloads(Segments(words, found)[..i]) == words[found[0].offset..SegmentEnd(words, found, i - 1)]
  {
    var entries := Segments(words, found);
    SegmentBounds(words, found, i - 1);
    PayloadsLast(entries[..i]);
    assert entries[..i][..i - 1] == entries[..i - 1] && entries[i - 1] == Segment(words, found, i - 1);
    if i == 1 {
      assert entries[..0] == [];
    } else {
      SegmentsTile(words, found, i - 1);
    }
  }

  // Two tables which hold the same entries start alike.
  lemma {:induction false} SameChunks(a: Bytes, b: Bytes, found: seq<Found>, n: nat)
    requires n <= |found| && |a| >= 5 * n && |b| >= 5 * n && TableHolds(a, found) && TableHolds(b, found)
    ensures a[..5 * n] == b[..5 * n]
  {
    if n > 0 {
      SameChunks(a, b, found, n - 1);
      var k := n - 1;
      assert HasChunk(a, k, found[k].id, found[k].offset) && HasChunk(b, k, found[k].id, found[k].offset);
      assert a[..5 * n] == a[..5 * k] + a[5 * k..5 * k + 4] + [a[5 * k + 4]];
      assert b[..5 * n] == b[..5 * k] + b[5 * k..5 * k + 4] + [b[5 * k + 4]];
    }
  }

  lemma SegmentChunks(words: seq<Word>, table: Bytes, found: seq<Found>)
    requires Tiles(words, found) && found != [] && |table| >= 5 * |found| && TableHolds(table, found)
    ensures Chunks(Segments(words, found), found[0].offset) == table[..5 * |found|]
  {
    var entries, start := Segments(words, found), found[0].offset;
    var chunks := Chunks(entries, start);
    ChunksSize(entries, start);
    forall k | 0 <= k < |found| ensures HasChunk(chunks, k, found[k].id, found[k].offset) {
      ChunkAt(entries, start, k);
      SegmentOffset(words, found, k);
    }
    SameChunks(chunks, table, found, |found|);
  }

  // The offsets of the segments are the ones that were found.
  lemma SegmentOffset(words: seq<Word>, found: seq<Found>, k: nat)
    requires Tiles(words, found) && k < |found|
    ensures Offset(Segments(words, found), found[0].offset, k) == found[k].offset
    ensures Segments(words, found)[k].id == found[k].id
  {
    if k == 0 {
      assert Segments(words, found)[..0] == [];
    } else {
      SegmentsTile(words, found, k);
    }
  }

  lemma {:induction false} RebuiltTable(entries: seq<Entry>, n: nat, table: Bytes)
    requires AllWellFormed(entries) && |entries| == n && |table| == 32 * TableWords(n)
    requires Chunks(entries, 1 + TableWords(n)) == table[..5 * n] && Zero(table[5 * n..])
    ensures TableBytes(entries) == table
  {
    assert table == table[..5 * n] + table[5 * n..];
    assert table[5 * n..] == Zeros(32 * TableWords(n) - 5 * n);
  }

  lemma RebuiltWords(words: seq<Word>, e: Envelope)
    requires WellFormed(e) && First(e.entries) <= |words| && words[0] == e.reserved
    requires TableArea(words, TableWords(|e.entries|)) == TableBytes(e.entries)
    requires Payloads(e.entries) == words[First(e.entries)..]
    ensures Build(e) == words
  {
    var tableWords := TableWords(|e.entries|);
    SplitFlatten(words[1..1 + tableWords]);
    assert words == [words[0]] + words[1..1 + tableWords] + words[1 + tableWords..];
  }

  // The checks on the offsets: what sized the table is the number of entries, and payloads tile.
  ghost predicate Fits(words: seq<Word>, found: seq<Found>) {
    && Tiles(words, found) && found != [] && found[|found| - 1].offset < 256
    && found[0].offset == 1 + TableWords(|found|)
  }

  lemma FitsWellFormed(words: seq<Word>, found: seq<Found>)
    requires Fits(words, found)
    ensures WellFormed(Envelope(words[0], Segments(words, found))) && First(Segments(words, found)) == found[0].offset
  {
    SegmentOffset(words, found, |found| - 1);
  }

  lemma {:induction false} FitsTable(words: seq<Word>, table: Bytes, found: seq<Found>)
    requires Tiles(words, found) && found != [] && found[0].offset == 1 + TableWords(|found|)
    requires |table| == 32 * TableWords(|found|) && TableHolds(table, found) && Zero(table[5 * |found|..])
    ensures TableBytes(Segments(words, found)) == table
  {
    SegmentChunks(words, table, found);
    RebuiltTable(Segments(words, found), |found|, table);
  }

  lemma FitsPayloads(words: seq<Word>, found: seq<Found>)
    requires Fits(words, found)
    ensures Payloads(Segments(words, found)) == words[found[0].offset..]
  {
    SegmentsTile(words, found, |found|);
    assert Segments(words, found)[..|found|] == Segments(words, found);
  }

  /** What passes every check of the parser is built from its segments. */
  lemma {:induction false} AcceptedIsBuilt(words: seq<Word>, found: seq<Found>)
    requires Fits(words, found) && TableHolds(TableArea(words, TableWords(|found|)), found)
    requires Zero(TableArea(words, TableWords(|found|))[5 * |found|..])
    ensures var e := Envelope(words[0], Segments(words, found)); WellFormed(e) && Build(e) == words
  {
    FitsWellFormed(words, found);
    FitsTable(words, TableArea(words, TableWords(|found|)), found);
    FitsPayloads(words, found);
    RebuiltWords(words, Envelope(words[0], Segments(words, found)));
  }

  // ---------------------------------------------------------------- from an envelope to what is found

  // `entries` were written into this table.
  ghost predicate Written(entries: seq<Entry>, table: Bytes) {
    entries != [] && AllWellFormed(entries) && TableBytes(entries) == table
  }

  // What was found so far are the first of these entries.
  ghost predicate Agrees(entries: seq<Entry>, found: seq<Found>) {
    |found| <= |entries| && forall k | 0 <= k < |found| ::
      found[k] == Found(entries[k].id, Offset(entries, First(entries), k))
  }

  lemma WrittenChunk(entries: seq<Entry>, table: Bytes, k: nat)
    requires Written(entries, table)
    ensures k < |entries| ==>
        HasChunk(table, k, entries[k].id, Offset(entries, First(entries), k)) && !Zero(table[5 * k..5 * k + 4])
    ensures k == |entries| ==> Zero(table[5 * k..]) && 5 * k <= |table|
  {
    ChunksSize(entries, First(entries));
    if k < |entries| {
      ChunkAt(entries, First(entries), k);
      assert table[5 * k..5 * k + 4] == Chunks(entries, First(entries))[5 * k..5 * k + 4];
    } else {
      BuiltPadding(entries);
    }
  }

  lemma ZeroPart(b: Bytes, i: nat, j: nat, k: nat)
    requires i <= j <= k <= |b| && Zero(b[i..])
    ensures Zero(b[j..k])
  {
    forall m | 0 <= m < k - j ensures b[j..k][m] == 0 {
      assert b[i..][j - i + m] == 0;
    }
  }

  // The next chunk of a written table is its next entry, or it is the padding.
  lemma NextChunk(entries: seq<Entry>, table: Bytes, found: seq<Found>, id: Bytes, offset: nat)
    requires Written(entries, table) && Agrees(entries, found) && HasChunk(table, |found|, id, offset)
    ensures |found| < |entries| ==> !Zero(id) && Agrees(entries, found + [Found(id, offset)])
    ensures |found| == |entries| ==> Zero(id) && offset == 0
  {
    var k := |found|;
    WrittenChunk(entries, table, k);
    if k == |entries| {
      ZeroPart(table, 5 * k, 5 * k, 5 * k + 4);
      assert table[5 * k..][4] == 0;
    }
  }

  ghost predicate AgreesWithAll(table: Bytes, found: seq<Found>) {
    forall truth | Written(truth, table) :: Agrees(truth, found)
  }

  // A zero chunk ends every reading of the table; any other chunk is the next entry of all.
  lemma ChunkStep(table: Bytes, found: seq<Found>, id: Bytes, offset: nat)
    requires AgreesWithAll(table, found) && HasChunk(table, |found|, id, offset)
    ensures Zero(id) ==> forall truth | Written(truth, table) :: |found| == |truth| && offset == 0
    ensures !Zero(id) ==> AgreesWithAll(table, found + [Found(id, offset)])
  {
    forall truth | Written(truth, table)
      ensures Zero(id) ==> |found| == |truth| && offset == 0
      ensures !Zero(id) ==> Agrees(truth, found + [Found(id, offset)])
    {
      NextChunk(truth, table, found, id, offset);
    }
  }

  lemma ChunksEnd(table: Bytes, found: seq<Found>)
    requires AgreesWithAll(table, found)
    requires 5 * |found| + 5 <= |table| ==> Zero(table[5 * |found|..5 * |found| + 4])
    ensures forall truth | Written(truth, table) :: |found| == |truth|
  {
    forall truth | Written(truth, table) ensures |found| == |truth| {
      WrittenChunk(truth, table, |found|);
    }
  }

  /** The table loop: entry by entry until a chunk is all zero or the table ends. */
  method ParseTable(table: Bytes) returns (found: Option<seq<Found>>)
    ensures found.Some? ==> 5 * |found.value| <= |table| && TableHolds(table, found.value)
    ensures found.Some? ==> forall k | 0 <= k < |found.value| :: |found.value[k].id| == 4 && !Zero(found.value[k].id)
    ensures forall entries | Written(entries, table) ::
        found.Some? && |found.value| == |entries| && Agrees(entries, found.value)
  {
    var entries: seq<Found> := [];
    while 5 * |entries| + 5 <= |table|
      invariant 5 * |entries| <= |table| && TableHolds(table, entries)
      invariant forall k | 0 <= k < |entries| :: |entries[k].id| == 4 && !Zero(entries[k].id)
      invariant AgreesWithAll(table, entries)
      decreases |table| - 5 * |entries|
    {
      var cursor := 5 * |entries|;
      var id, offset := table[cursor..cursor + 4], table[cursor + 4];
      ChunkStep(table, entries, id, offset);
      if Zero(id) && offset == 0 { break; }
      if Zero(id) { return None; }
      entries := entries + [Found(id, offset)];
    }
    ChunksEnd(table, entries);
    found := Some(entries);
  }

  lemma {:induction false} OffsetsAscend(entries: seq<Entry>, start: nat, i: nat)
    requires AllWellFormed(entries) && i < |entries|
    ensures start + PayloadWords(entries) > Offset(entries, start, i)
    ensures i > 0 ==> Offset(entries, start, i - 1) < Offset(entries, start, i)
  {
    PayloadAt(entries, i);
    if i > 0 {
      PayloadAt(entries, i - 1);
    }
  }

  // The segments of a built envelope are its entries.
  lemma BuiltSegments(e: Envelope, found: seq<Found>)
    requires WellFormed(e) && Agrees(e.entries, found) && |found| == |e.entries|
    ensures Fits(Build(e), found) && Envelope(Build(e)[0], Segments(Build(e), found)) == e
  {
    var words, start := Build(e), First(e.entries);
    BuiltTable(e);
    forall i | 0 <= i < |found|
      ensures |found[i].id| == 4 && !Zero(found[i].id) && found[i].offset < |words|
      ensures i > 0 ==> found[i - 1].offset < found[i].offset
    {
      OffsetsAscend(e.entries, start, i);
    }
    assert e.entries[..0] == [];
    assert Tiles(words, found);
    forall i | 0 <= i < |found| ensures Segment(words, found, i) == e.entries[i] {
      BuiltSegment(e, found, i);
    }
    assert Segments(words, found) == e.entries;
  }

  lemma BuiltSegment(e: Envelope, found: seq<Found>, i: nat)
    requires WellFormed(e) && Agrees(e.entries, found) && |found| == |e.entries| && i < |found|
    requires Tiles(Build(e), found)
    ensures Segment(Build(e), found, i) == e.entries[i]
  {
    var words, start := Build(e), First(e.entries);
    var a, c := PayloadWords(e.entries[..i]), PayloadWords(e.entries[..i + 1]);
    BuiltEnd(e, found, i);
    PayloadAt(e.entries, i);
    BuiltTable(e);
    SegmentSlice(words, found, i, start, a, c, Payloads(e.entries));
  }

  lemma BuiltEnd(e: Envelope, found: seq<Found>, i: nat)
    requires WellFormed(e) && Agrees(e.entries, found) && |found| == |e.entries| && i < |found|
    ensures SegmentEnd(Build(e), found, i) == First(e.entries) + PayloadWords(e.entries[..i + 1])
  {
    BuiltTable(e);
    if i + 1 == |found| {
      assert e.entries[..i + 1] == e.entries;
    }
  }

  lemma SegmentSlice(words: seq<Word>, found: seq<Found>, i: nat, start: nat, a: nat, c: nat, tail: seq<Word>)
    requires Tiles(words, found) && i < |found| && found[i].offset == start + a
    requires SegmentEnd(words, found, i) == start + c
    requires start <= |words| && words[start..] == tail && a <= c <= |tail|
    ensures Segment(words, found, i) == Entry(found[i].id, tail[a..c])
  {
    assert words[start + a..start + c] == words[start..][a..c];
  }

  // Ascending offsets within the words: the check loop over the found entries.
  method OffsetsFit(words: seq<Word>, found: seq<Found>) returns (ok: bool)
    ensures ok <==> Ascending(found) && forall i | 0 <= i < |found| :: found[i].offset < |words|
  {
    for i := 0 to |found|
      invariant forall k | 0 <= k < i :: found[k].offset < |words| && (k > 0 ==> found[k - 1].offset < found[k].offset)
    {
      if found[i].offset >= |words| { return false; }
      if i > 0 && found[i].offset <= found[i - 1].offset { return false; }
    }
    ok := true;
  }

  predicate AllBytes(words: seq<Word>) { forall k | 0 <= k < |words| :: forall x | x in words[k] :: x < 256 }

  lemma ChunkIsByte(words: seq<Word>, tableWords: nat, k: nat, id: Bytes, offset: nat)
    requires AllBytes(words) && 1 + tableWords <= |words| && HasChunk(TableArea(words, tableWords), k, id, offset)
    ensures offset < 256
  {
    FlattenBytes(words[1..1 + tableWords]);
    assert offset in TableArea(words, tableWords);
  }

  lemma {:induction false} FlattenBytes(words: seq<Word>)
    requires AllBytes(words)
    ensures forall x | x in Flatten(words) :: x < 256
  {
    if words != [] {
      FlattenBytes(words[1..]);
    }
  }

  lemma {:induction false} BuiltHeader(words: seq<Word>)
    ensures forall e | WellFormed(e) && words == Build(e) ::
              |words| >= 3 && words[1][4] == First(e.entries) < |words| && TableWords(|e.entries|) >= 1
  {
    forall e | WellFormed(e) && words == Build(e)
      ensures |words| >= 3 && words[1][4] == First(e.entries) < |words| && TableWords(|e.entries|) >= 1
    {
      BuiltFirst(e);
    }
  }

  // What is read back from built words passes every check and gives the envelope again.
  lemma {:induction false} BuiltParses(words: seq<Word>, tableWords: nat, parsed: Option<seq<Found>>)
    requires |words| >= 3 && tableWords >= 1 && words[1][4] == tableWords + 1 < |words|
    requires forall entries | Written(entries, TableArea(words, tableWords)) ::
               parsed.Some? && |parsed.value| == |entries| && Agrees(entries, parsed.value)
    ensures forall e | WellFormed(e) && words == Build(e) ::
              && parsed.Some? && Fits(words, parsed.value)
              && 5 * |parsed.value| <= |TableArea(words, tableWords)|
              && Zero(TableArea(words, tableWords)[5 * |parsed.value|..])
              && Envelope(words[0], Segments(words, parsed.value)) == e && |parsed.value| == |e.entries|
  {
    forall e | WellFormed(e) && words == Build(e)
      ensures parsed.Some? && Fits(words, parsed.value) && 5 * |parsed.value| <= |TableArea(words, tableWords)|
      ensures Zero(TableArea(words, tableWords)[5 * |parsed.value|..])
      ensures Envelope(words[0], Segments(words, parsed.value)) == e && |parsed.value| == |e.entries|
    {
      BuiltFirst(e);
      BuiltTable(e);
      assert Written(e.entries, TableArea(words, tableWords));
      BuiltSegments(e, parsed.value);
      BuiltPadding(e.entries);
    }
  }

  // What passed every check is the envelope these words were built from.
  lemma {:induction false} ParsedAccepted(words: seq<Word>, tableWords: nat, found: seq<Found>)
    requires AllBytes(words) && 1 <= tableWords && 1 + tableWords < |words| && found != []
    requires var table := TableArea(words, tableWords);
             5 * |found| <= |table| && TableHolds(table, found) && Zero(table[5 * |found|..])
    requires forall k | 0 <= k < |found| :: |found[k].id| == 4 && !Zero(found[k].id)
    requires 5 * |found| <= 32 * tableWords < 5 * |found| + 32 && found[0].offset == 1 + tableWords
    requires Ascending(found) && forall i | 0 <= i < |found| :: found[i].offset < |words|
    ensures var e := Envelope(words[0], Segments(words, found)); WellFormed(e) && Build(e) == words
  {
    var last := |found| - 1;
    assert HasChunk(TableArea(words, tableWords), last, found[last].id, found[last].offset);
    ChunkIsByte(words, tableWords, last, found[last].id, found[last].offset);
    assert tableWords == TableWords(|found|);
    AcceptedIsBuilt(words, found);
  }

  /**
   The parser and the builder undo each other: a result builds exactly the bytes that were
   parsed, and bytes built from an envelope parse to that envelope; so there is a result
   exactly when some envelope was built into these bytes, and it is the only one.
   */
  method ParseEnvelope(value: Value) returns (r: Option<Envelope>)
    requires value.Body? ==> AllBytes(value.words)
    ensures r.Some? ==> WellFormed(r.value) && value == Body(Build(r.value))
    ensures forall e | WellFormed(e) && value == Body(Build(e)) :: r == Some(e)
  {
    if !value.Body? { return None; }
    var words := value.words;
    BuiltHeader(words);
    if |words| < 3 { return None; }
    var firstOffset := words[1][4];
    if firstOffset < 2 || firstOffset >= |words| { return None; }
    var tableWords := firstOffset - 1;
    var table := TableArea(words, tableWords);
    var parsed := ParseTable(table);
    BuiltParses(words, tableWords, parsed);
    if parsed.None? || parsed.value == [] { return None; }
    var found := parsed.value;
    if !Zero(table[5 * |found|..]) { return None; }
    if !(5 * |found| <= 32 * tableWords < 5 * |found| + 32) { return None; }
    var fit := OffsetsFit(words, found);
    if !fit || found[0].offset != firstOffset { return None; }
    ParsedAccepted(words, tableWords, found);
    r := Some(Envelope(words[0], Segments(words, found)));
  }
}
