/** Content-addressed report shards: greedy batches, split in halves while they compress badly. */
module Shard {
  import opened Sequences
  import opened Ordering
  import opened Text

  type Bytes = seq<char>

  datatype Document = Document(path: string, value: string)

  /** Compression of a JSON object, decompression, SHA-256 in hex, and the size of a
      document's JSON text. Nothing is assumed about how sizes add up. */
  datatype Codec = Codec(encode: map<string, string> -> Bytes, decode: Bytes -> Option<map<string, string>>,
                         sha: Bytes -> string, rawSize: Document -> nat)

  ghost predicate CodecLaws(c: Codec) {
    && (forall documents :: c.decode(c.encode(documents)) == Some(documents))
    && (forall a, b :: c.sha(a) == c.sha(b) ==> a == b)
  }

  const ASSET_LIMIT := 100_000_000
  const DOCUMENT_UNPACKED_LIMIT := 64_000_000
  const BATCH_UNPACKED_LIMIT := 64_000_000

  const ISOLATED_DOCUMENTS: set<string> :=
    {"project-overview.json", "coverage.json", "findings-catalog.json", "report.json", "findings.json"}

  // ----- paths

  predicate StartsWith(s: string, prefix: string) {
    |prefix| <= |s| && s[..|prefix|] == prefix
  }

  predicate EndsWith(s: string, suffix: string) {
    |suffix| <= |s| && s[|s| - |suffix|..] == suffix
  }

  /** A relative, normalized path to a `.json` or `.md` document. */
  predicate SafePath(name: string) {
    var parts := Split(name, '/');
    && '\\' !in name && ':' !in name
    && (forall i :: 0 <= i < |parts| ==> parts[i] != "" && parts[i] != "." && parts[i] != "..")
    && var last := parts[|parts| - 1];
       (EndsWith(last, ".json") && |last| > 5) || (EndsWith(last, ".md") && |last| > 3)
  }

  predicate Isolated(path: string) {
    path in ISOLATED_DOCUMENTS || StartsWith(path, "findings-pages/") || StartsWith(path, "finding-locators/")
  }

  // ----- batches

  function Paths(batch: seq<Document>): (r: seq<string>)
    ensures |r| == |batch|
    ensures forall i :: 0 <= i < |batch| ==> r[i] == batch[i].path
  {
    seq(|batch|, i requires 0 <= i < |batch| => batch[i].path)
  }

  /** The batch as a dictionary. */
  function AsMap(batch: seq<Document>): map<string, string> {
    if batch == [] then map[] else AsMap(batch[..|batch| - 1])[batch[|batch| - 1].path := batch[|batch| - 1].value]
  }

  function Encoded(c: Codec, batch: seq<Document>): Bytes {
    c.encode(AsMap(batch))
  }

  function AssetName(c: Codec, data: Bytes): string {
    "analysis-" + c.sha(data) + ".json.gz"
  }

  function PieceName(c: Codec, batch: seq<Document>): string {
    AssetName(c, Encoded(c, batch))
  }

  function RawTotal(c: Codec, batch: seq<Document>): nat {
    if batch == [] then 0 else RawTotal(c, batch[..|batch| - 1]) + c.rawSize(batch[|batch| - 1])
  }

  /** A batch cut in halves until every part is small enough or single. */
  function Pieces(c: Codec, limit: nat, batch: seq<Document>): seq<seq<Document>>
    decreases |batch|
  {
    if batch == [] then []
    else if |Encoded(c, batch)| <= limit || |batch| == 1 then [batch]
    else Pieces(c, limit, batch[..|batch| / 2]) + Pieces(c, limit, batch[|batch| / 2..])
  }

  /** What every emitted piece satisfies. */
  ghost predicate GoodPiece(c: Codec, limit: nat, piece: seq<Document>) {
    && piece != []
    && |Encoded(c, piece)| <= limit
    && RawTotal(c, piece) <= BATCH_UNPACKED_LIMIT
    && (forall d :: d in piece && Isolated(d.path) ==> |piece| == 1)
  }

  ghost predicate GoodPieces(c: Codec, limit: nat, pieces: seq<seq<Document>>) {
    forall i :: 0 <= i < |pieces| ==> GoodPiece(c, limit, pieces[i])
  }

  // ----- the two dictionaries that `emit` fills

  function AssetsOf(c: Codec, pieces: seq<seq<Document>>): map<string, Bytes> {
    if pieces == [] then map[]
    else AssetsOf(c, pieces[..|pieces| - 1])[PieceName(c, pieces[|pieces| - 1]) := Encoded(c, pieces[|pieces| - 1])]
  }

  function Refer(references: map<string, string>, batch: seq<Document>, name: string): map<string, string> {
    references + map d | d in batch :: d.path := name
  }

  function ReferencesOf(c: Codec, pieces: seq<seq<Document>>): map<string, string> {
    if pieces == [] then map[]
    else Refer(ReferencesOf(c, pieces[..|pieces| - 1]), pieces[|pieces| - 1], PieceName(c, pieces[|pieces| - 1]))
  }

  /** The dictionaries after the pieces `pieces`. */
  ghost predicate Filled(c: Codec, pieces: seq<seq<Document>>, assets: map<string, Bytes>, references: map<string, string>) {
    assets == AssetsOf(c, pieces) && references == ReferencesOf(c, pieces)
  }

  lemma EmitMore(c: Codec, pieces: seq<seq<Document>>, piece: seq<Document>, assets: map<string, Bytes>, references: map<string, string>)
    requires Filled(c, pieces, assets, references)
    ensures Filled(c, pieces + [piece], assets[PieceName(c, piece) := Encoded(c, piece)],
                   Refer(references, piece, PieceName(c, piece)))
  {
    assert (pieces + [piece])[..|pieces|] == pieces;
  }

  lemma AppendAssociative<T>(a: seq<T>, b: seq<T>, c: seq<T>)
    ensures (a + b) + c == a + (b + c)
    ensures a + [] == a
  {
  }

  lemma Halves<T>(s: seq<T>, n: nat)
    requires n <= |s|
    ensures s == s[..n] + s[n..]
    ensures forall x :: x in s[..n] || x in s[n..] ==> x in s
  {
  }

  // ----- the pieces of a batch

  ghost predicate SinglesFit(c: Codec, limit: nat, batch: seq<Document>) {
    forall d :: d in batch ==> |Encoded(c, [d])| <= limit
  }

  lemma {:induction false} RawTotalSplit(c: Codec, a: seq<Document>, b: seq<Document>)
    ensures RawTotal(c, a + b) == RawTotal(c, a) + RawTotal(c, b)
  {
    if b == [] {
      assert a + b == a;
    } else {
      RawTotalSplit(c, a, b[..|b| - 1]);
      assert (a + b)[..|a + b| - 1] == a + b[..|b| - 1];
    }
  }

  /** What splitting a batch needs of it. */
  ghost predicate Splittable(c: Codec, limit: nat, batch: seq<Document>) {
    && SinglesFit(c, limit, batch) && RawTotal(c, batch) <= BATCH_UNPACKED_LIMIT
    && forall d :: d in batch && Isolated(d.path) ==> |batch| == 1
  }

  lemma HalvesSplittable(c: Codec, limit: nat, a: seq<Document>, b: seq<Document>)
    requires Splittable(c, limit, a + b) && |a + b| > 1
    ensures Splittable(c, limit, a) && Splittable(c, limit, b)
  {
    RawTotalSplit(c, a, b);
    forall d | d in a || d in b ensures d in a + b { }
  }

  lemma PieceFits(c: Codec, limit: nat, batch: seq<Document>)
    requires Splittable(c, limit, batch) && batch != [] && (|Encoded(c, batch)| <= limit || |batch| == 1)
    ensures Flatten([batch]) == batch && GoodPieces(c, limit, [batch])
  {
    assert |batch| == 1 ==> batch == [batch[0]] && batch[0] in batch;
    FlattenAppend([], batch);
  }

  lemma GoodTogether(c: Codec, limit: nat, p: seq<seq<Document>>, q: seq<seq<Document>>)
    requires GoodPieces(c, limit, p) && GoodPieces(c, limit, q)
    ensures GoodPieces(c, limit, p + q)
  {
  }

  lemma {:induction false} PiecesFacts(c: Codec, limit: nat, batch: seq<Document>)
    requires Splittable(c, limit, batch)
    ensures Flatten(Pieces(c, limit, batch)) == batch
    ensures GoodPieces(c, limit, Pieces(c, limit, batch))
    decreases |batch|
  {
    if batch == [] {
    } else if |Encoded(c, batch)| <= limit || |batch| == 1 {
      PieceFits(c, limit, batch);
    } else {
      var a, b := batch[..|batch| / 2], batch[|batch| / 2..];
      assert batch == a + b;
      HalvesSplittable(c, limit, a, b);
      PiecesFacts(c, limit, a);
      PiecesFacts(c, limit, b);
      FlattenJoin(Pieces(c, limit, a), Pieces(c, limit, b));
      GoodTogether(c, limit, Pieces(c, limit, a), Pieces(c, limit, b));
    }
  }

  lemma OversizeIsMany(c: Codec, limit: nat, batch: seq<Document>)
    requires SinglesFit(c, limit, batch) && batch != [] && |Encoded(c, batch)| > limit
    ensures |batch| > 1
  {
    assert batch[0] in batch;
    assert [batch[0]] != batch;
    TakeAll(batch);
  }

  /** The recursive `emit`: the error for a single document that does not fit is unreachable. */
  method Emit(c: Codec, limit: nat, batch: seq<Document>, assets: map<string, Bytes>, references: map<string, string>,
              ghost pieces: seq<seq<Document>>) returns (assets': map<string, Bytes>, references': map<string, string>)
    requires SinglesFit(c, limit, batch) && Filled(c, pieces, assets, references)
    ensures Filled(c, pieces + Pieces(c, limit, batch), assets', references')
    decreases |batch|
  {
    if batch == [] {
      AppendAssociative(pieces, [], []);
      return assets, references;
    }
    var data := Encoded(c, batch);
    if |data| > limit {
      OversizeIsMany(c, limit, batch);
      var middle := |batch| / 2;
      Halves(batch, middle);
      assets', references' := Emit(c, limit, batch[..middle], assets, references, pieces);
      ghost var first, second := Pieces(c, limit, batch[..middle]), Pieces(c, limit, batch[middle..]);
      assets', references' := Emit(c, limit, batch[middle..], assets', references', pieces + first);
      AppendAssociative(pieces, first, second);
    } else {
      EmitMore(c, pieces, batch, assets, references);
      assets' := assets[AssetName(c, data) := data];
      references' := Refer(references, batch, AssetName(c, data));
    }
  }

  // ----- the greedy loop

  predicate PathLe(a: Document, b: Document) {
    if a.path != b.path then StrLe(a.path, b.path) else StrLe(a.value, b.value)
  }

  /** What a document must satisfy on its own. */
  predicate Deliverable(c: Codec, limit: nat, d: Document) {
    SafePath(d.path) && c.rawSize(d) <= DOCUMENT_UNPACKED_LIMIT && |Encoded(c, [d])| <= limit
  }

  /** The state of the loop after the documents `done`. */
  ghost predicate Batching(c: Codec, limit: nat, done: seq<Document>, pieces: seq<seq<Document>>, current: seq<Document>, unpacked: nat) {
    && Flatten(pieces) + current == done
    && GoodPieces(c, limit, pieces)
    && (forall d :: d in done ==> Deliverable(c, limit, d))
    && unpacked == RawTotal(c, current) <= BATCH_UNPACKED_LIMIT
    && (forall d :: d in current ==> !Isolated(d.path))
  }

  lemma {:induction false} FlushStep(c: Codec, limit: nat, done: seq<Document>, pieces: seq<seq<Document>>, current: seq<Document>, unpacked: nat)
    requires Batching(c, limit, done, pieces, current, unpacked)
    ensures SinglesFit(c, limit, current)
    ensures Batching(c, limit, done, pieces + Pieces(c, limit, current), [], 0)
  {
    forall d | d in current ensures |Encoded(c, [d])| <= limit {
      assert d in done;
    }
    PiecesFacts(c, limit, current);
    FlattenJoin(pieces, Pieces(c, limit, current));
    AppendAssociative(Flatten(pieces), current, []);
  }

  lemma IsolatedStep(c: Codec, limit: nat, done: seq<Document>, pieces: seq<seq<Document>>, d: Document)
    requires Batching(c, limit, done, pieces, [], 0) && Deliverable(c, limit, d)
    ensures SinglesFit(c, limit, [d])
    ensures Batching(c, limit, done + [d], pieces + Pieces(c, limit, [d]), [], 0)
  {
    assert RawTotal(c, [d]) == c.rawSize(d) by { assert [d][..0] == []; }
    PiecesFacts(c, limit, [d]);
    FlattenJoin(pieces, Pieces(c, limit, [d]));
  }

  lemma AddStep(c: Codec, limit: nat, done: seq<Document>, pieces: seq<seq<Document>>, current: seq<Document>, unpacked: nat, d: Document)
    requires Batching(c, limit, done, pieces, current, unpacked) && Deliverable(c, limit, d) && !Isolated(d.path)
    requires unpacked + c.rawSize(d) <= BATCH_UNPACKED_LIMIT
    ensures Batching(c, limit, done + [d], pieces, current + [d], unpacked + c.rawSize(d))
  {
    assert (current + [d])[..|current|] == current;
    AppendAssociative(Flatten(pieces), current, [d]);
  }

  datatype Meta = Meta(bytes: nat, sha256: string)

  datatype Manifest = Manifest(documents: map<string, string>, assets: map<string, Meta>)

  function MetaOf(c: Codec, data: Bytes): Meta {
    Meta(|data|, c.sha(data))
  }

  function MetasOf(c: Codec, assets: map<string, Bytes>): (r: map<string, Meta>)
    ensures r.Keys == assets.Keys
    ensures forall name :: name in assets ==> r[name] == MetaOf(c, assets[name])
  {
    map name | name in assets :: MetaOf(c, assets[name])
  }

  /** What `shard` returns, in terms of the pieces the documents were cut into. */
  ghost predicate ShardedAs(c: Codec, limit: nat, documents: seq<Document>, pieces: seq<seq<Document>>,
                            manifest: Manifest, assets: map<string, Bytes>) {
    && Flatten(pieces) == Sort(PathLe, documents)
    && GoodPieces(c, limit, pieces)
    && Filled(c, pieces, assets, manifest.documents)
    && manifest.assets == MetasOf(c, assets)
  }

  function Min(a: int, b: int): int {
    if a <= b then a else b
  }

  ghost predicate Shardable(c: Codec, documents: seq<Document>, assetLimit: int) {
    documents != [] && assetLimit > 0 && forall d :: d in documents ==> Deliverable(c, Min(assetLimit, ASSET_LIMIT), d)
  }

  /** Emit what has been gathered. */
  method Flush(c: Codec, limit: nat, ghost done: seq<Document>, ghost pieces: seq<seq<Document>>, current: seq<Document>, ghost unpacked: nat,
               assets: map<string, Bytes>, references: map<string, string>)
      returns (assets': map<string, Bytes>, references': map<string, string>, ghost pieces': seq<seq<Document>>)
    requires Batching(c, limit, done, pieces, current, unpacked) && Filled(c, pieces, assets, references)
    ensures Batching(c, limit, done, pieces', [], 0) && Filled(c, pieces', assets', references')
  {
    FlushStep(c, limit, done, pieces, current, unpacked);
    assets', references' := Emit(c, limit, current, assets, references, pieces);
    pieces' := pieces + Pieces(c, limit, current);
  }

  /** Emit a document that must stand alone. */
  method EmitAlone(c: Codec, limit: nat, ghost done: seq<Document>, ghost pieces: seq<seq<Document>>, d: Document,
                   assets: map<string, Bytes>, references: map<string, string>)
      returns (assets': map<string, Bytes>, references': map<string, string>, ghost pieces': seq<seq<Document>>)
    requires Batching(c, limit, done, pieces, [], 0) && Deliverable(c, limit, d) && Filled(c, pieces, assets, references)
    ensures Batching(c, limit, done + [d], pieces', [], 0) && Filled(c, pieces', assets', references')
  {
    IsolatedStep(c, limit, done, pieces, d);
    assets', references' := Emit(c, limit, [d], assets, references, pieces);
    pieces' := pieces + Pieces(c, limit, [d]);
  }

  lemma SortedDeliverable(c: Codec, limit: nat, documents: seq<Document>)
    ensures (forall d :: d in Sort(PathLe, documents) ==> Deliverable(c, limit, d)) <==> forall d :: d in documents ==> Deliverable(c, limit, d)
  {
    assert forall d :: d in Sort(PathLe, documents) <==> d in documents;
  }

  method Shard(c: Codec, documents: seq<Document>, assetLimit: int)
      returns (r: Result<(Manifest, map<string, Bytes>)>, ghost pieces: seq<seq<Document>>)
    ensures r.Ok? <==> Shardable(c, documents, assetLimit)
    ensures r.Ok? ==> ShardedAs(c, Min(assetLimit, ASSET_LIMIT), documents, pieces, r.value.0, r.value.1)
  {
    pieces := [];
    if documents == [] || assetLimit <= 0 {
      return Err("Documents and positive limits are required"), pieces;
    }
    var limit := Min(assetLimit, ASSET_LIMIT);
    var sorted := Sort(PathLe, documents);
    var assets: map<string, Bytes>, references: map<string, string> := map[], map[];
    var current: seq<Document> := [];
    var estimated: nat, unpacked: nat := 0, 0;
    for i := 0 to |sorted|
      invariant Batching(c, limit, sorted[..i], pieces, current, unpacked)
      invariant Filled(c, pieces, assets, references)
    {
      var d := sorted[i];
      assert d in sorted && d in documents;
      TakeNext(sorted, i);
      if !SafePath(d.path) { return Err("Unsafe report document path"), pieces; }
      var raw := c.rawSize(d);
      if raw > DOCUMENT_UNPACKED_LIMIT { return Err("Report document exceeds unpacked delivery limit"), pieces; }
      var size := |Encoded(c, [d])|;
      if size > limit { return Err("Report detail exceeds asset limit"), pieces; }
      if Isolated(d.path) || (current != [] && (estimated + size > limit || unpacked + raw > BATCH_UNPACKED_LIMIT)) {
        assets, references, pieces := Flush(c, limit, sorted[..i], pieces, current, unpacked, assets, references);
        current, estimated, unpacked := [], 0, 0;
      }
      if Isolated(d.path) {
        assets, references, pieces := EmitAlone(c, limit, sorted[..i], pieces, d, assets, references);
      } else {
        AddStep(c, limit, sorted[..i], pieces, current, unpacked, d);
        current, estimated, unpacked := current + [d], estimated + size, unpacked + raw;
      }
    }
    TakeAll(sorted);
    assets, references, pieces := Flush(c, limit, sorted, pieces, current, unpacked, assets, references);
    AppendAssociative(Flatten(pieces), [], []);
    SortedDeliverable(c, limit, documents);
    r := Ok((Manifest(references, MetasOf(c, assets)), assets));
  }
}
