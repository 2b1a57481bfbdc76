/** Reading shards back: every document lies in exactly one asset and is recovered unchanged. */
module ShardTheorems {
  import opened Sequences
  import opened Ordering
  import opened Text
  import opened Shard

  /** `verify_asset`: integrity, the content-addressed name, and safe documents. */
  function VerifyAsset(c: Codec, name: string, content: Bytes, expected: Meta): Result<map<string, string>> {
    if |content| != expected.bytes || c.sha(content) != expected.sha256 then Err("Report asset integrity mismatch")
    else if name != "analysis-" + expected.sha256 + ".json.gz" then Err("Invalid content-addressed asset name")
    else
      match c.decode(content)
      case None => Err("Unsafe asset documents")
      case Some(documents) => if forall path :: path in documents ==> SafePath(path) then Ok(documents) else Err("Unsafe asset documents")
  }

  lemma {:induction false} AsMapFacts(batch: seq<Document>)
    requires NoDup(Paths(batch))
    ensures forall path :: path in AsMap(batch) <==> path in Paths(batch)
    ensures forall d :: d in batch ==> d.path in AsMap(batch) && AsMap(batch)[d.path] == d.value
  {
    if batch != [] {
      var front, last := batch[..|batch| - 1], batch[|batch| - 1];
      assert Paths(batch) == Paths(front) + [last.path];
      NoDupParts(Paths(front), [last.path]);
      AsMapFacts(front);
      forall d | d in front ensures d.path != last.path {
        var i :| 0 <= i < |front| && front[i] == d;
        assert Paths(front)[i] == d.path;
      }
    }
  }

  lemma PieceIn(pieces: seq<seq<Document>>, i: nat, d: Document)
    requires i < |pieces| && d in pieces[i]
    ensures d in Flatten(pieces)
  {
    FlattenMembers(pieces);
  }

  lemma PathOf(batch: seq<Document>, path: string)
    ensures path in Paths(batch) <==> exists d :: d in batch && d.path == path
  {
    if path in Paths(batch) {
      var i :| 0 <= i < |batch| && Paths(batch)[i] == path;
      assert batch[i] in batch;
    }
    if d :| d in batch && d.path == path {
      var i :| 0 <= i < |batch| && batch[i] == d;
      assert Paths(batch)[i] == path;
    }
  }

  function PathList(batch: seq<Document>): seq<string> { Paths(batch) }

  lemma {:induction false} PathsFlatten(pieces: seq<seq<Document>>)
    ensures Paths(Flatten(pieces)) == Flatten(Map(PathList, pieces))
  {
    if pieces != [] {
      var front, last := pieces[..|pieces| - 1], pieces[|pieces| - 1];
      PathsFlatten(front);
      assert Map(PathList, pieces) == Map(PathList, front) + [PathList(last)];
      FlattenAppend(Map(PathList, front), PathList(last));
      PathsConcat(Flatten(front), last);
    }
  }

  ghost predicate DistinctLists(lists: seq<seq<string>>) {
    NoDup(Flatten(lists))
  }

  /** No path occurs twice, inside a piece or across pieces. */
  ghost predicate Apart(pieces: seq<seq<Document>>) {
    DistinctLists(Map(PathList, pieces))
  }

  lemma PiecesAsLists(pieces: seq<seq<Document>>)
    requires NoDup(Paths(Flatten(pieces)))
    ensures Apart(pieces)
  {
    PathsFlatten(pieces);
  }

  lemma ListDistinct(lists: seq<seq<string>>, i: nat)
    requires DistinctLists(lists) && i < |lists|
    ensures NoDup(lists[i])
  {
    FlattenRow(lists, i);
  }

  lemma ListsDisjoint(lists: seq<seq<string>>, i: nat, j: nat, path: string)
    requires DistinctLists(lists) && i < j < |lists| && path in lists[i]
    ensures path !in lists[j]
  {
    FlattenRowsDisjoint(lists, i, j, path);
  }

  lemma PieceDistinct(pieces: seq<seq<Document>>, i: nat)
    requires Apart(pieces) && i < |pieces|
    ensures NoDup(Paths(pieces[i]))
  {
    ListDistinct(Map(PathList, pieces), i);
  }

  lemma PiecesDisjoint(pieces: seq<seq<Document>>, i: nat, j: nat, path: string)
    requires Apart(pieces) && i < j < |pieces|
    requires path in Paths(pieces[i])
    ensures path !in Paths(pieces[j])
  {
    ListsDisjoint(Map(PathList, pieces), i, j, path);
  }

  lemma NameTellsData(c: Codec, a: Bytes, b: Bytes)
    requires CodecLaws(c) && AssetName(c, a) == AssetName(c, b)
    ensures a == b
  {
    var p := "analysis-";
    var s, t := AssetName(c, a), AssetName(c, b);
    assert |s| == |p| + |c.sha(a)| + 8 && |t| == |p| + |c.sha(b)| + 8;
    assert s[|p|..|p| + |c.sha(a)|] == c.sha(a);
    assert t[|p|..|p| + |c.sha(b)|] == c.sha(b);
  }

  lemma EncodingTellsPaths(c: Codec, a: seq<Document>, b: seq<Document>, path: string)
    requires CodecLaws(c) && NoDup(Paths(a)) && NoDup(Paths(b))
    requires PieceName(c, a) == PieceName(c, b) && path in Paths(a)
    ensures path in Paths(b)
  {
    NameTellsData(c, Encoded(c, a), Encoded(c, b));
    assert c.decode(Encoded(c, a)) == Some(AsMap(a)) && c.decode(Encoded(c, b)) == Some(AsMap(b));
    AsMapFacts(a);
    AsMapFacts(b);
  }

  /** Different nonempty pieces get different names. */
  lemma NamesDistinct(c: Codec, pieces: seq<seq<Document>>, i: nat, j: nat)
    requires CodecLaws(c) && Apart(pieces)
    requires i < j < |pieces| && pieces[i] != []
    ensures PieceName(c, pieces[i]) != PieceName(c, pieces[j])
  {
    PieceDistinct(pieces, i);
    PieceDistinct(pieces, j);
    var path := Paths(pieces[i])[0];
    assert path in Paths(pieces[i]);
    PiecesDisjoint(pieces, i, j, path);
    OtherPathsOtherName(c, pieces[i], pieces[j], path);
  }

  lemma OtherPathsOtherName(c: Codec, a: seq<Document>, b: seq<Document>, path: string)
    requires CodecLaws(c) && NoDup(Paths(a)) && NoDup(Paths(b))
    requires path in Paths(a) && path !in Paths(b)
    ensures PieceName(c, a) != PieceName(c, b)
  {
    if PieceName(c, a) == PieceName(c, b) {
      EncodingTellsPaths(c, a, b, path);
    }
  }

  /** Every piece is stored under its name. */
  lemma {:induction false} StoredPiece(c: Codec, pieces: seq<seq<Document>>, i: nat)
    requires CodecLaws(c) && i < |pieces|
    ensures PieceName(c, pieces[i]) in AssetsOf(c, pieces)
    ensures AssetsOf(c, pieces)[PieceName(c, pieces[i])] == Encoded(c, pieces[i])
  {
    var front, last := pieces[..|pieces| - 1], pieces[|pieces| - 1];
    if i < |front| {
      StoredPiece(c, front, i);
      if PieceName(c, front[i]) == PieceName(c, last) {
        NameTellsData(c, Encoded(c, front[i]), Encoded(c, last));
      }
    }
  }

  /** Nothing else is stored. */
  lemma {:induction false} StoredName(c: Codec, pieces: seq<seq<Document>>, name: string) returns (i: nat)
    requires name in AssetsOf(c, pieces)
    ensures i < |pieces| && name == PieceName(c, pieces[i])
  {
    if name == PieceName(c, pieces[|pieces| - 1]) {
      i := |pieces| - 1;
    } else {
      i := StoredName(c, pieces[..|pieces| - 1], name);
    }
  }

  lemma PathsConcat(a: seq<Document>, b: seq<Document>)
    ensures Paths(a + b) == Paths(a) + Paths(b)
  {
    var x, y := Paths(a + b), Paths(a) + Paths(b);
    forall i | 0 <= i < |x| ensures x[i] == y[i] {
      assert (a + b)[i] == if i < |a| then a[i] else b[i - |a|];
    }
  }

  lemma PathsSnoc(pieces: seq<seq<Document>>)
    requires pieces != []
    ensures Paths(Flatten(pieces)) == Paths(Flatten(pieces[..|pieces| - 1])) + Paths(pieces[|pieces| - 1])
  {
    PathsConcat(Flatten(pieces[..|pieces| - 1]), pieces[|pieces| - 1]);
  }

  lemma ReferStep(references: map<string, string>, last: seq<Document>, name: string, path: string)
    ensures path in Refer(references, last, name) <==> path in references || path in Paths(last)
    ensures path in Paths(last) ==> Refer(references, last, name)[path] == name
    ensures path in references && path !in Paths(last) ==> Refer(references, last, name)[path] == references[path]
  {
    PathOf(last, path);
  }

  /** The paths referred to are those of the pieces. */
  lemma {:induction false} ReferredPaths(c: Codec, pieces: seq<seq<Document>>, path: string)
    ensures path in ReferencesOf(c, pieces) <==> path in Paths(Flatten(pieces))
  {
    if pieces != [] {
      var front, last := pieces[..|pieces| - 1], pieces[|pieces| - 1];
      PathsSnoc(pieces);
      ReferredPaths(c, front, path);
      ReferStep(ReferencesOf(c, front), last, PieceName(c, last), path);
    }
  }

  /** And each refers to its own piece. */
  lemma {:induction false} ReferredPiece(c: Codec, pieces: seq<seq<Document>>, i: nat, d: Document)
    requires NoDup(Paths(Flatten(pieces))) && i < |pieces| && d in pieces[i]
    ensures d.path in ReferencesOf(c, pieces) && ReferencesOf(c, pieces)[d.path] == PieceName(c, pieces[i])
  {
    var front, last := pieces[..|pieces| - 1], pieces[|pieces| - 1];
    PathsSnoc(pieces);
    NoDupParts(Paths(Flatten(front)), Paths(last));
    ReferStep(ReferencesOf(c, front), last, PieceName(c, last), d.path);
    if i < |front| {
      assert front[i] == pieces[i];
      PieceIn(front, i, d);
      PathOf(Flatten(front), d.path);
      ReferredPiece(c, front, i, d);
    } else {
      PathOf(last, d.path);
    }
  }

  lemma ReferencesFacts(c: Codec, pieces: seq<seq<Document>>)
    requires NoDup(Paths(Flatten(pieces)))
    ensures forall path :: path in ReferencesOf(c, pieces) <==> path in Paths(Flatten(pieces))
    ensures forall i, d :: 0 <= i < |pieces| && d in pieces[i] ==>
              d.path in ReferencesOf(c, pieces) && ReferencesOf(c, pieces)[d.path] == PieceName(c, pieces[i])
  {
    forall path ensures path in ReferencesOf(c, pieces) <==> path in Paths(Flatten(pieces)) {
      ReferredPaths(c, pieces, path);
    }
    forall i, d | 0 <= i < |pieces| && d in pieces[i]
      ensures d.path in ReferencesOf(c, pieces) && ReferencesOf(c, pieces)[d.path] == PieceName(c, pieces[i])
    {
      ReferredPiece(c, pieces, i, d);
    }
  }

  // ----- the round trip

  /** The piece that a document was put into. */
  lemma PieceOf(pieces: seq<seq<Document>>, d: Document) returns (i: nat)
    requires d in Flatten(pieces)
    ensures i < |pieces| && d in pieces[i]
  {
    FlattenMembers(pieces);
    i :| 0 <= i < |pieces| && d in pieces[i];
  }

  lemma VerifiedPiece(c: Codec, piece: seq<Document>)
    requires CodecLaws(c) && NoDup(Paths(piece)) && (forall d :: d in piece ==> SafePath(d.path))
    ensures VerifyAsset(c, PieceName(c, piece), Encoded(c, piece), MetaOf(c, Encoded(c, piece))) == Ok(AsMap(piece))
  {
    AsMapFacts(piece);
    forall path | path in AsMap(piece) ensures SafePath(path) {
      PathOf(piece, path);
    }
  }

  lemma SortedPaths(documents: seq<Document>)
    requires NoDup(Paths(documents))
    ensures NoDup(Paths(Sort(PathLe, documents)))
    ensures forall path :: path in Paths(Sort(PathLe, documents)) <==> path in Paths(documents)
  {
    var sorted := Sort(PathLe, documents);
    PathsMultiset(documents, sorted);
    PermutationNoDup(Paths(documents), Paths(sorted));
    PermutationMembers(Paths(documents), Paths(sorted));
  }

  lemma PathsMultiset(a: seq<Document>, b: seq<Document>)
    requires multiset(a) == multiset(b) && NoDup(Paths(a))
    ensures multiset(Paths(a)) == multiset(Paths(b))
  {
    PermutationMembers(a, b);
    DocumentsNoDup(a);
    PermutationNoDup(a, b);
    forall i, j | 0 <= i < j < |b| ensures Paths(b)[i] != Paths(b)[j] {
      assert b[i] in a && b[j] in a && b[i] != b[j];
      DistinctPaths(a, b[i], b[j]);
    }
    forall path ensures path in Paths(a) <==> path in Paths(b) {
      PathOf(a, path);
      PathOf(b, path);
    }
    SameMembersSameMultiset(Paths(a), Paths(b));
  }

  lemma DocumentsNoDup(a: seq<Document>)
    requires NoDup(Paths(a))
    ensures NoDup(a)
  {
    forall i, j | 0 <= i < j < |a| ensures a[i] != a[j] {
      assert Paths(a)[i] != Paths(a)[j];
    }
  }

  lemma DistinctPaths(a: seq<Document>, d: Document, e: Document)
    requires NoDup(Paths(a)) && d in a && e in a && d != e
    ensures d.path != e.path
  {
    var i :| 0 <= i < |a| && a[i] == d;
    var j :| 0 <= j < |a| && a[j] == e;
    assert Paths(a)[i] == d.path && Paths(a)[j] == e.path;
  }

  /** One asset after another, verified against the manifest's metadata and merged. */
  ghost predicate Recovers(c: Codec, documents: seq<Document>, manifest: Manifest, assets: map<string, Bytes>) {
    && manifest.assets.Keys == assets.Keys
    && (forall name :: name in assets ==> VerifyAsset(c, name, assets[name], manifest.assets[name]).Ok?)
    && (forall d :: d in documents ==> Located(c, d, manifest, assets))
    && (forall name, path :: name in assets && path in VerifyAsset(c, name, assets[name], manifest.assets[name]).value
          ==> path in manifest.documents && manifest.documents[path] == name)
    && (forall path :: path in manifest.documents <==> path in Paths(documents))
  }

  /** The manifest names the asset that holds the document, and the asset yields it unchanged. */
  ghost predicate Located(c: Codec, d: Document, manifest: Manifest, assets: map<string, Bytes>) {
    && d.path in manifest.documents && manifest.documents[d.path] in assets && manifest.documents[d.path] in manifest.assets
    && var name := manifest.documents[d.path];
       var read := VerifyAsset(c, name, assets[name], manifest.assets[name]);
       read.Ok? && d.path in read.value && read.value[d.path] == d.value
  }

  /** The facts about the pieces that the round trip needs. */
  ghost predicate Cut(documents: seq<Document>, pieces: seq<seq<Document>>) {
    && NoDup(Paths(Flatten(pieces))) && Apart(pieces)
    && (forall d :: d in Flatten(pieces) <==> d in documents)
    && (forall d :: d in documents ==> SafePath(d.path))
  }

  lemma PieceReads(c: Codec, documents: seq<Document>, pieces: seq<seq<Document>>, i: nat)
    requires CodecLaws(c) && Cut(documents, pieces) && i < |pieces|
    ensures var name := PieceName(c, pieces[i]); var assets := AssetsOf(c, pieces);
            name in assets && VerifyAsset(c, name, assets[name], MetasOf(c, assets)[name]) == Ok(AsMap(pieces[i]))
  {
    StoredPiece(c, pieces, i);
    PieceDistinct(pieces, i);
    forall d | d in pieces[i] ensures SafePath(d.path) {
      PieceIn(pieces, i, d);
    }
    VerifiedPiece(c, pieces[i]);
  }

  lemma DocumentLocated(c: Codec, documents: seq<Document>, pieces: seq<seq<Document>>, d: Document)
    requires CodecLaws(c) && Cut(documents, pieces) && d in documents
    ensures Located(c, d, Manifest(ReferencesOf(c, pieces), MetasOf(c, AssetsOf(c, pieces))), AssetsOf(c, pieces))
  {
    var i := PieceOf(pieces, d);
    PieceReads(c, documents, pieces, i);
    ReferencesFacts(c, pieces);
    PieceDistinct(pieces, i);
    AsMapFacts(pieces[i]);
  }

  lemma ReadPathReferred(c: Codec, documents: seq<Document>, pieces: seq<seq<Document>>, name: string)
    requires CodecLaws(c) && Cut(documents, pieces) && name in AssetsOf(c, pieces)
    ensures var read := VerifyAsset(c, name, AssetsOf(c, pieces)[name], MetasOf(c, AssetsOf(c, pieces))[name]);
            && read.Ok?
            && (forall path :: path in read.value ==>
                  path in ReferencesOf(c, pieces) && ReferencesOf(c, pieces)[path] == name)
  {
    var i := StoredName(c, pieces, name);
    PieceReads(c, documents, pieces, i);
    ReferencesFacts(c, pieces);
    PieceDistinct(pieces, i);
    AsMapFacts(pieces[i]);
    forall path | path in AsMap(pieces[i]) ensures path in ReferencesOf(c, pieces) && ReferencesOf(c, pieces)[path] == name {
      PathOf(pieces[i], path);
    }
  }

  /** Sharding loses nothing: every document is found, unchanged, in exactly the asset the
      manifest names, and every asset passes its integrity check and holds nothing else. */
  lemma ShardRoundTrip(c: Codec, limit: nat, documents: seq<Document>, pieces: seq<seq<Document>>,
                       manifest: Manifest, assets: map<string, Bytes>)
    requires CodecLaws(c) && NoDup(Paths(documents)) && (forall d :: d in documents ==> SafePath(d.path))
    requires ShardedAs(c, limit, documents, pieces, manifest, assets)
    ensures Recovers(c, documents, manifest, assets)
  {
    SortedPaths(documents);
    PiecesAsLists(pieces);
    assert Cut(documents, pieces);
    ReferencesFacts(c, pieces);
    forall d | d in documents ensures Located(c, d, manifest, assets) {
      DocumentLocated(c, documents, pieces, d);
    }
    forall name | name in assets
      ensures VerifyAsset(c, name, assets[name], manifest.assets[name]).Ok?
      ensures forall path :: path in VerifyAsset(c, name, assets[name], manifest.assets[name]).value ==>
                path in manifest.documents && manifest.documents[path] == name
    {
      ReadPathReferred(c, documents, pieces, name);
    }
  }

  /** Every asset is within the limit, and an isolated document is alone in its asset. */
  lemma ShardBounds(c: Codec, limit: nat, documents: seq<Document>, pieces: seq<seq<Document>>,
                    manifest: Manifest, assets: map<string, Bytes>, name: string)
    requires CodecLaws(c) && NoDup(Paths(documents)) && ShardedAs(c, limit, documents, pieces, manifest, assets)
    requires name in assets
    ensures |assets[name]| <= limit
    ensures exists piece :: GoodPiece(c, limit, piece) && assets[name] == Encoded(c, piece)
    ensures forall path :: path in manifest.documents && manifest.documents[path] == name && Isolated(path) ==>
              path in AsMap(documents) && assets[name] == c.encode(map[path := AsMap(documents)[path]])
  {
    SortedPaths(documents);
    AsMapFacts(documents);
    var i := StoredName(c, pieces, name);
    StoredPiece(c, pieces, i);
    assert GoodPiece(c, limit, pieces[i]);
    ReferencesFacts(c, pieces);
    forall path | path in manifest.documents && manifest.documents[path] == name && Isolated(path)
      ensures path in AsMap(documents) && assets[name] == c.encode(map[path := AsMap(documents)[path]])
    {
      PathOf(Flatten(pieces), path);
      var d :| d in Flatten(pieces) && d.path == path;
      IsolatedAlone(c, limit, pieces, i, d);
    }
  }

  lemma SameNameSamePiece(c: Codec, limit: nat, pieces: seq<seq<Document>>, i: nat, j: nat)
    requires CodecLaws(c) && GoodPieces(c, limit, pieces) && Apart(pieces)
    requires i < |pieces| && j < |pieces| && PieceName(c, pieces[i]) == PieceName(c, pieces[j])
    ensures i == j
  {
    assert GoodPiece(c, limit, pieces[i]) && GoodPiece(c, limit, pieces[j]);
    if i < j {
      NamesDistinct(c, pieces, i, j);
    } else if j < i {
      NamesDistinct(c, pieces, j, i);
    }
  }

  lemma SingletonMap(d: Document)
    ensures AsMap([d]) == map[d.path := d.value]
  {
    assert [d][..0] == [];
  }

  lemma IsolatedAlone(c: Codec, limit: nat, pieces: seq<seq<Document>>, i: nat, d: Document)
    requires CodecLaws(c) && GoodPieces(c, limit, pieces) && NoDup(Paths(Flatten(pieces)))
    requires d in Flatten(pieces) && Isolated(d.path) && i < |pieces|
    requires d.path in ReferencesOf(c, pieces) && ReferencesOf(c, pieces)[d.path] == PieceName(c, pieces[i])
    ensures Encoded(c, pieces[i]) == c.encode(map[d.path := d.value])
  {
    var j := PieceOf(pieces, d);
    ReferencesFacts(c, pieces);
    PiecesAsLists(pieces);
    SameNameSamePiece(c, limit, pieces, i, j);
    AloneInPiece(c, limit, pieces[i], d);
    SingletonMap(d);
  }

  lemma AloneInPiece(c: Codec, limit: nat, piece: seq<Document>, d: Document)
    requires GoodPiece(c, limit, piece) && d in piece && Isolated(d.path)
    ensures piece == [d]
  {
    assert |piece| == 1;
  }
}
