/** The inverted index over finding rows, and filtering through it. */
module FindingIndex {
  import opened Sequences
  import opened Ordering
  import opened Text

  datatype Annotation = Annotation(source: string, workflow: string, job: string, level: string, scanner: string)

  datatype Row = Row(id: string, severity: string, category: string, scanners: seq<string>, rules: seq<string>,
                     file: string, line: int, message: string, annotation: Option<Annotation>)

  datatype Family =
    | Severity | Category | Scanner | Rule | File | Directory | Location | Overlap
    | AnnotationSource | Workflow | Job | AnnotationLevel | CorrelatedScanner

  /** Lower-casing and trimming, as the platform does them. */
  datatype Platform = Platform(lower: string -> string, trim: string -> string)

  type Tag = (Family, string)

  // ----- which rows a filter value stands for

  function DirectoryOf(file: string): string {
    if '/' !in file then "(root)" else UpToLastSlash(file)
  }

  function UpToLastSlash(file: string): string {
    if file == "" || file[|file| - 1] == '/' then (if file == "" then "" else file[..|file| - 1])
    else UpToLastSlash(file[..|file| - 1])
  }

  predicate Located(row: Row) {
    row.file != "" && row.line > 0
  }

  predicate Several(values: seq<string>) {
    exists i, j :: 0 <= i < j < |values| && values[i] != values[j]
  }

  function AnnotationField(a: Annotation, family: Family): string {
    match family
    case AnnotationSource => a.source
    case Workflow => a.workflow
    case Job => a.job
    case AnnotationLevel => a.level
    case _ => a.scanner
  }

  predicate OfAnnotation(family: Family) {
    family.AnnotationSource? || family.Workflow? || family.Job? || family.AnnotationLevel? || family.CorrelatedScanner?
  }

  /** What a linear scan would test. */
  predicate Matches(row: Row, tag: Tag) {
    var value := tag.1;
    match tag.0
    case Severity => row.severity == value
    case Category => value == if row.category == "" then "Uncategorized" else row.category
    case Scanner => value in row.scanners
    case Rule => value in row.rules
    case File => row.file != "" && row.file == value
    case Directory => DirectoryOf(row.file) == value
    case Location => (value == if Located(row) then "located" else "unlocated") || (Located(row) && value == row.file + "#L" + DecInt(row.line))
    case Overlap => value == if Several(row.scanners) then "multiple" else "single"
    case _ => row.annotation.Some? && AnnotationField(row.annotation.value, tag.0) == value && value != ""
  }

  predicate MatchesSome(row: Row, family: Family, values: seq<string>) {
    exists i :: 0 <= i < |values| && Matches(row, (family, values[i]))
  }

  datatype Filtering = Filtering(family: Family, values: seq<string>)

  /** Every filter with values is met: by any of its values, one filter after another. */
  predicate Passes(row: Row, filters: seq<Filtering>) {
    forall i :: 0 <= i < |filters| && filters[i].values != [] ==> MatchesSome(row, filters[i].family, filters[i].values)
  }

  function Words(values: seq<string>): string {
    if values == [] then "" else if |values| == 1 then values[0] else values[0] + " " + Words(values[1..])
  }

  function SearchText(p: Platform, row: Row): string {
    p.lower(row.message + " " + row.file + " " + row.category + " " + Words(row.rules) + " " + Words(row.scanners) + " "
            + (if row.annotation.Some? then row.annotation.value.job else "") + " "
            + (if row.annotation.Some? then row.annotation.value.workflow else ""))
  }

  predicate Found(text: string, query: string) {
    query == "" || Occurs(query, text)
  }

  /** The row that a linear scan keeps. */
  predicate Keeps(p: Platform, row: Row, filters: seq<Filtering>, query: string) {
    Passes(row, filters) && Found(SearchText(p, row), p.lower(p.trim(query)))
  }

  // ----- the index

  datatype Index = Index(rows: seq<Row>, byId: map<string, nat>, families: map<Tag, seq<nat>>, search: seq<string>)

  function Positions(families: map<Tag, seq<nat>>, tag: Tag): seq<nat> {
    if tag in families then families[tag] else []
  }

  function MatchAt(rows: seq<Row>, tag: Tag): nat -> bool {
    (q: nat) => q < |rows| && Matches(rows[q], tag)
  }

  /** The positions of the matching rows, in order. */
  function Scan(rows: seq<Row>, tag: Tag, n: nat): seq<nat> {
    Filter(MatchAt(rows, tag), Upto(n))
  }

  ghost predicate LastAt(rows: seq<Row>, id: string, i: nat) {
    i < |rows| && rows[i].id == id && forall j :: i < j < |rows| ==> rows[j].id != id
  }

  ghost predicate Indexed(p: Platform, index: Index) {
    && (forall tag :: Positions(index.families, tag) == Scan(index.rows, tag, |index.rows|))
    && SearchOf(p, index.rows, index.search) && LastIds(index.rows, index.byId)
  }

  ghost predicate SearchOf(p: Platform, rows: seq<Row>, search: seq<string>) {
    |search| == |rows| && forall i :: 0 <= i < |rows| ==> search[i] == SearchText(p, rows[i])
  }

  /** Every id leads to the last row that carries it. */
  ghost predicate LastIds(rows: seq<Row>, byId: map<string, nat>) {
    && (forall i :: 0 <= i < |rows| ==> rows[i].id in byId)
    && (forall id :: id in byId ==> LastAt(rows, id, byId[id]))
  }

  function HeadLabels(row: Row): seq<Tag> {
    [(Severity, row.severity), (Category, if row.category == "" then "Uncategorized" else row.category)]
  }

  function ValueLabels(family: Family, values: seq<string>): seq<Tag> {
    Map((value: string) => (family, value), values)
  }

  /** The labels a row is filed under, in the order of filing. */
  function Labels(row: Row): seq<Tag> {
    HeadLabels(row) + ValueLabels(Scanner, row.scanners) + ValueLabels(Rule, row.rules)
    + PlaceLabels(row) + AnnotationLabels(row.annotation)
  }

  function Set(family: Family, value: string): seq<Tag> {
    if value != "" then [(family, value)] else []
  }

  lemma InConcat<T>(a: seq<T>, b: seq<T>, x: T)
    ensures x in a + b <==> x in a || x in b
  {
  }

  lemma InValues(family: Family, values: seq<string>, tag: Tag)
    ensures tag in ValueLabels(family, values) <==> tag.0 == family && tag.1 in values
  {
    var labels := ValueLabels(family, values);
    if tag.0 == family && tag.1 in values {
      var i :| 0 <= i < |values| && values[i] == tag.1;
      assert labels[i] == tag;
    }
  }

  lemma HeadLabelsExact(row: Row, tag: Tag)
    ensures tag in HeadLabels(row) <==> (tag.0.Severity? || tag.0.Category?) && Matches(row, tag)
  {
  }

  function AnnotationLabels(a: Option<Annotation>): seq<Tag> {
    match a
    case None => []
    case Some(a) => Set(AnnotationSource, a.source) + Set(Workflow, a.workflow) + Set(Job, a.job)
                    + Set(AnnotationLevel, a.level) + Set(CorrelatedScanner, a.scanner)
  }

  lemma AnnotationLabelsExact(row: Row, tag: Tag)
    ensures tag in AnnotationLabels(row.annotation) <==> OfAnnotation(tag.0) && Matches(row, tag)
  {
  }

  lemma PlaceLabelsExact(row: Row, tag: Tag)
    ensures tag in PlaceLabels(row) <==> (tag.0.File? || tag.0.Directory? || tag.0.Location? || tag.0.Overlap?) && Matches(row, tag)
  {
  }

  function PlaceLabels(row: Row): seq<Tag> {
    (if row.file != "" then [(File, row.file)] else [])
    + [(Directory, DirectoryOf(row.file)), (Location, if Located(row) then "located" else "unlocated")]
    + (if Located(row) then [(Location, row.file + "#L" + DecInt(row.line))] else [])
    + [(Overlap, if Several(row.scanners) then "multiple" else "single")]
  }

  /** A row is filed under a tag exactly when a linear scan for the tag would keep it. */
  lemma LabelsExact(row: Row, tag: Tag)
    ensures tag in Labels(row) <==> Matches(row, tag)
  {
    var head, scanners, rules := HeadLabels(row), ValueLabels(Scanner, row.scanners), ValueLabels(Rule, row.rules);
    InConcat(head + scanners + rules + PlaceLabels(row), AnnotationLabels(row.annotation), tag);
    InConcat(head + scanners + rules, PlaceLabels(row), tag);
    InConcat(head + scanners, rules, tag);
    InConcat(head, scanners, tag);
    FamilyLabels(row, tag);
  }

  /** Each kind of label, by the part of the list that it stands in. */
  lemma FamilyLabels(row: Row, tag: Tag)
    ensures (|| tag in HeadLabels(row) || tag in ValueLabels(Scanner, row.scanners) || tag in ValueLabels(Rule, row.rules)
             || tag in PlaceLabels(row) || tag in AnnotationLabels(row.annotation)) <==> Matches(row, tag)
  {
    HeadLabelsExact(row, tag);
    InValues(Scanner, row.scanners, tag);
    InValues(Rule, row.rules, tag);
    PlaceLabelsExact(row, tag);
    AnnotationLabelsExact(row, tag);
  }

  // ----- building

  /** File position `n`, the newest, under one more tag. */
  function Add(families: map<Tag, seq<nat>>, tag: Tag, n: nat): map<Tag, seq<nat>> {
    var values := Positions(families, tag);
    families[tag := if n in values then values else values + [n]]
  }

  /** Rows below `n` are filed, and row `n` under the labels `done`. */
  ghost predicate FiledUpTo(rows: seq<Row>, families: map<Tag, seq<nat>>, n: nat, done: seq<Tag>) {
    forall tag :: Positions(families, tag) == Scan(rows, tag, n) + if tag in done then [n] else []
  }

  lemma ScanBelow(rows: seq<Row>, tag: Tag, n: nat)
    ensures n !in Scan(rows, tag, n)
  {
    FilterMembers(MatchAt(rows, tag), Upto(n));
  }

  lemma ScanNext(rows: seq<Row>, tag: Tag, n: nat)
    requires n < |rows|
    ensures Scan(rows, tag, n + 1) == Scan(rows, tag, n) + if Matches(rows[n], tag) then [n] else []
  {
    assert Upto(n + 1) == Upto(n) + [n];
    FilterAppend(MatchAt(rows, tag), Upto(n), n);
  }

  lemma FileLabel(rows: seq<Row>, families: map<Tag, seq<nat>>, n: nat, done: seq<Tag>, tag: Tag)
    requires FiledUpTo(rows, families, n, done)
    ensures FiledUpTo(rows, Add(families, tag, n), n, done + [tag])
  {
    forall other ensures Positions(Add(families, tag, n), other) == Scan(rows, other, n) + if other in done + [tag] then [n] else [] {
      assert Positions(families, other) == Scan(rows, other, n) + if other in done then [n] else [];
      ScanBelow(rows, other, n);
    }
  }

  lemma FiledAt(rows: seq<Row>, families: map<Tag, seq<nat>>, n: nat, tag: Tag)
    requires n < |rows|
    requires Positions(families, tag) == Scan(rows, tag, n) + if tag in Labels(rows[n]) then [n] else []
    ensures Positions(families, tag) == Scan(rows, tag, n + 1)
  {
    LabelsExact(rows[n], tag);
    ScanNext(rows, tag, n);
  }

  lemma NothingMore(s: seq<nat>)
    ensures s + [] == s
  {
  }

  lemma RowFiled(rows: seq<Row>, families: map<Tag, seq<nat>>, n: nat)
    requires n < |rows| && FiledUpTo(rows, families, n, Labels(rows[n]))
    ensures FiledUpTo(rows, families, n + 1, [])
  {
    forall tag ensures Positions(families, tag) == Scan(rows, tag, n + 1) + if tag in [] then [n + 1] else [] {
      FiledAt(rows, families, n, tag);
      NothingMore(Scan(rows, tag, n + 1));
    }
  }

  method FileRow(rows: seq<Row>, families: map<Tag, seq<nat>>, n: nat) returns (r: map<Tag, seq<nat>>)
    requires n < |rows| && FiledUpTo(rows, families, n, [])
    ensures FiledUpTo(rows, r, n + 1, [])
  {
    r := families;
    var labels := Labels(rows[n]);
    for i := 0 to |labels|
      invariant FiledUpTo(rows, r, n, labels[..i])
    {
      FileLabel(rows, r, n, labels[..i], labels[i]);
      TakeNext(labels, i);
      r := Add(r, labels[i], n);
    }
    TakeAll(labels);
    RowFiled(rows, r, n);
  }

  lemma LastIdStep(rows: seq<Row>, n: nat, byId: map<string, nat>)
    requires n < |rows| && LastIds(rows[..n], byId)
    ensures LastIds(rows[..n + 1], byId[rows[n].id := n])
  {
  }

  /** `buildFindingIndex`. */
  method BuildFindingIndex(p: Platform, rows: seq<Row>) returns (index: Index)
    ensures index.rows == rows && Indexed(p, index)
  {
    var families: map<Tag, seq<nat>>, byId: map<string, nat>, search: seq<string> := map[], map[], [];
    for n := 0 to |rows|
      invariant FiledUpTo(rows, families, n, [])
      invariant SearchOf(p, rows[..n], search) && LastIds(rows[..n], byId)
    {
      LastIdStep(rows, n, byId);
      byId := byId[rows[n].id := n];
      families := FileRow(rows, families, n);
      SearchStep(p, rows, n, search);
      search := search + [SearchText(p, rows[n])];
    }
    TakeAll(rows);
    index := Index(rows, byId, families, search);
    AllFiled(rows, families);
  }

  lemma SearchStep(p: Platform, rows: seq<Row>, n: nat, search: seq<string>)
    requires n < |rows| && SearchOf(p, rows[..n], search)
    ensures SearchOf(p, rows[..n + 1], search + [SearchText(p, rows[n])])
  {
  }

  lemma AllFiled(rows: seq<Row>, families: map<Tag, seq<nat>>)
    requires FiledUpTo(rows, families, |rows|, [])
    ensures forall tag :: Positions(families, tag) == Scan(rows, tag, |rows|)
  {
    forall tag ensures Positions(families, tag) == Scan(rows, tag, |rows|) {
      assert Positions(families, tag) == Scan(rows, tag, |rows|) + [];
    }
  }

  // ----- filtering

  /** A duplicate-free list of positions: a JavaScript set in insertion order. */
  ghost predicate PositionsOf(rows: seq<Row>, positions: seq<nat>, keep: Row -> bool) {
    NoDup(positions) && forall q: nat :: q in positions <==> q < |rows| && keep(rows[q])
  }

  // ----- the order of the candidates

  /** The first of the values that the row matches; their number when it matches none. */
  function Rank(row: Row, family: Family, values: seq<string>): nat {
    if values == [] || Matches(row, (family, values[0])) then 0 else 1 + Rank(row, family, values[1..])
  }

  lemma {:induction false} RankBelow(row: Row, family: Family, values: seq<string>, i: nat)
    requires i <= |values|
    ensures Rank(row, family, values) < i <==> MatchesSome(row, family, values[..i])
  {
    if i > 0 {
      var rest := values[1..];
      RankBelow(row, family, rest, i - 1);
      assert values[..i][0] == values[0] && values[..i][1..] == rest[..i - 1];
      if MatchesSome(row, family, rest[..i - 1]) {
        var k :| 0 <= k < i - 1 && Matches(row, (family, rest[..i - 1][k]));
        assert values[..i][k + 1] == rest[k];
      }
      if MatchesSome(row, family, values[..i]) && !Matches(row, (family, values[0])) {
        var k :| 0 <= k < i && Matches(row, (family, values[..i][k]));
        assert rest[..i - 1][k - 1] == values[k];
      }
    }
  }

  /** By the first matching value, then by position. */
  predicate Earlier(rows: seq<Row>, f: Filtering, a: nat, b: nat) {
    a < |rows| && b < |rows|
    && var x, y := Rank(rows[a], f.family, f.values), Rank(rows[b], f.family, f.values);
       x < y || (x == y && a < b)
  }

  function EarlierIn(rows: seq<Row>, f: Filtering): (nat, nat) -> bool {
    (a: nat, b: nat) => Earlier(rows, f, a, b)
  }

  function Missing(positions: seq<nat>): nat -> bool {
    q => q !in positions
  }

  /** `result.add` for every value of a set: new ones go to the end. */
  method AddNew(positions: seq<nat>, more: seq<nat>) returns (r: seq<nat>)
    requires NoDup(positions) && NoDup(more)
    ensures NoDup(r) && r == positions + Filter(Missing(positions), more)
    ensures forall q :: q in r <==> q in positions || q in more
  {
    r := positions;
    assert positions + [] == positions;
    for k := 0 to |more|
      invariant r == positions + Filter(Missing(positions), more[..k])
    {
      TakeNext(more, k);
      FilterAppend(Missing(positions), more[..k], more[k]);
      AddedExactly(positions, more, k);
      if more[k] !in r {
        r := r + [more[k]];
      }
    }
    TakeAll(more);
    FilterMembers(Missing(positions), more);
    FilterNoDup(Missing(positions), more);
    NoDupAppend(positions, Filter(Missing(positions), more));
  }

  lemma AddedExactly(positions: seq<nat>, more: seq<nat>, k: nat)
    requires NoDup(more) && k < |more|
    ensures more[k] in positions + Filter(Missing(positions), more[..k]) <==> more[k] in positions
  {
    FilterMembers(Missing(positions), more[..k]);
    assert more[k] !in more[..k];
  }

  ghost predicate UnionOf(rows: seq<Row>, family: Family, values: seq<string>, r: seq<nat>) {
    NoDup(r) && forall q: nat :: q in r <==> q < |rows| && MatchesSome(rows[q], family, values)
  }

  lemma UnionStep(rows: seq<Row>, family: Family, values: seq<string>, i: nat, r: seq<nat>, r': seq<nat>)
    requires i < |values| && UnionOf(rows, family, values[..i], r) && NoDup(r')
    requires forall q :: q in r' <==> q in r || q in Scan(rows, (family, values[i]), |rows|)
    ensures UnionOf(rows, family, values[..i + 1], r')
  {
    ScanExact(rows, (family, values[i]));
    forall q: nat | q < |rows| ensures MatchesSome(rows[q], family, values[..i + 1]) <==>
        (MatchesSome(rows[q], family, values[..i]) || Matches(rows[q], (family, values[i])))
    {
      SomeNext(rows[q], family, values, i);
    }
  }

  lemma UptoAscending(n: nat)
    ensures Sorted((a: nat, b: nat) => a < b, Upto(n))
  {
  }

  lemma ScanAscending(rows: seq<Row>, tag: Tag)
    ensures NoDup(Scan(rows, tag, |rows|)) && Ascending(Scan(rows, tag, |rows|))
  {
    UptoAscending(|rows|);
    FilterSorted((a: nat, b: nat) => a < b, MatchAt(rows, tag), Upto(|rows|));
  }

  /** What the next value adds comes after everything before it, in order of position. */
  lemma UnionOrder(rows: seq<Row>, f: Filtering, i: nat, r: seq<nat>)
    requires i < |f.values| && UnionOf(rows, f.family, f.values[..i], r) && Sorted(EarlierIn(rows, f), r)
    ensures var more := Filter(Missing(r), Scan(rows, (f.family, f.values[i]), |rows|));
            Sorted(EarlierIn(rows, f), r + more)
  {
    var scan := Scan(rows, (f.family, f.values[i]), |rows|);
    var more := Filter(Missing(r), scan);
    ScanExact(rows, (f.family, f.values[i]));
    ScanAscending(rows, (f.family, f.values[i]));
    FilterSorted((a: nat, b: nat) => a < b, Missing(r), scan);
    FilterMembers(Missing(r), scan);
    forall q | q in more ensures q < |rows| && Rank(rows[q], f.family, f.values) == i {
      NewRank(rows[q], f, i);
    }
    forall q | q in r ensures q < |rows| && Rank(rows[q], f.family, f.values) < i {
      RankBelow(rows[q], f.family, f.values, i);
    }
    OrderJoins(rows, f, i, r, more);
  }

  lemma NewRank(row: Row, f: Filtering, i: nat)
    requires i < |f.values| && Matches(row, (f.family, f.values[i])) && !MatchesSome(row, f.family, f.values[..i])
    ensures Rank(row, f.family, f.values) == i
  {
    RankBelow(row, f.family, f.values, i);
    RankBelow(row, f.family, f.values, i + 1);
    SomeNext(row, f.family, f.values, i);
  }

  lemma OrderJoins(rows: seq<Row>, f: Filtering, i: nat, r: seq<nat>, more: seq<nat>)
    requires Sorted(EarlierIn(rows, f), r) && Ascending(more)
    requires forall q :: q in more ==> q < |rows| && Rank(rows[q], f.family, f.values) == i
    requires forall q :: q in r ==> q < |rows| && Rank(rows[q], f.family, f.values) < i
    ensures Sorted(EarlierIn(rows, f), r + more)
  {
    var all := r + more;
    forall a, b | 0 <= a < b < |all| ensures EarlierIn(rows, f)(all[a], all[b]) {
      if b < |r| {
        assert EarlierIn(rows, f)(r[a], r[b]);
      } else {
        assert all[b] in more;
        assert a < |r| ==> all[a] in r;
        assert a >= |r| ==> all[a] in more;
      }
    }
  }

  method Union(p: Platform, index: Index, f: Filtering) returns (r: seq<nat>)
    requires Indexed(p, index)
    ensures UnionOf(index.rows, f.family, f.values, r) && Sorted(EarlierIn(index.rows, f), r)
  {
    r := [];
    for i := 0 to |f.values|
      invariant UnionOf(index.rows, f.family, f.values[..i], r) && Sorted(EarlierIn(index.rows, f), r)
    {
      var more := Positions(index.families, (f.family, f.values[i]));
      ScanAscending(index.rows, (f.family, f.values[i]));
      var next := AddNew(r, more);
      UnionStep(index.rows, f.family, f.values, i, r, next);
      UnionOrder(index.rows, f, i, r);
      r := next;
    }
    TakeAll(f.values);
  }

  lemma SomeNext(row: Row, family: Family, values: seq<string>, i: nat)
    requires i < |values|
    ensures MatchesSome(row, family, values[..i + 1]) <==> MatchesSome(row, family, values[..i]) || Matches(row, (family, values[i]))
  {
    if MatchesSome(row, family, values[..i]) {
      var k :| 0 <= k < |values[..i]| && Matches(row, (family, values[..i][k]));
      assert values[..i + 1][k] == values[..i][k];
    }
    if Matches(row, (family, values[i])) {
      assert values[..i + 1][i] == values[i];
    }
    if MatchesSome(row, family, values[..i + 1]) {
      var k :| 0 <= k < |values[..i + 1]| && Matches(row, (family, values[..i + 1][k]));
      assert k < i ==> values[..i][k] == values[..i + 1][k];
    }
  }

  lemma ScanExact(rows: seq<Row>, tag: Tag)
    ensures forall q: nat :: q in Scan(rows, tag, |rows|) <==> q < |rows| && Matches(rows[q], tag)
  {
    FilterMembers(MatchAt(rows, tag), Upto(|rows|));
    forall q: nat | q < |rows| ensures q in Upto(|rows|) {
      assert Upto(|rows|)[q] == q;
    }
  }

  lemma PassesNext(row: Row, filters: seq<Filtering>, i: nat)
    requires i < |filters|
    ensures Passes(row, filters[..i + 1]) <==>
              Passes(row, filters[..i]) && (filters[i].values != [] ==> MatchesSome(row, filters[i].family, filters[i].values))
  {
    assert forall k :: 0 <= k < i ==> filters[..i][k] == filters[..i + 1][k];
    assert filters[..i + 1][i] == filters[i];
  }

  predicate Idle(filters: seq<Filtering>) {
    forall i :: 0 <= i < |filters| ==> filters[i].values == []
  }

  /** The first filter that has values. */
  function FirstActive(filters: seq<Filtering>): Option<Filtering> {
    if filters == [] then None
    else
      match FirstActive(filters[..|filters| - 1])
      case Some(f) => Some(f)
      case None => if filters[|filters| - 1].values != [] then Some(filters[|filters| - 1]) else None
  }

  /** The candidates after some filters: the passing positions, in the order of the first active one. */
  ghost predicate CandidatesOf(rows: seq<Row>, filters: seq<Filtering>, r: Option<seq<nat>>) {
    && (r.None? <==> Idle(filters)) && (r.Some? <==> FirstActive(filters).Some?)
    && (r.Some? ==>
          && NoDup(r.value) && Sorted(EarlierIn(rows, FirstActive(filters).value), r.value)
          && forall q: nat :: q in r.value <==> q < |rows| && Passes(rows[q], filters))
  }

  lemma AllPassNext(rows: seq<Row>, filters: seq<Filtering>, i: nat)
    requires i < |filters|
    ensures forall q: nat :: q < |rows| ==>
              (Passes(rows[q], filters[..i + 1]) <==>
                (Passes(rows[q], filters[..i])
                 && (filters[i].values != [] ==> MatchesSome(rows[q], filters[i].family, filters[i].values))))
  {
    forall q: nat | q < |rows| ensures Passes(rows[q], filters[..i + 1]) <==>
        (Passes(rows[q], filters[..i])
         && (filters[i].values != [] ==> MatchesSome(rows[q], filters[i].family, filters[i].values)))
    {
      PassesNext(rows[q], filters, i);
    }
  }

  lemma ActiveNext(filters: seq<Filtering>, i: nat)
    requires i < |filters|
    ensures FirstActive(filters[..i + 1]) ==
      if FirstActive(filters[..i]).Some? then FirstActive(filters[..i])
      else if filters[i].values != [] then Some(filters[i]) else None
    ensures Idle(filters[..i + 1]) <==> Idle(filters[..i]) && filters[i].values == []
  {
    TakeNext(filters, i);
    assert filters[..i + 1][..i] == filters[..i];
  }

  function In(selected: seq<nat>): nat -> bool {
    q => q in selected
  }

  /** The first active filter, or a later one: idle filters change nothing. */
  lemma CandidatesStep(rows: seq<Row>, filters: seq<Filtering>, i: nat, r: Option<seq<nat>>, selected: seq<nat>)
    requires i < |filters| && CandidatesOf(rows, filters[..i], r)
    requires filters[i].values != [] ==>
               UnionOf(rows, filters[i].family, filters[i].values, selected) && Sorted(EarlierIn(rows, filters[i]), selected)
    ensures CandidatesOf(rows, filters[..i + 1],
              if filters[i].values == [] then r else if r.None? then Some(selected) else Some(Filter(In(selected), r.value)))
  {
    AllPassNext(rows, filters, i);
    ActiveNext(filters, i);
    if filters[i].values != [] && r.Some? {
      FilterMembers(In(selected), r.value);
      FilterNoDup(In(selected), r.value);
      FilterSorted(EarlierIn(rows, FirstActive(filters[..i]).value), In(selected), r.value);
    }
  }

  /** The candidates left by the filters; none yet when no filter had values. */
  method Candidates(p: Platform, index: Index, filters: seq<Filtering>) returns (r: Option<seq<nat>>)
    requires Indexed(p, index)
    ensures CandidatesOf(index.rows, filters, r)
  {
    r := None;
    for i := 0 to |filters|
      invariant CandidatesOf(index.rows, filters[..i], r)
    {
      ghost var before := r;
      var selected: seq<nat> := [];
      if filters[i].values != [] {
        selected := Union(p, index, filters[i]);
        r := if r.None? then Some(selected) else Some(Filter(In(selected), r.value));
      }
      CandidatesStep(index.rows, filters, i, before, selected);
    }
    TakeAll(filters);
  }

  function HasText(index: Index, query: string): nat -> bool {
    (q: nat) => q < |index.search| && Found(index.search[q], query)
  }

  /** `filterFindingIndex`: no position twice, and exactly the rows that a linear scan keeps; in order of position,
      or first by the value of the first active filter that they match. */
  method FilterFindingIndex(p: Platform, index: Index, filters: seq<Filtering>, query: string) returns (rows: seq<Row>, positions: seq<nat>)
    requires Indexed(p, index)
    ensures PositionsOf(index.rows, positions, (row: Row) => Keeps(p, row, filters, query))
    ensures |rows| == |positions| && forall i :: 0 <= i < |rows| ==> positions[i] < |index.rows| && rows[i] == index.rows[positions[i]]
    ensures match FirstActive(filters)
            case None => Ascending(positions)
            case Some(f) => Sorted(EarlierIn(index.rows, f), positions)
  {
    var candidates := Candidates(p, index, filters);
    var normalized := p.lower(p.trim(query));
    var from := if candidates.Some? then candidates.value else Upto(|index.rows|);
    FromExact(index, filters, candidates);
    var chosen := Filter(HasText(index, normalized), from);
    ChosenExact(p, index, filters, query, from);
    if candidates.None? {
      IdleOrder(index, normalized);
    } else {
      FilterSorted(EarlierIn(index.rows, FirstActive(filters).value), HasText(index, normalized), from);
    }
    positions := chosen;
    rows := RowsAt(index.rows, chosen);
  }

  method RowsAt(all: seq<Row>, positions: seq<nat>) returns (rows: seq<Row>)
    requires forall q: nat :: q in positions ==> q < |all|
    ensures |rows| == |positions| && forall i :: 0 <= i < |rows| ==> positions[i] < |all| && rows[i] == all[positions[i]]
  {
    rows := [];
    for i := 0 to |positions|
      invariant |rows| == i && forall k :: 0 <= k < i ==> positions[k] < |all| && rows[k] == all[positions[k]]
    {
      assert positions[i] in positions;
      rows := rows + [all[positions[i]]];
    }
  }

  lemma FromExact(index: Index, filters: seq<Filtering>, candidates: Option<seq<nat>>)
    requires CandidatesOf(index.rows, filters, candidates)
    ensures NoDup(if candidates.Some? then candidates.value else Upto(|index.rows|))
    ensures forall q: nat :: q in (if candidates.Some? then candidates.value else Upto(|index.rows|)) <==>
              (q < |index.rows| && Passes(index.rows[q], filters))
  {
    if candidates.None? {
      forall q: nat | q < |index.rows| ensures q in Upto(|index.rows|) {
        assert Upto(|index.rows|)[q] == q;
      }
    }
  }

  lemma ChosenExact(p: Platform, index: Index, filters: seq<Filtering>, query: string, from: seq<nat>)
    requires SearchOf(p, index.rows, index.search) && NoDup(from)
    requires forall q: nat :: q in from <==> (q < |index.rows| && Passes(index.rows[q], filters))
    ensures PositionsOf(index.rows, Filter(HasText(index, p.lower(p.trim(query))), from), (row: Row) => Keeps(p, row, filters, query))
  {
    var keep := HasText(index, p.lower(p.trim(query)));
    FilterMembers(keep, from);
    FilterNoDup(keep, from);
    forall q: nat | q < |index.rows| ensures keep(q) <==> Found(SearchText(p, index.rows[q]), p.lower(p.trim(query))) {
      assert index.search[q] == SearchText(p, index.rows[q]);
    }
  }

  ghost predicate Ascending(s: seq<nat>) {
    Sorted((a: nat, b: nat) => a < b, s)
  }

  lemma IdleOrder(index: Index, query: string)
    ensures Ascending(Filter(HasText(index, query), Upto(|index.rows|)))
  {
    UptoAscending(|index.rows|);
    FilterSorted((a: nat, b: nat) => a < b, HasText(index, query), Upto(|index.rows|));
  }

  /** A duplicate-free list of the positions that pass is a rearrangement of the scan for them. */
  lemma AnyOrderOfScan(keep: nat -> bool, n: nat, positions: seq<nat>)
    requires NoDup(positions) && forall q: nat :: q in positions <==> q < n && keep(q)
    ensures multiset(positions) == multiset(Filter(keep, Upto(n)))
  {
    FilterMembers(keep, Upto(n));
    FilterNoDup(keep, Upto(n));
    SameMembersSameMultiset(positions, Filter(keep, Upto(n)));
  }

  /** Such a list of positions is a rearrangement of the linear scan's result. */
  lemma FilteredIsScan(p: Platform, rows: seq<Row>, filters: seq<Filtering>, query: string, positions: seq<nat>)
    requires PositionsOf(rows, positions, (row: Row) => Keeps(p, row, filters, query))
    ensures multiset(positions) == multiset(Filter((q: nat) => q < |rows| && Keeps(p, rows[q], filters, query), Upto(|rows|)))
  {
    AnyOrderOfScan((q: nat) => q < |rows| && Keeps(p, rows[q], filters, query), |rows|, positions);
  }
}
