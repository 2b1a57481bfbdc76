/** Parsing a printed route gives its normal form, and printing a parsed route is stable. */
module RouteTheorems {
  import opened Sequences
  import opened Text
  import opened Forms
  import opened Routes

  // ----- the path

  /** A path part that survives printing: nonempty, without separators or percent signs. */
  predicate PlainPart(s: string) {
    s != "" && Lacks(s, '/') && Lacks(s, '%') && Lacks(s, '?')
  }

  predicate PlainParts(parts: seq<string>) {
    forall i :: 0 <= i < |parts| ==> PlainPart(parts[i])
  }

  function PathOf(parts: seq<string>): string {
    if parts == [] then "" else "/" + parts[0] + PathOf(parts[1..])
  }

  lemma {:induction false} PathLacks(parts: seq<string>)
    requires PlainParts(parts)
    ensures Lacks(PathOf(parts), '?')
  {
    if parts != [] {
      PathLacks(parts[1..]);
    }
  }

  lemma PathEmpty(parts: seq<string>)
    ensures PathOf(parts) == "" <==> parts == []
  {
  }

  /** The pieces of a path: nothing before the leading slash, then the parts. */
  lemma {:induction false} SplitPath(parts: seq<string>)
    requires PlainParts(parts)
    ensures Split(PathOf(parts), '/') == [""] + parts
  {
    if parts != [] {
      var path, rest := PathOf(parts), PathOf(parts[1..]);
      assert path[1..] == parts[0] + rest;
      SplitPath(parts[1..]);
      if rest == "" {
        PathEmpty(parts[1..]);
        assert parts[0] + rest == parts[0] && parts == [parts[0]];
        SplitFirst(parts[0], '/', "");
      } else {
        SplitFirst(parts[0], '/', rest[1..]);
        assert parts[0] + rest == parts[0] + ['/'] + rest[1..];
        assert [""] + Split(rest[1..], '/') == [""] + parts[1..];
        assert Split(rest[1..], '/') == ([""] + Split(rest[1..], '/'))[1..] == ([""] + parts[1..])[1..] == parts[1..];
        assert [parts[0]] + parts[1..] == parts;
      }
    }
  }

  lemma {:induction false} DecodeParts(decode: Component, parts: seq<string>)
    requires ComponentLaw(decode) && PlainParts(parts)
    ensures DecodeAll(decode, parts) == Some(parts)
  {
    if parts != [] {
      assert PlainPart(parts[0]);
      DecodeParts(decode, parts[1..]);
      assert [parts[0]] + parts[1..] == parts;
    }
  }

  lemma KeepParts(parts: seq<string>)
    requires PlainParts(parts)
    ensures Filter(NotEmpty, [""] + parts) == parts
  {
    FilterConcat(NotEmpty, [""], parts);
    FilterNone(NotEmpty, [""]);
    forall x | x in parts ensures NotEmpty(x) {
      var i :| 0 <= i < |parts| && parts[i] == x;
      assert PlainPart(parts[i]);
    }
    FilterEvery(NotEmpty, parts);
  }

  lemma PartsOfPath(decode: Component, parts: seq<string>)
    requires ComponentLaw(decode) && PlainParts(parts)
    ensures Parts(decode, PathOf(parts)) == Some(parts)
  {
    SplitPath(parts);
    KeepParts(parts);
    DecodeParts(decode, parts);
  }

  lemma SplitTwo(path: string, query: string)
    requires Lacks(path, '?') && Lacks(query, '?')
    ensures Split(path + ['?'] + query, '?') == [path, query]
  {
    SplitFirst(path, '?', query);
    SplitFirst(query, '?', "");
  }

  /** Before and after the question mark. */
  lemma SplitQuery(u: Utf8, path: string, pairs: seq<Pair>)
    requires Utf8Laws(u) && Lacks(path, '?')
    ensures var pieces := Split(path + QueryPart(u, pairs), '?');
            pieces[0] == path && Parse(u, if |pieces| > 1 then pieces[1] else "") == pairs
  {
    FormRoundTrip(u, pairs);
    if pairs == [] {
      assert path + QueryPart(u, pairs) == path;
      SplitFirst(path, '?', "");
      assert Serialize(u, pairs) == "";
    } else {
      var serialized := Serialize(u, pairs);
      SplitTwo(path, serialized);
      assert path + ("?" + serialized) == path + ['?'] + serialized;
    }
  }

  lemma PathStarts(parts: seq<string>, query: string)
    requires parts != []
    ensures var hash := "#" + PathOf(parts) + query;
            hash[0] == '#' && hash[1..] == PathOf(parts) + query && (PathOf(parts) + query)[0] == '/'
  {
  }

  /** A printed path and query parse into their parts and pairs. */
  lemma HashParses(u: Utf8, decode: Component, parts: seq<string>, pairs: seq<Pair>)
    requires Utf8Laws(u) && ComponentLaw(decode) && PlainParts(parts) && parts != []
    ensures ParseAppRoute(u, decode, "#" + PathOf(parts) + QueryPart(u, pairs)) == Some(ParseParts(parts, pairs))
  {
    PathLacks(parts);
    PathStarts(parts, QueryPart(u, pairs));
    PartsOfPath(decode, parts);
    SplitQuery(u, PathOf(parts), pairs);
  }

  // ----- the query

  lemma ConcatTail<T>(a: seq<T>, b: seq<T>)
    requires a != []
    ensures (a + b)[0] == a[0] && (a + b)[1..] == a[1..] + b && [] + b == b
  {
  }

  lemma {:induction false} ValuesJoin(a: seq<Pair>, b: seq<Pair>, name: string)
    ensures ValuesOf(a + b, name) == ValuesOf(a, name) + ValuesOf(b, name)
  {
    if a == [] {
      assert a + b == b;
    } else {
      ConcatTail(a, b);
      ValuesJoin(a[1..], b, name);
      var first := if a[0].0 == name then [a[0].1] else [];
      assert ValuesOf(a + b, name) == first + (ValuesOf(a[1..], name) + ValuesOf(b, name));
    }
  }

  lemma {:induction false} ValuesEach(name: string, values: seq<string>, other: string)
    ensures ValuesOf(Each(name, values), other) == if name == other then values else []
  {
    if values != [] {
      ValuesEach(name, values[1..], other);
      assert Each(name, values)[1..] == Each(name, values[1..]);
    }
  }

  lemma SingleIsEach(name: string, value: Option<string>)
    ensures Single(name, value) == Each(name, if value.Some? && value.value != "" then [value.value] else [])
  {
  }

  lemma ValuesSingle(name: string, value: Option<string>, other: string)
    ensures ValuesOf(Single(name, value), other) == if name == other && value.Some? && value.value != "" then [value.value] else []
  {
    SingleIsEach(name, value);
    ValuesEach(name, if value.Some? && value.value != "" then [value.value] else [], other);
  }

  lemma ValuesField(filters: Filters, f: Field, name: string)
    ensures ValuesOf(WriteField(filters, f), name) == if name == NameOf(f) then Texts(Lookup(filters, f)) else []
  {
    if f in filters {
      match filters[f]
      case One(text) => ValuesSingle(NameOf(f), Some(text), name);
      case Many(texts) => ValuesEach(NameOf(f), texts, name);
    }
  }

  /** Length and first letter tell the names apart. */
  function Shape(f: Field): (nat, char) {
    match f
    case Query => (1, 'q')
    case Severity => (8, 's')
    case Category => (8, 'c')
    case Scanner => (7, 's')
    case Rule => (4, 'r')
    case Files => (4, 'f')
    case Directory => (9, 'd')
    case Location => (8, 'l')
    case Overlap => (7, 'o')
    case Group => (5, 'g')
    case AnnotationSource => (16, 'a')
    case Workflow => (8, 'w')
    case Job => (3, 'j')
    case AnnotationLevel => (15, 'a')
    case CorrelatedScanner => (17, 'c')
  }

  lemma NameShape(f: Field)
    ensures |NameOf(f)| == Shape(f).0 && NameOf(f)[0] == Shape(f).1
  {
    match f
    case Query =>
    case Severity =>
    case Category =>
    case Scanner =>
    case Rule =>
    case Files =>
    case Directory =>
    case Location =>
    case Overlap =>
    case Group =>
    case AnnotationSource =>
    case Workflow =>
    case Job =>
    case AnnotationLevel =>
    case CorrelatedScanner =>
  }

  lemma ShapeInjective(f: Field, g: Field)
    requires Shape(f) == Shape(g)
    ensures f == g
  {
  }

  lemma NamesApart(f: Field, g: Field)
    ensures NameOf(f) == NameOf(g) <==> f == g
  {
    NameShape(f);
    NameShape(g);
    if NameOf(f) == NameOf(g) {
      ShapeInjective(f, g);
    }
  }

  lemma IdNamesApart(f: Field)
    ensures NameOf(f) != "target" && NameOf(f) != "issue"
  {
    NameShape(f);
    assert |"target"| == 6 && |"issue"| == 5 && "issue"[0] == 'i';
  }

  lemma {:induction false} ValuesFields(filters: Filters, fields: seq<Field>, f: Field)
    requires NoDup(fields)
    ensures ValuesOf(WriteFields(filters, fields), NameOf(f)) == if f in fields then Texts(Lookup(filters, f)) else []
  {
    if fields != [] {
      var g, rest := fields[0], fields[1..];
      assert fields == [g] + rest;
      NoDupParts([g], rest);
      assert g in [g];
      ValuesFields(filters, rest, f);
      ValuesField(filters, g, NameOf(f));
      NamesApart(f, g);
      ValuesJoin(WriteField(filters, g), WriteFields(filters, rest), NameOf(f));
    }
  }

  lemma {:induction false} ValuesOther(filters: Filters, fields: seq<Field>, name: string)
    requires name == "target" || name == "issue"
    ensures ValuesOf(WriteFields(filters, fields), name) == []
  {
    if fields != [] {
      ValuesOther(filters, fields[1..], name);
      ValuesField(filters, fields[0], name);
      IdNamesApart(fields[0]);
      ValuesJoin(WriteField(filters, fields[0]), WriteFields(filters, fields[1..]), name);
    }
  }

  lemma FieldsListed(f: Field)
    ensures NoDup(FIELDS) && f in FIELDS
  {
    match f
    case Query => assert FIELDS[0] == f;
    case Severity => assert FIELDS[1] == f;
    case Category => assert FIELDS[2] == f;
    case Scanner => assert FIELDS[3] == f;
    case Rule => assert FIELDS[4] == f;
    case Files => assert FIELDS[5] == f;
    case Directory => assert FIELDS[6] == f;
    case Location => assert FIELDS[7] == f;
    case Overlap => assert FIELDS[8] == f;
    case Group => assert FIELDS[9] == f;
    case AnnotationSource => assert FIELDS[10] == f;
    case Workflow => assert FIELDS[11] == f;
    case Job => assert FIELDS[12] == f;
    case AnnotationLevel => assert FIELDS[13] == f;
    case CorrelatedScanner => assert FIELDS[14] == f;
  }

  lemma FirstSingle(name: string, value: Option<string>)
    ensures CleanText(FirstValue(Single(name, value), name)) == CleanText(value)
  {
    ValuesSingle(name, value, name);
    assert Trim("") == "";
  }

  // ----- the three kinds of query

  /** The values of the project route's query. */
  lemma ProjectValues(r: Route, name: string)
    requires r.Project?
    ensures ValuesOf(ProjectPairs(r), name)
         == ValuesOf(Single("target", r.target), name) + ValuesOf(Single("issue", r.issue), name)
            + (if r.view.Issues? && r.filters.Some? then ValuesOf(WriteFields(r.filters.value, FIELDS), name) else [])
  {
    var ids := Single("target", r.target) + Single("issue", r.issue);
    ValuesJoin(Single("target", r.target), Single("issue", r.issue), name);
    if r.view.Issues? && r.filters.Some? {
      ValuesJoin(ids, WriteFields(r.filters.value, FIELDS), name);
    } else {
      assert ids + [] == ids;
    }
  }

  lemma ProjectIds(r: Route)
    requires r.Project?
    ensures CleanText(FirstValue(ProjectPairs(r), "target")) == CleanText(r.target)
    ensures CleanText(FirstValue(ProjectPairs(r), "issue")) == CleanText(r.issue)
  {
    ProjectIdValues(r, "target");
    ProjectIdValues(r, "issue");
    assert "target" != "issue" by { assert |"target"| != |"issue"|; }
    FirstSingle("target", r.target);
    FirstSingle("issue", r.issue);
  }

  lemma ProjectIdValues(r: Route, name: string)
    requires r.Project? && (name == "target" || name == "issue")
    ensures ValuesOf(ProjectPairs(r), name) == ValuesOf(Single(name, if name == "target" then r.target else r.issue), name)
  {
    ProjectValues(r, name);
    if r.view.Issues? && r.filters.Some? {
      ValuesOther(r.filters.value, FIELDS, name);
    }
    assert |"target"| != |"issue"|;
    ValuesSingle("target", r.target, name);
    ValuesSingle("issue", r.issue, name);
  }

  lemma ProjectFieldValues(r: Route, f: Field)
    requires r.Project? && r.view.Issues?
    ensures ValuesOf(ProjectPairs(r), NameOf(f)) == Texts(Lookup(if r.filters.Some? then r.filters.value else map[], f))
  {
    ProjectValues(r, NameOf(f));
    IdNamesApart(f);
    ValuesSingle("target", r.target, NameOf(f));
    ValuesSingle("issue", r.issue, NameOf(f));
    FieldsListed(f);
    if r.filters.Some? {
      ValuesFields(r.filters.value, FIELDS, f);
    }
  }

  lemma ReadByValues(pairs: seq<Pair>, f: Field, filters: Filters)
    requires ValuesOf(pairs, NameOf(f)) == Texts(Lookup(filters, f))
    ensures ReadField(pairs, f) == NormalField(filters, f)
  {
  }

  lemma ProjectField(r: Route, f: Field)
    requires r.Project? && r.view.Issues?
    ensures ReadField(ProjectPairs(r), f) == NormalField(if r.filters.Some? then r.filters.value else map[], f)
  {
    ProjectFieldValues(r, f);
    ReadByValues(ProjectPairs(r), f, if r.filters.Some? then r.filters.value else map[]);
  }

  lemma ProjectFilters(r: Route)
    requires r.Project? && r.view.Issues?
    ensures ReadFilters(ProjectPairs(r)) == NormalFilters(if r.filters.Some? then r.filters.value else map[])
  {
    forall f ensures ReadField(ProjectPairs(r), f) == NormalField(if r.filters.Some? then r.filters.value else map[], f) {
      ProjectField(r, f);
    }
  }

  // ----- the round trip

  lemma DigitsPlain(s: string)
    requires ProjectNumber(s)
    ensures PlainPart(s)
  {
  }

  lemma PathWords()
    ensures PlainPart("projects") && PlainPart("settings") && PlainPart("run") && PlainPart("progress")
  {
  }

  lemma ViewWords()
    ensures PlainPart("issues") && PlainPart("coverage") && PlainPart("report")
    ensures PlainPart("overview") && PlainPart("integrations") && PlainPart("provenance")
  {
  }

  function ViewParts(view: View): seq<string> {
    match view
    case Overview => []
    case Issues => ["issues"]
    case Coverage => ["coverage"]
    case Report => ["report"]
  }

  lemma ViewRoundTrip(projectId: string, view: View)
    ensures var parts := ["projects", projectId] + ViewParts(view);
            ViewNamed(Part(parts, 2)) == view && Part(parts, 2) != Some("run") && Part(parts, 2) != Some("progress")
  {
    assert |"run"| == 3 && |"issues"| == 6 && |"coverage"| == 8 && |"report"| == 6 && |"progress"| == 8;
    assert "issues"[0] == 'i' && "report"[0] == 'r' && "coverage"[0] == 'c' && "progress"[0] == 'p';
  }

  lemma PathOfTwo(a: string, b: string)
    ensures PathOf([a, b]) == "/" + a + "/" + b
  {
    assert [a, b][1..] == [b] && [b][1..] == [];
    assert PathOf([b]) == "/" + b + "";
  }

  lemma PathOfThree(a: string, b: string, c: string)
    ensures PathOf([a, b, c]) == "/" + a + "/" + b + "/" + c
  {
    assert [a, b, c][1..] == [b, c];
    PathOfTwo(b, c);
    assert "/" + a + ("/" + b + "/" + c) == "/" + a + "/" + b + "/" + c;
  }

  lemma TwoParts(projectId: string)
    ensures PathOf(["projects", projectId]) == "/projects/" + projectId
  {
    PathOfTwo("projects", projectId);
    assert "/" + "projects" + "/" == "/projects/";
  }

  lemma ThreeParts(projectId: string, word: string)
    ensures PathOf(["projects", projectId, word]) == "/projects/" + projectId + ("/" + word)
  {
    PathOfThree("projects", projectId, word);
    assert "/" + "projects" + "/" == "/projects/";
    Regroup("/projects/" + projectId, "/", word);
  }

  lemma ViewWord(view: View)
    requires !view.Overview?
    ensures |ViewParts(view)| == 1 && PlainPart(ViewParts(view)[0]) && "/" + ViewParts(view)[0] == ViewPart(view)
  {
    ViewWords();
  }

  lemma ProjectPath(projectId: string, view: View)
    requires ProjectNumber(projectId)
    ensures PathOf(["projects", projectId] + ViewParts(view)) == "/projects/" + projectId + ViewPart(view)
    ensures PlainParts(["projects", projectId] + ViewParts(view))
  {
    DigitsPlain(projectId);
    PathWords();
    if view.Overview? {
      assert ["projects", projectId] + [] == ["projects", projectId];
      TwoParts(projectId);
    } else {
      ViewWord(view);
      var word := ViewParts(view)[0];
      assert ["projects", projectId] + ViewParts(view) == ["projects", projectId, word];
      ThreeParts(projectId, word);
    }
  }

  /** The parts and the pairs that a route is printed from. */
  function PartsOf(r: Route): seq<string>
    requires !r.Landing?
  {
    match r
    case Projects => ["projects"]
    case Settings(section, _) => ["settings", SectionPart(section)]
    case ProjectRun(projectId) => ["projects", projectId, "run"]
    case ProjectProgress(projectId, _) => ["projects", projectId, "progress"]
    case Project(projectId, view, _, _, _) => ["projects", projectId] + ViewParts(view)
  }

  function PairsOf(r: Route): seq<Pair> {
    match r
    case Settings(_, project) => Single("project", project)
    case ProjectProgress(_, request) => Single("request", request)
    case Project(_, _, _, _, _) => ProjectPairs(r)
    case _ => []
  }

  lemma Regroup(a: string, b: string, c: string)
    ensures a + (b + c) == (a + b) + c
  {
  }

  lemma ProjectHash(u: Utf8, r: Route)
    requires Utf8Laws(u) && ValidIds(r) && r.Project?
    ensures RouteHash(u, r) == "#" + PathOf(PartsOf(r)) + QueryPart(u, PairsOf(r))
  {
    ProjectPath(r.projectId, r.view);
    assert "#" + "/projects/" == "#/projects/";
    Regroup("#", "/projects/" + r.projectId, ViewPart(r.view));
    Regroup("#", "/projects/", r.projectId);
  }

  lemma WordHash(u: Utf8, projectId: string, word: string, pairs: seq<Pair>)
    requires Utf8Laws(u)
    ensures "#" + PathOf(["projects", projectId, word]) + QueryPart(u, pairs) == "#/projects/" + projectId + ("/" + word) + QueryPart(u, pairs)
  {
    ThreeParts(projectId, word);
    assert "#" + "/projects/" == "#/projects/";
    Regroup("#", "/projects/" + projectId, "/" + word);
    Regroup("#", "/projects/", projectId);
  }

  lemma SettingsHash(u: Utf8, section: string, pairs: seq<Pair>)
    requires Utf8Laws(u)
    ensures "#" + PathOf(["settings", section]) + QueryPart(u, pairs) == "#/settings/" + section + QueryPart(u, pairs)
  {
    PathOfTwo("settings", section);
    assert "/" + "settings" + "/" == "/settings/" && "#" + "/settings/" == "#/settings/";
    Regroup("#", "/settings/", section);
  }

  lemma ProjectsHash()
    ensures "#" + PathOf(["projects"]) + "" == "#/projects"
  {
    assert ["projects"][1..] == [];
    assert PathOf(["projects"]) == "/" + "projects" + "";
  }

  lemma RunHash(u: Utf8, projectId: string)
    requires Utf8Laws(u)
    ensures "#" + PathOf(["projects", projectId, "run"]) + "" == "#/projects/" + projectId + "/run"
  {
    WordHash(u, projectId, "run", []);
    assert "/" + "run" == "/run";
    Regroup("#/projects/" + projectId, "/run", "");
  }

  lemma ProgressHash(u: Utf8, projectId: string, pairs: seq<Pair>)
    requires Utf8Laws(u)
    ensures "#" + PathOf(["projects", projectId, "progress"]) + QueryPart(u, pairs) == "#/projects/" + projectId + "/progress" + QueryPart(u, pairs)
  {
    WordHash(u, projectId, "progress", pairs);
    assert "/" + "progress" == "/progress";
  }

  /** Every route is printed from its parts and pairs. */
  lemma HashShape(u: Utf8, r: Route)
    requires Utf8Laws(u) && ValidIds(r) && !r.Landing?
    ensures RouteHash(u, r) == "#" + PathOf(PartsOf(r)) + QueryPart(u, PairsOf(r))
  {
    match r
    case Projects => ProjectsHash();
    case Settings(section, project) => SettingsHash(u, SectionPart(section), PairsOf(r));
    case ProjectRun(projectId) => RunHash(u, projectId);
    case ProjectProgress(projectId, _) => ProgressHash(u, projectId, PairsOf(r));
    case Project(_, _, _, _, _) => ProjectHash(u, r);
  }

  lemma SettingsSection(section: Section)
    ensures PlainPart(SectionPart(section)) && SectionNamed(Some(SectionPart(section))) == Some(section)
    ensures SectionPart(section) != "projects"
  {
    ViewWords();
    assert "overview"[0] == 'o' && "integrations"[0] == 'i' && "provenance"[0] == 'p' && "projects"[0] == 'p';
    assert |"projects"| != |"provenance"|;
  }

  lemma PartsPlain(r: Route)
    requires ValidIds(r) && !r.Landing?
    ensures PlainParts(PartsOf(r)) && PartsOf(r) != []
  {
    PathWords();
    match r
    case Projects =>
    case Settings(section, _) => SettingsSection(section);
    case ProjectRun(projectId) => DigitsPlain(projectId);
    case ProjectProgress(projectId, _) => DigitsPlain(projectId);
    case Project(projectId, view, _, _, _) => ProjectPath(projectId, view);
  }

  lemma WordsApart()
    ensures "projects" != "settings" && "progress" != "run" && "section" != "project"
  {
    assert "projects"[0] == 'p' && "settings"[0] == 's' && "section"[0] == 's' && "project"[0] == 'p';
    assert |"progress"| != |"run"|;
  }

  lemma ProjectParts(projectId: string, rest: seq<string>, pairs: seq<Pair>)
    requires ProjectNumber(projectId)
    ensures ParseParts(["projects", projectId] + rest, pairs) == ParseProject(projectId, Part(["projects", projectId] + rest, 2), pairs)
  {
    var parts := ["projects", projectId] + rest;
    WordsApart();
    assert Part(parts, 0) == Some("projects") && Part(parts, 1) == Some(projectId) && |parts| >= 2;
  }

  lemma ProjectReads(r: Route)
    requires r.Project? && ValidIds(r)
    ensures ParseParts(PartsOf(r), PairsOf(r)) == Normal(r)
  {
    ProjectParts(r.projectId, ViewParts(r.view), PairsOf(r));
    ViewRoundTrip(r.projectId, r.view);
    ProjectIds(r);
    if r.view.Issues? {
      ProjectFilters(r);
    }
  }

  lemma WordReads(r: Route)
    requires (r.ProjectRun? || r.ProjectProgress?) && ValidIds(r)
    ensures ParseParts(PartsOf(r), PairsOf(r)) == Normal(r)
  {
    WordsApart();
    var word := if r.ProjectRun? then "run" else "progress";
    assert PartsOf(r) == ["projects", r.projectId] + [word];
    ProjectParts(r.projectId, [word], PairsOf(r));
    if r.ProjectProgress? {
      FirstSingle("request", r.requestId);
    }
  }

  lemma SettingsReads(r: Route)
    requires r.Settings?
    ensures ParseParts(PartsOf(r), PairsOf(r)) == Normal(r)
  {
    WordsApart();
    SettingsSection(r.section);
    FirstSingle("project", r.settingsProject);
    ValuesSingle("project", r.settingsProject, "section");
  }

  /** The parts and pairs of a route read as its normal form. */
  lemma PartsRead(r: Route)
    requires ValidIds(r) && !r.Landing?
    ensures ParseParts(PartsOf(r), PairsOf(r)) == Normal(r)
  {
    match r
    case Projects =>
    case Settings(_, _) => SettingsReads(r);
    case ProjectRun(_) => WordReads(r);
    case ProjectProgress(_, _) => WordReads(r);
    case Project(_, _, _, _, _) => ProjectReads(r);
  }

  /** Parsing a printed route gives the route's normal form. */
  lemma RouteRoundTrip(u: Utf8, decode: Component, r: Route)
    requires Utf8Laws(u) && ComponentLaw(decode) && ValidIds(r)
    ensures ParseAppRoute(u, decode, RouteHash(u, r)) == Some(Normal(r))
  {
    if r.Landing? {
      assert "#"[1..] == "";
    } else {
      HashShape(u, r);
      PartsPlain(r);
      HashParses(u, decode, PartsOf(r), PairsOf(r));
      PartsRead(r);
    }
  }

  // ----- parsed routes are normal

  lemma CleanIsNormal(value: Option<string>)
    ensures CleanText(CleanText(value)) == CleanText(value)
  {
    if CleanText(value).Some? {
      TrimTrimmed(value.value);
      TrimSame(CleanText(value).value);
    }
  }

  lemma SafeIsNormal(value: Option<string>, most: nat)
    ensures SafeOpaqueId(CleanText(SafeOpaqueId(CleanText(value), most)), most) == SafeOpaqueId(CleanText(value), most)
    ensures SafeProject(CleanText(SafeProject(CleanText(value)))) == SafeProject(CleanText(value))
  {
    CleanIsNormal(value);
  }

  predicate AllClean(values: seq<string>) {
    forall i :: 0 <= i < |values| ==> values[i] != "" && Trimmed(values[i])
  }

  lemma {:induction false} NonEmptyClean(values: seq<string>)
    ensures AllClean(NonEmpty(values))
  {
    if values != [] {
      NonEmptyClean(values[1..]);
      TrimTrimmed(values[0]);
    }
  }

  lemma {:induction false} NonEmptySame(values: seq<string>)
    requires AllClean(values)
    ensures NonEmpty(values) == values
  {
    if values != [] {
      TrimSame(values[0]);
      NonEmptySame(values[1..]);
      assert values == [values[0]] + values[1..];
    }
  }

  lemma ReadIsNormal(pairs: seq<Pair>, f: Field)
    ensures NormalField(ReadFilters(pairs), f) == ReadField(pairs, f)
  {
    var read := ReadField(pairs, f);
    FieldsListed(f);
    assert Lookup(ReadFilters(pairs), f) == read;
    if SingleText(f) {
      var text := FirstValue(pairs, NameOf(f));
      CleanIsNormal(text);
    } else {
      var values := NonEmpty(ValuesOf(pairs, NameOf(f)));
      NonEmptyClean(ValuesOf(pairs, NameOf(f)));
      NonEmptySame(values);
      assert Texts(read) == values;
    }
  }

  lemma FiltersAreNormal(pairs: seq<Pair>)
    ensures NormalFilters(ReadFilters(pairs)) == ReadFilters(pairs)
  {
    forall f ensures NormalField(ReadFilters(pairs), f) == ReadField(pairs, f) {
      ReadIsNormal(pairs, f);
    }
  }

  /** Whatever parses is in normal form, and its project is a number. */
  lemma ParsedIsNormal(u: Utf8, decode: Component, hash: string)
    ensures var r := ParseAppRoute(u, decode, hash); r.Some? ==> ValidIds(r.value) && Normal(r.value) == r.value
  {
    forall parts: seq<string>, pairs: seq<Pair>
      ensures ValidIds(ParseParts(parts, pairs)) && Normal(ParseParts(parts, pairs)) == ParseParts(parts, pairs)
    {
      PartsAreNormal(parts, pairs);
    }
  }

  lemma PartsAreNormal(parts: seq<string>, pairs: seq<Pair>)
    ensures ValidIds(ParseParts(parts, pairs)) && Normal(ParseParts(parts, pairs)) == ParseParts(parts, pairs)
  {
    FiltersAreNormal(pairs);
    SafeIsNormal(FirstValue(pairs, "request"), 96);
    SafeIsNormal(FirstValue(pairs, "target"), 160);
    SafeIsNormal(FirstValue(pairs, "issue"), 160);
    SafeIsNormal(FirstValue(pairs, "project"), 160);
  }

  /** Printing what was parsed is stable: parsing it again gives the same route, and so the same hash. */
  lemma HashStable(u: Utf8, decode: Component, hash: string)
    requires Utf8Laws(u) && ComponentLaw(decode)
    ensures var r := ParseAppRoute(u, decode, hash);
            r.Some? ==> ValidIds(r.value) && ParseAppRoute(u, decode, RouteHash(u, r.value)) == r
  {
    ParsedIsNormal(u, decode, hash);
    var r := ParseAppRoute(u, decode, hash);
    if r.Some? {
      RouteRoundTrip(u, decode, r.value);
    }
  }
}
