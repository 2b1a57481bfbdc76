/** Application routes: printing a route as a hash and parsing a hash as a route. */
module Routes {
  import opened Sequences
  import opened Text
  import opened Forms

  // ----- routes

  datatype View = Overview | Issues | Coverage | Report

  datatype Section = General | Integrations | Provenance

  datatype Field =
    | Query | Severity | Category | Scanner | Rule | Files | Directory | Location | Overlap | Group
    | AnnotationSource | Workflow | Job | AnnotationLevel | CorrelatedScanner

  datatype Value = One(text: string) | Many(texts: seq<string>)

  /** The filters that are set. */
  type Filters = map<Field, Value>

  datatype Route =
    | Landing
    | Projects
    | Project(projectId: string, view: View, target: Option<string>, issue: Option<string>, filters: Option<Filters>)
    | ProjectRun(projectId: string)
    | ProjectProgress(projectId: string, requestId: Option<string>)
    | Settings(section: Section, settingsProject: Option<string>)

  const FIELDS: seq<Field> := [
    Query, Severity, Category, Scanner, Rule, Files, Directory, Location, Overlap, Group,
    AnnotationSource, Workflow, Job, AnnotationLevel, CorrelatedScanner]

  /** A field's name in the query. */
  function NameOf(f: Field): string {
    match f
    case Query => "q"
    case Severity => "severity"
    case Category => "category"
    case Scanner => "scanner"
    case Rule => "rule"
    case Files => "file"
    case Directory => "directory"
    case Location => "location"
    case Overlap => "overlap"
    case Group => "group"
    case AnnotationSource => "annotationSource"
    case Workflow => "workflow"
    case Job => "job"
    case AnnotationLevel => "annotationLevel"
    case CorrelatedScanner => "correlatedScanner"
  }

  predicate SingleText(f: Field) {
    f.Query? || f.Location? || f.Overlap? || f.Group?
  }

  // ----- texts

  predicate IsJsSpace(c: char) {
    || '\t' <= c <= '\r' || c == ' ' || c == '\U{00a0}' || c == '\U{feff}' || c == '\U{1680}' || '\U{2000}' <= c <= '\U{200a}'
    || c == '\U{2028}' || c == '\U{2029}' || c == '\U{202f}' || c == '\U{205f}' || c == '\U{3000}'
  }

  function Trim(s: string): string {
    if s == "" then "" else if IsJsSpace(s[0]) then Trim(s[1..]) else if IsJsSpace(s[|s| - 1]) then Trim(s[..|s| - 1]) else s
  }

  predicate Trimmed(s: string) {
    s == "" || (!IsJsSpace(s[0]) && !IsJsSpace(s[|s| - 1]))
  }

  lemma {:induction false} TrimTrimmed(s: string)
    ensures Trimmed(Trim(s))
  {
    if s != "" {
      if IsJsSpace(s[0]) { TrimTrimmed(s[1..]); } else if IsJsSpace(s[|s| - 1]) { TrimTrimmed(s[..|s| - 1]); }
    }
  }

  lemma TrimSame(s: string)
    requires Trimmed(s)
    ensures Trim(s) == s
  {
  }

  function CleanText(value: Option<string>): Option<string> {
    if value.Some? && Trim(value.value) != "" then Some(Trim(value.value)) else None
  }

  predicate IsDigit(c: char) { '0' <= c <= '9' }

  predicate ProjectNumber(s: string) {
    s != "" && '1' <= s[0] <= '9' && forall i :: 0 <= i < |s| ==> IsDigit(s[i])
  }

  function SafeProject(value: Option<string>): Option<string> {
    if value.Some? && ProjectNumber(value.value) then value else None
  }

  /** The length in UTF-16 code units. */
  function Units(s: string): nat {
    if s == "" then 0 else (if s[0] as int > 0xFFFF then 2 else 1) + Units(s[1..])
  }

  predicate Encoded(s: string) {
    || Occurs("%2e", s) || Occurs("%2E", s) || Occurs("%2f", s) || Occurs("%2F", s) || Occurs("%5c", s) || Occurs("%5C", s)
  }

  predicate Opaque(s: string, most: nat) {
    && s != "" && Units(s) <= most && !Occurs("..", s) && !Encoded(s)
    && forall i :: 0 <= i < |s| ==> s[i] > '\U{001f}' && s[i] != '\U{007f}' && s[i] != '\\' && s[i] != '/'
  }

  function SafeOpaqueId(value: Option<string>, most: nat): Option<string> {
    if value.Some? && Opaque(value.value, most) then value else None
  }

  // ----- parameters

  function ValuesOf(pairs: seq<Pair>, name: string): seq<string> {
    if pairs == [] then [] else (if pairs[0].0 == name then [pairs[0].1] else []) + ValuesOf(pairs[1..], name)
  }

  function FirstValue(pairs: seq<Pair>, name: string): Option<string> {
    var values := ValuesOf(pairs, name);
    if values == [] then None else Some(values[0])
  }

  /** `values.map(trim).filter(Boolean)`. */
  function NonEmpty(values: seq<string>): seq<string> {
    if values == [] then []
    else (if Trim(values[0]) != "" then [Trim(values[0])] else []) + NonEmpty(values[1..])
  }

  function Collapse(f: Field, values: seq<string>): Option<Value> {
    if values == [] then None
    else if |values| == 1 && !f.Files? then Some(One(values[0]))
    else Some(Many(values))
  }

  /** What the parser reads for a field. */
  function ReadField(pairs: seq<Pair>, f: Field): Option<Value> {
    if SingleText(f) then
      var text := CleanText(FirstValue(pairs, NameOf(f)));
      if text.Some? then Some(One(text.value)) else None
    else Collapse(f, NonEmpty(ValuesOf(pairs, NameOf(f))))
  }

  function ReadFilters(pairs: seq<Pair>): Filters {
    map f: Field | f in FIELDS && ReadField(pairs, f).Some? :: ReadField(pairs, f).value
  }

  // ----- parsing

  /** `decodeURIComponent`; nothing when it throws. */
  type Component = string -> Option<string>

  /** It leaves texts without percent signs alone. */
  ghost predicate ComponentLaw(decode: Component) {
    forall s :: Lacks(s, '%') ==> decode(s) == Some(s)
  }

  function DecodeAll(decode: Component, parts: seq<string>): Option<seq<string>> {
    if parts == [] then Some([])
    else
      match decode(parts[0])
      case None => None
      case Some(part) =>
        match DecodeAll(decode, parts[1..])
        case None => None
        case Some(rest) => Some([part] + rest)
  }

  predicate NotEmpty(s: string) { s != "" }

  function Parts(decode: Component, pathname: string): Option<seq<string>> {
    DecodeAll(decode, Filter(NotEmpty, Split(pathname, '/')))
  }

  function Part(parts: seq<string>, i: nat): Option<string> {
    if i < |parts| then Some(parts[i]) else None
  }

  function SectionNamed(name: Option<string>): Option<Section> {
    if name == Some("overview") then Some(General)
    else if name == Some("integrations") then Some(Integrations)
    else if name == Some("provenance") then Some(Provenance)
    else None
  }

  function LegacySection(name: Option<string>): Option<Section> {
    if name == Some("general") then Some(General)
    else if name == Some("connections") then Some(Integrations)
    else if name == Some("provenance") then Some(Provenance)
    else None
  }

  function ViewNamed(name: Option<string>): View {
    if name == Some("issues") then Issues
    else if name == Some("coverage") then Coverage
    else if name == Some("report") then Report
    else Overview
  }

  function ParseSettings(section: Option<string>, pairs: seq<Pair>): Route {
    var legacy := CleanText(FirstValue(pairs, "section"));
    if section == Some("projects") || legacy == Some("projects") then Projects
    else
      var candidate := if SectionNamed(section).Some? then SectionNamed(section) else LegacySection(legacy);
      Settings(if candidate.Some? then candidate.value else General, SafeProject(CleanText(FirstValue(pairs, "project"))))
  }

  function ParseProject(projectId: string, part: Option<string>, pairs: seq<Pair>): Route {
    if part == Some("run") then ProjectRun(projectId)
    else if part == Some("progress") then ProjectProgress(projectId, SafeOpaqueId(CleanText(FirstValue(pairs, "request")), 96))
    else
      var view := ViewNamed(part);
      Project(projectId, view, SafeOpaqueId(CleanText(FirstValue(pairs, "target")), 160),
              if view.Issues? then SafeOpaqueId(CleanText(FirstValue(pairs, "issue")), 160) else None,
              if view.Issues? then Some(ReadFilters(pairs)) else None)
  }

  function ParseParts(parts: seq<string>, pairs: seq<Pair>): Route {
    if Part(parts, 0) == Some("projects") && |parts| == 1 then Projects
    else if Part(parts, 0) == Some("settings") && |parts| <= 2 then ParseSettings(Part(parts, 1), pairs)
    else
      match if Part(parts, 0) == Some("projects") then SafeProject(Part(parts, 1)) else None
      case Some(projectId) => ParseProject(projectId, Part(parts, 2), pairs)
      case None => Projects
  }

  /** `parseAppRoute`; nothing when a path part cannot be decoded. */
  function ParseAppRoute(u: Utf8, decode: Component, hash: string): Option<Route> {
    var raw := if hash != "" && hash[0] == '#' then hash[1..] else hash;
    if raw == "" then Some(Landing)
    else if raw[0] != '/' then Some(Projects)
    else
      var pieces := Split(raw, '?');
      match Parts(decode, pieces[0])
      case None => None
      case Some(parts) => Some(ParseParts(parts, Parse(u, if |pieces| > 1 then pieces[1] else "")))
  }

  // ----- printing

  function Single(name: string, value: Option<string>): seq<Pair> {
    if value.Some? && value.value != "" then [(name, value.value)] else []
  }

  function Each(name: string, values: seq<string>): (r: seq<Pair>)
    ensures |r| == |values| && forall i :: 0 <= i < |r| ==> r[i] == (name, values[i])
  {
    seq(|values|, i requires 0 <= i < |values| => (name, values[i]))
  }

  function WriteField(filters: Filters, f: Field): seq<Pair> {
    if f !in filters then []
    else
      match filters[f]
      case One(text) => Single(NameOf(f), Some(text))
      case Many(texts) => Each(NameOf(f), texts)
  }

  function WriteFields(filters: Filters, fields: seq<Field>): seq<Pair> {
    if fields == [] then [] else WriteField(filters, fields[0]) + WriteFields(filters, fields[1..])
  }

  function ViewPart(view: View): string {
    match view
    case Overview => ""
    case Issues => "/issues"
    case Coverage => "/coverage"
    case Report => "/report"
  }

  function SectionPart(section: Section): string {
    match section
    case General => "overview"
    case Integrations => "integrations"
    case Provenance => "provenance"
  }

  function QueryPart(u: Utf8, pairs: seq<Pair>): string
    requires Utf8Laws(u)
  {
    if pairs == [] then "" else "?" + Serialize(u, pairs)
  }

  function ProjectPairs(r: Route): seq<Pair>
    requires r.Project?
  {
    Single("target", r.target) + Single("issue", r.issue)
    + (if r.view.Issues? && r.filters.Some? then WriteFields(r.filters.value, FIELDS) else [])
  }

  predicate ValidIds(r: Route) {
    (r.Project? || r.ProjectRun? || r.ProjectProgress?) ==> ProjectNumber(r.projectId)
  }

  /** `routeHash`, for a route whose project is a number: `encodeURIComponent` leaves digits alone. */
  function RouteHash(u: Utf8, r: Route): string
    requires Utf8Laws(u) && ValidIds(r)
  {
    match r
    case Landing => "#"
    case Projects => "#/projects"
    case Settings(section, project) => "#/settings/" + SectionPart(section) + QueryPart(u, Single("project", project))
    case ProjectRun(projectId) => "#/projects/" + projectId + "/run"
    case ProjectProgress(projectId, request) => "#/projects/" + projectId + "/progress" + QueryPart(u, Single("request", request))
    case Project(projectId, view, _, _, _) => "#/projects/" + projectId + ViewPart(view) + QueryPart(u, ProjectPairs(r))
  }

  // ----- the normal form

  function Texts(v: Option<Value>): seq<string> {
    match v
    case None => []
    case Some(One(text)) => if text == "" then [] else [text]
    case Some(Many(texts)) => texts
  }

  function Lookup(filters: Filters, f: Field): Option<Value> {
    if f in filters then Some(filters[f]) else None
  }

  /** A field's normal value: trimmed, empties dropped, singletons collapsed except files; of a
      field with one text, the first. */
  function NormalField(filters: Filters, f: Field): Option<Value> {
    var texts := Texts(Lookup(filters, f));
    if SingleText(f) then
      if texts != [] && Trim(texts[0]) != "" then Some(One(Trim(texts[0]))) else None
    else Collapse(f, NonEmpty(texts))
  }

  function NormalFilters(filters: Filters): Filters {
    map f: Field | f in FIELDS && NormalField(filters, f).Some? :: NormalField(filters, f).value
  }

  function Normal(r: Route): Route {
    match r
    case Settings(section, project) => Settings(section, SafeProject(CleanText(project)))
    case ProjectProgress(projectId, request) => ProjectProgress(projectId, SafeOpaqueId(CleanText(request), 96))
    case Project(projectId, view, target, issue, filters) =>
      Project(projectId, view, SafeOpaqueId(CleanText(target), 160),
              if view.Issues? then SafeOpaqueId(CleanText(issue), 160) else None,
              if view.Issues? then Some(NormalFilters(if filters.Some? then filters.value else map[])) else None)
    case _ => r
  }
}
