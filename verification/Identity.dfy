/** Identities of raw findings: anchors, the grouping fingerprint, the stable id
    and the observation id, and what an equal identity says about two findings. */
module Identity {
  import opened Sequences
  import opened Text

  /** One scanner record. `rest` stands for the fields that are only copied, and for
      whether an absent field was missing, null or empty in the scanner's JSON. */
  datatype RawFinding = RawFinding(
    file: Option<string>, ruleConcept: Option<string>, ruleId: Option<string>,
    symbol: Option<string>, snippet: Option<string>, message: Option<string>,
    sourceTool: Option<string>, nativeId: Option<string>, id: Option<string>,
    severity: Option<string>, evidenceSource: Option<string>,
    startLine: int, startCol: int, endCol: int, rest: string)

  /** What the code takes from its libraries: SHA-256 in hex, Unicode NFC, the sorted JSON
      text of a record, and the lower-cased, dashed form of a family name. */
  datatype Env = Env(sha: string -> string, nfc: string -> string,
                     json: RawFinding -> string, slug: string -> string)

  const NONE := "<NONE>"
  const AI_ADVISORY := "AI_ADVISORY"
  const DETERMINISTIC := "DETERMINISTIC"
  const IDENTITY_VERSION := "sid-v1"

  ghost predicate Ascii(s: string) {
    forall c :: c in s ==> c < '\U{0080}'
  }

  /** The tags that stand before free text inside an anchor. */
  ghost const TAGS: set<string> := {"snippet:", "symbol:", "native:", "fallback:"}

  ghost predicate HashLaws(env: Env) {
    && (forall s, t :: env.sha(s) == env.sha(t) ==> s == t)
    && (forall s :: NulFree(env.sha(s)))
  }

  ghost predicate NfcIdempotent(env: Env) {
    forall s :: env.nfc(env.nfc(s)) == env.nfc(s)
  }

  ghost predicate NfcNulFree(env: Env) {
    forall s :: NulFree(s) ==> NulFree(env.nfc(s))
  }

  ghost predicate NfcKeepsNul(env: Env) {
    forall s, t :: env.nfc(s + NUL_TEXT + t) == env.nfc(s) + NUL_TEXT + env.nfc(t)
  }

  ghost predicate NfcKeepsAscii(env: Env) {
    forall s :: Ascii(s) ==> env.nfc(s) == s
  }

  ghost predicate NfcKeepsTags(env: Env) {
    forall tag, s :: tag in TAGS ==> env.nfc(tag + s) == tag + env.nfc(s)
  }

  ghost predicate NfcKeepsPaths(env: Env) {
    forall s :: env.nfc(Slashes(env.nfc(s))) == Slashes(env.nfc(s))
  }

  /** NFC is idempotent, leaves ASCII alone, never composes across NUL, across an anchor's
      tag or across a slash, and produces no NUL of its own. */
  ghost predicate NormalFormLaws(env: Env) {
    && NfcIdempotent(env) && NfcNulFree(env) && NfcKeepsNul(env)
    && NfcKeepsAscii(env) && NfcKeepsTags(env) && NfcKeepsPaths(env)
  }

  ghost predicate Lawful(env: Env) {
    && HashLaws(env)
    && NormalFormLaws(env)
    && (forall f, g :: env.json(f) == env.json(g) ==> f == g)
    && (forall s :: NulFree(s) ==> NulFree(env.slug(s)))
  }

  predicate NulFreeField(field: Option<string>) {
    field.Some? ==> NulFree(field.value)
  }

  predicate NulFreeFinding(f: RawFinding) {
    && NulFreeField(f.file) && NulFreeField(f.ruleConcept) && NulFreeField(f.ruleId)
    && NulFreeField(f.symbol) && NulFreeField(f.snippet) && NulFreeField(f.message)
    && NulFreeField(f.sourceTool) && NulFreeField(f.nativeId) && NulFreeField(f.id)
  }

  // ----- the source's functions

  function CanonicalText(env: Env, value: string): string {
    env.nfc(if value == "" then NONE else value)
  }

  function CanonicalPath(env: Env, f: RawFinding): string {
    Slashes(CanonicalText(env, Or(f.file, "")))
  }

  function Advisory(f: RawFinding): bool {
    f.evidenceSource == Some(AI_ADVISORY)
  }

  function Concept(f: RawFinding): string {
    Or(f.ruleConcept, Or(f.ruleId, ""))
  }

  function Snippet(f: RawFinding): string {
    Squash(Or(f.snippet, ""))
  }

  function ScannerFamily(tool: string): string {
    if tool == "Trivy-SCA" then "Trivy"
    else if tool == "SnykCode" || tool == "Snyk Open Source" then "Snyk"
    else if tool == "" then "Unknown"
    else tool
  }

  function Family(f: RawFinding): string {
    ScannerFamily(Or(f.sourceTool, "Unknown"))
  }

  function LineTag(f: RawFinding): string {
    "line:" + DecInt(f.startLine)
  }

  function ColumnTag(f: RawFinding): string {
    "column:" + DecInt(f.startCol)
  }

  function NormalizedAnchor(env: Env, f: RawFinding): string {
    var column := if f.startCol != 0 then NUL_TEXT + ColumnTag(f) else "";
    if Snippet(f) != "" then
      CanonicalText(env, LineTag(f) + NUL_TEXT + "snippet:" + Snippet(f) + column)
    else LineTag(f) + column
  }

  function ColumnRange(f: RawFinding): string {
    "column:" + DecInt(f.startCol) + ":" + DecInt(if f.endCol != 0 then f.endCol else f.startCol)
  }

  function CorrelationAnchor(env: Env, f: RawFinding): string {
    if Snippet(f) != "" then
      CanonicalText(env, "snippet:" + Snippet(f) + if f.startCol != 0 then ":" + ColumnRange(f) else "")
    else if f.startCol != 0 then ColumnRange(f)
    else if Strip(Or(f.symbol, "")) != "" then CanonicalText(env, "symbol:" + Strip(Or(f.symbol, "")))
    else if Or(f.nativeId, Or(f.id, "")) != "" then
      CanonicalText(env, "native:" + Family(f) + ":" + Or(f.nativeId, Or(f.id, "")))
    else
      CanonicalText(env, "fallback:" + Family(f) + ":" + Or(f.ruleId, "unknown") + ":" + Squash(Or(f.message, "")))
  }

  function StableFields(env: Env, repository: string, f: RawFinding): seq<string> {
    [IDENTITY_VERSION, repository, CanonicalPath(env, f), Concept(f), Or(f.symbol, NONE),
     NormalizedAnchor(env, f), CorrelationAnchor(env, f)]
    + if Advisory(f) then [AI_ADVISORY] else []
  }

  function JoinTexts(env: Env, fields: seq<string>): string {
    Join(Map(field => CanonicalText(env, field), fields))
  }

  function StableId(env: Env, repository: string, f: RawFinding): string {
    IDENTITY_VERSION + ":" + env.sha(JoinTexts(env, StableFields(env, repository, f)))
  }

  function Prefix16(s: string): string {
    if |s| <= 16 then s else s[..16]
  }

  function Fingerprint(env: Env, f: RawFinding): string {
    Prefix16(env.sha(Join([CanonicalPath(env, f), DecInt(f.startLine),
                           CanonicalText(env, Concept(f)), CorrelationAnchor(env, f)])))
  }

  /** The key raw findings are grouped by. */
  function GroupKey(env: Env, f: RawFinding): (string, string) {
    (if Advisory(f) then AI_ADVISORY else DETERMINISTIC, Fingerprint(env, f))
  }

  // ----- the NUL-separated tokens of a stable id

  /** The anchor's own tokens: it is the one field of the tuple that contains NULs. */
  ghost function AnchorTokens(env: Env, f: RawFinding): seq<string> {
    [LineTag(f)]
    + (if Snippet(f) != "" then ["snippet:" + env.nfc(Snippet(f))] else [])
    + (if f.startCol != 0 then [ColumnTag(f)] else [])
  }

  ghost function HeadTokens(env: Env, repository: string, f: RawFinding): seq<string> {
    [IDENTITY_VERSION, CanonicalText(env, repository), CanonicalText(env, CanonicalPath(env, f)),
     CanonicalText(env, Concept(f)), CanonicalText(env, Or(f.symbol, NONE))]
  }

  ghost function TailTokens(env: Env, f: RawFinding): seq<string> {
    [CorrelationAnchor(env, f)] + if Advisory(f) then [AI_ADVISORY] else []
  }

  ghost function StableTokens(env: Env, repository: string, f: RawFinding): seq<string> {
    HeadTokens(env, repository, f) + AnchorTokens(env, f) + TailTokens(env, f)
  }

  lemma JoinInFront(b: seq<string>, c: seq<string>)
    requires b != []
    ensures Join([Join(b)] + c) == Join(b + c)
  {
    if c == [] {
      assert [Join(b)] + c == [Join(b)] && b + c == b;
    } else {
      JoinAppend(b, c);
      JoinAppend([Join(b)], c);
    }
  }

  lemma {:induction false} JoinNested(a: seq<string>, b: seq<string>, c: seq<string>)
    requires b != []
    ensures Join(a + [Join(b)] + c) == Join(a + b + c)
  {
    if a == [] {
      assert a + [Join(b)] + c == [Join(b)] + c && a + b + c == b + c;
      JoinInFront(b, c);
    } else {
      JoinNested(a[1..], b, c);
      JoinAfter(a, [Join(b)], c);
      JoinAfter(a, b, c);
    }
  }

  lemma JoinAfter(a: seq<string>, b: seq<string>, c: seq<string>)
    requires a != [] && b != []
    ensures Join(a + b + c) == a[0] + NUL_TEXT + Join(a[1..] + b + c)
  {
    var rest := a[1..] + b + c;
    assert a + b + c == [a[0]] + rest;
    JoinAppend([a[0]], rest);
  }

  lemma {:induction false} JoinAppend(b: seq<string>, c: seq<string>)
    requires b != [] && c != []
    ensures Join(b + c) == Join(b) + NUL_TEXT + Join(c)
  {
    if |b| == 1 {
      assert (b + c)[1..] == c;
    } else {
      JoinAppend(b[1..], c);
      assert (b + c)[1..] == b[1..] + c;
    }
  }

  lemma JoinPair(a: string, b: string)
    ensures Join([a, b]) == a + NUL_TEXT + b
  {
    assert [a, b][1..] == [b];
  }

  lemma JoinTriple(a: string, b: string, c: string)
    ensures Join([a, b, c]) == a + NUL_TEXT + (b + NUL_TEXT + c)
  {
    assert [a, b, c][1..] == [b, c];
    JoinPair(b, c);
  }

  lemma NfcPair(env: Env, a: string, b: string)
    requires NfcKeepsAscii(env) && NfcKeepsNul(env) && Ascii(a)
    ensures env.nfc(a + NUL_TEXT + b) == a + NUL_TEXT + env.nfc(b)
  {
  }

  lemma NfcTag(env: Env, tag: string, s: string)
    requires NfcKeepsTags(env) && tag in TAGS
    ensures env.nfc(tag + s) == tag + env.nfc(s)
  {
  }

  lemma AnchorIsJoin(env: Env, f: RawFinding)
    requires NormalFormLaws(env)
    ensures CanonicalText(env, NormalizedAnchor(env, f)) == Join(AnchorTokens(env, f))
  {
    assert Ascii(LineTag(f)) && Ascii(ColumnTag(f));
    if Snippet(f) != "" {
      SnippetAnchorIsJoin(env, LineTag(f), Snippet(f), ColumnTag(f), f.startCol != 0);
    } else {
      PlainAnchorIsJoin(env, LineTag(f), ColumnTag(f), f.startCol != 0);
    }
  }

  lemma PlainAnchorIsJoin(env: Env, line: string, column: string, hasColumn: bool)
    requires NormalFormLaws(env) && Ascii(line) && Ascii(column) && line != ""
    ensures CanonicalText(env, line + if hasColumn then NUL_TEXT + column else "")
         == Join([line] + [] + if hasColumn then [column] else [])
  {
    if hasColumn {
      assert Ascii(line + (NUL_TEXT + column));
      JoinPair(line, column);
      assert [line] + [] + [column] == [line, column];
      assert line + (NUL_TEXT + column) == line + NUL_TEXT + column;
    } else {
      assert [line] + [] + [] == [line];
      assert line + "" == line;
    }
  }

  lemma SnippetAlone(env: Env, line: string, snippet: string)
    requires NormalFormLaws(env) && Ascii(line)
    ensures CanonicalText(env, CanonicalText(env, line + NUL_TEXT + "snippet:" + snippet + "")) == Join([line, "snippet:" + env.nfc(snippet)])
  {
    var s := "snippet:" + snippet;
    NfcTag(env, "snippet:", snippet);
    assert line + NUL_TEXT + "snippet:" + snippet + "" == line + NUL_TEXT + s;
    NfcPair(env, line, s);
    JoinPair(line, env.nfc(s));
  }

  lemma SnippetWithColumn(env: Env, line: string, snippet: string, column: string)
    requires NormalFormLaws(env) && Ascii(line) && Ascii(column)
    ensures CanonicalText(env, CanonicalText(env, line + NUL_TEXT + "snippet:" + snippet + (NUL_TEXT + column)))
         == Join([line, "snippet:" + env.nfc(snippet), column])
  {
    var s := "snippet:" + snippet;
    NfcTag(env, "snippet:", snippet);
    var tail := s + NUL_TEXT + column;
    assert line + NUL_TEXT + "snippet:" + snippet + (NUL_TEXT + column) == line + NUL_TEXT + tail;
    NfcPair(env, line, tail);
    JoinTriple(line, env.nfc(s), column);
  }

  lemma SnippetAnchorIsJoin(env: Env, line: string, snippet: string, column: string, hasColumn: bool)
    requires NormalFormLaws(env) && Ascii(line) && Ascii(column)
    ensures CanonicalText(env, CanonicalText(env,
              line + NUL_TEXT + "snippet:" + snippet + if hasColumn then NUL_TEXT + column else ""))
         == Join([line] + ["snippet:" + env.nfc(snippet)] + if hasColumn then [column] else [])
  {
    var tagged := "snippet:" + env.nfc(snippet);
    if hasColumn {
      SnippetWithColumn(env, line, snippet, column);
      assert [line] + [tagged] + [column] == [line, tagged, column];
    } else {
      SnippetAlone(env, line, snippet);
      assert [line] + [tagged] + [] == [line, tagged];
    }
  }

  // ----- the shape of the correlation anchor

  /** A correlation anchor is hashed as it stands and is never the advisory marker. */
  ghost predicate SelfStandingAnchor(env: Env, c: string) {
    c != "" && CanonicalText(env, c) == c && NulFree(c) && c[0] != 'A'
  }

  lemma TaggedText(env: Env, tag: string, s: string)
    requires NfcKeepsTags(env) && NfcIdempotent(env) && NfcNulFree(env) && tag in TAGS
    ensures CanonicalText(env, tag + s) == tag + env.nfc(s)
    ensures CanonicalText(env, CanonicalText(env, tag + s)) == CanonicalText(env, tag + s)
    ensures NulFree(s) ==> SelfStandingAnchor(env, CanonicalText(env, tag + s))
  {
    NfcTag(env, tag, s);
    NfcTag(env, tag, env.nfc(s));
    TagShape(tag);
    assert NulFree(s) ==> NulFree(env.nfc(s));
  }

  lemma TagShape(tag: string)
    requires tag in TAGS
    ensures tag != "" && NulFree(tag) && tag[0] != 'A'
  {
  }

  lemma OrNulFree(field: Option<string>, fallback: string)
    requires NulFreeField(field) && NulFree(fallback)
    ensures NulFree(Or(field, fallback))
  {
  }

  lemma FamilyNulFree(f: RawFinding)
    requires NulFreeFinding(f)
    ensures NulFree(Family(f))
  {
    OrNulFree(f.sourceTool, "Unknown");
  }

  lemma ColumnRangeShape(f: RawFinding)
    ensures ColumnRange(f) != "" && Ascii(ColumnRange(f)) && NulFree(ColumnRange(f))
    ensures ColumnRange(f)[0] != 'A'
  {
    var e := DecInt(if f.endCol != 0 then f.endCol else f.startCol);
    assert Ascii(DecInt(f.startCol)) && Ascii(e);
    assert NulFree(DecInt(f.startCol)) && NulFree(e);
  }

  lemma CorrelationShape(env: Env, f: RawFinding)
    requires NormalFormLaws(env) && NulFreeFinding(f)
    ensures SelfStandingAnchor(env, CorrelationAnchor(env, f))
  {
    if Snippet(f) != "" {
      SnippetShape(env, f);
    } else if f.startCol != 0 {
      ColumnRangeShape(f);
      AsciiText(env, ColumnRange(f));
    } else if Strip(Or(f.symbol, "")) != "" {
      OrNulFree(f.symbol, "");
      TaggedText(env, "symbol:", Strip(Or(f.symbol, "")));
    } else if Or(f.nativeId, Or(f.id, "")) != "" {
      NativeShape(env, f);
    } else {
      FallbackShape(env, f);
    }
  }

  lemma SnippetShape(env: Env, f: RawFinding)
    requires NormalFormLaws(env) && NulFreeFinding(f) && Snippet(f) != ""
    ensures SelfStandingAnchor(env, CorrelationAnchor(env, f))
  {
    OrNulFree(f.snippet, "");
    ColumnRangeShape(f);
    var range := if f.startCol != 0 then ":" + ColumnRange(f) else "";
    assert NulFree(Snippet(f) + range);
    assert "snippet:" + Snippet(f) + range == "snippet:" + (Snippet(f) + range);
    TaggedText(env, "snippet:", Snippet(f) + range);
  }

  lemma NativeShape(env: Env, f: RawFinding)
    requires NormalFormLaws(env) && NulFreeFinding(f)
    ensures SelfStandingAnchor(env, CanonicalText(env, "native:" + Family(f) + ":" + Or(f.nativeId, Or(f.id, ""))))
  {
    var native := Or(f.nativeId, Or(f.id, ""));
    FamilyNulFree(f);
    OrNulFree(f.id, "");
    OrNulFree(f.nativeId, Or(f.id, ""));
    var s := Family(f) + ":" + native;
    assert NulFree(s);
    assert "native:" + Family(f) + ":" + native == "native:" + s;
    TaggedText(env, "native:", s);
  }

  lemma FallbackShape(env: Env, f: RawFinding)
    requires NormalFormLaws(env) && NulFreeFinding(f)
    ensures SelfStandingAnchor(env, CanonicalText(env,
              "fallback:" + Family(f) + ":" + Or(f.ruleId, "unknown") + ":" + Squash(Or(f.message, ""))))
  {
    var rule, message := Or(f.ruleId, "unknown"), Squash(Or(f.message, ""));
    OrNulFree(f.ruleId, "unknown");
    OrNulFree(f.message, "");
    FamilyNulFree(f);
    var s := Family(f) + ":" + rule + ":" + message;
    assert NulFree(s);
    assert "fallback:" + Family(f) + ":" + rule + ":" + message == "fallback:" + s;
    TaggedText(env, "fallback:", s);
  }

  // ----- the tokens determine the identity

  lemma NulFreeTogether(s: seq<string>, t: seq<string>)
    requires AllNulFree(s) && AllNulFree(t)
    ensures AllNulFree(s + t)
  {
  }

  lemma TailNulFree(env: Env, f: RawFinding)
    requires NormalFormLaws(env) && NulFreeFinding(f)
    ensures AllNulFree(TailTokens(env, f))
  {
    CorrelationShape(env, f);
    assert NulFree(AI_ADVISORY);
  }

  lemma TokensNulFree(env: Env, repository: string, f: RawFinding)
    requires Lawful(env) && NulFreeFinding(f) && NulFree(repository)
    ensures AllNulFree(StableTokens(env, repository, f))
  {
    HeadNulFree(env, repository, f);
    AnchorNulFree(env, f);
    TailNulFree(env, f);
    NulFreeTogether(HeadTokens(env, repository, f), AnchorTokens(env, f));
    NulFreeTogether(HeadTokens(env, repository, f) + AnchorTokens(env, f), TailTokens(env, f));
  }

  lemma CanonicalTextNulFree(env: Env, s: string)
    requires NfcNulFree(env) && NulFree(s)
    ensures NulFree(CanonicalText(env, s))
  {
  }

  lemma HeadNulFree(env: Env, repository: string, f: RawFinding)
    requires Lawful(env) && NulFreeFinding(f) && NulFree(repository)
    ensures AllNulFree(HeadTokens(env, repository, f))
  {
    CanonicalTextNulFree(env, repository);
    PathNulFree(env, f);
    ConceptNulFree(env, f);
    OrNulFree(f.symbol, NONE);
    CanonicalTextNulFree(env, Or(f.symbol, NONE));
  }

  lemma AnchorNulFree(env: Env, f: RawFinding)
    requires NormalFormLaws(env) && NulFreeFinding(f)
    ensures AllNulFree(AnchorTokens(env, f))
  {
    OrNulFree(f.snippet, "");
    assert NulFree(DecInt(f.startLine)) && NulFree(DecInt(f.startCol));
    assert NulFree(LineTag(f)) && NulFree(ColumnTag(f));
    assert NulFree("snippet:" + env.nfc(Snippet(f)));
  }

  lemma PathNulFree(env: Env, f: RawFinding)
    requires Lawful(env) && NulFreeFinding(f)
    ensures NulFree(CanonicalPath(env, f)) && NulFree(CanonicalText(env, CanonicalPath(env, f)))
  {
    OrNulFree(f.file, "");
  }

  lemma ConceptNulFree(env: Env, f: RawFinding)
    requires Lawful(env) && NulFreeFinding(f)
    ensures NulFree(Concept(f)) && NulFree(CanonicalText(env, Concept(f)))
  {
    OrNulFree(f.ruleId, "");
    OrNulFree(f.ruleConcept, Or(f.ruleId, ""));
  }

  lemma StableIdIsTokens(env: Env, repository: string, f: RawFinding)
    requires Lawful(env) && NulFreeFinding(f)
    ensures JoinTexts(env, StableFields(env, repository, f)) == Join(StableTokens(env, repository, f))
  {
    StableFieldTexts(env, repository, f);
    JoinNested(HeadTokens(env, repository, f), AnchorTokens(env, f), TailTokens(env, f));
  }

  lemma CorrelationText(env: Env, f: RawFinding)
    requires NormalFormLaws(env) && NulFreeFinding(f)
    ensures CanonicalText(env, CorrelationAnchor(env, f)) == CorrelationAnchor(env, f)
  {
    CorrelationShape(env, f);
  }

  lemma ConstantTexts(env: Env)
    requires NfcKeepsAscii(env)
    ensures CanonicalText(env, AI_ADVISORY) == AI_ADVISORY && CanonicalText(env, IDENTITY_VERSION) == IDENTITY_VERSION
  {
    AsciiText(env, AI_ADVISORY);
    AsciiText(env, IDENTITY_VERSION);
  }

  lemma StableFieldTexts(env: Env, repository: string, f: RawFinding)
    requires NormalFormLaws(env) && NulFreeFinding(f)
    ensures Map(field => CanonicalText(env, field), StableFields(env, repository, f))
         == HeadTokens(env, repository, f) + [Join(AnchorTokens(env, f))] + TailTokens(env, f)
  {
    CorrelationText(env, f);
    AnchorIsJoin(env, f);
    ConstantTexts(env);
    MapStableFields(env, repository, f);
  }

  lemma MapStableFields(env: Env, repository: string, f: RawFinding)
    requires CanonicalText(env, AI_ADVISORY) == AI_ADVISORY
    requires CanonicalText(env, IDENTITY_VERSION) == IDENTITY_VERSION
    requires CanonicalText(env, CorrelationAnchor(env, f)) == CorrelationAnchor(env, f)
    requires CanonicalText(env, NormalizedAnchor(env, f)) == Join(AnchorTokens(env, f))
    ensures Map(field => CanonicalText(env, field), StableFields(env, repository, f))
         == HeadTokens(env, repository, f) + [Join(AnchorTokens(env, f))] + TailTokens(env, f)
  {
    MapFields(field => CanonicalText(env, field), IDENTITY_VERSION, repository, CanonicalPath(env, f), Concept(f), Or(f.symbol, NONE),
              NormalizedAnchor(env, f), CorrelationAnchor(env, f), if Advisory(f) then [AI_ADVISORY] else []);
  }

  lemma MapFields(text: string -> string, v: string, r: string, p: string, c: string, s: string, a: string, d: string, m: seq<string>)
    requires forall x :: x in m ==> text(x) == x
    ensures Map(text, [v, r, p, c, s, a, d] + m) == [text(v), text(r), text(p), text(c), text(s)] + [text(a)] + ([text(d)] + m)
  {
    var fields := [v, r, p, c, s, a, d] + m;
    forall i | 7 <= i < |fields| ensures text(fields[i]) == fields[i] {
      assert fields[i] in m;
    }
  }

  lemma AsciiText(env: Env, s: string)
    requires NfcKeepsAscii(env) && Ascii(s) && s != ""
    ensures CanonicalText(env, s) == s
  {
  }

  /** Everything a stable id says about its finding. */
  ghost predicate SameHashedIdentity(env: Env, f: RawFinding, g: RawFinding) {
    && Advisory(f) == Advisory(g)
    && CanonicalText(env, CanonicalPath(env, f)) == CanonicalText(env, CanonicalPath(env, g))
    && CanonicalText(env, Concept(f)) == CanonicalText(env, Concept(g))
    && CanonicalText(env, Or(f.symbol, NONE)) == CanonicalText(env, Or(g.symbol, NONE))
    && f.startLine == g.startLine && f.startCol == g.startCol
    && env.nfc(Snippet(f)) == env.nfc(Snippet(g))
    && (Snippet(f) == "" <==> Snippet(g) == "")
    && CorrelationAnchor(env, f) == CorrelationAnchor(env, g)
  }

  lemma AnchorTokensShape(env: Env, f: RawFinding)
    ensures var t := AnchorTokens(env, f);
            && t[0] == LineTag(f)
            && |t| == 1 + (if Snippet(f) != "" then 1 else 0) + (if f.startCol != 0 then 1 else 0)
            && (Snippet(f) != "" ==> t[1] == "snippet:" + env.nfc(Snippet(f)))
            && (f.startCol != 0 ==> t[|t| - 1] == ColumnTag(f))
  {
  }

  lemma LineTagInjective(f: RawFinding, g: RawFinding)
    requires LineTag(f) == LineTag(g)
    ensures f.startLine == g.startLine
  {
    assert LineTag(f)[5..] == DecInt(f.startLine) && LineTag(g)[5..] == DecInt(g.startLine);
    DecIntInjective(f.startLine, g.startLine);
  }

  lemma ColumnTagInjective(f: RawFinding, g: RawFinding)
    requires ColumnTag(f) == ColumnTag(g)
    ensures f.startCol == g.startCol
  {
    assert ColumnTag(f)[7..] == DecInt(f.startCol) && ColumnTag(g)[7..] == DecInt(g.startCol);
    DecIntInjective(f.startCol, g.startCol);
  }

  /** The anchor's own NULs do not make it ambiguous: its tokens say which parts are present. */
  lemma AnchorTokensInjective(env: Env, f: RawFinding, g: RawFinding)
    requires AnchorTokens(env, f) == AnchorTokens(env, g)
    ensures f.startLine == g.startLine && f.startCol == g.startCol
    ensures env.nfc(Snippet(f)) == env.nfc(Snippet(g)) && (Snippet(f) == "" <==> Snippet(g) == "")
  {
    AnchorTokensShape(env, f);
    AnchorTokensShape(env, g);
    LineTagInjective(f, g);
    var s, t := "snippet:" + env.nfc(Snippet(f)), "snippet:" + env.nfc(Snippet(g));
    assert s[0] == 's' && t[0] == 's' && ColumnTag(f)[0] == 'c' && ColumnTag(g)[0] == 'c';
    assert Snippet(f) == "" <==> Snippet(g) == "";
    assert s[8..] == env.nfc(Snippet(f)) && t[8..] == env.nfc(Snippet(g));
    if f.startCol != 0 {
      ColumnTagInjective(f, g);
    }
  }

  /** Tokens with a last part that says whether a marker follows fall apart in one way only. */
  lemma TokensApart(head: seq<string>, a: seq<string>, c: string, marked: bool, head': seq<string>, a': seq<string>, c': string, marked': bool,
                    marker: string)
    requires |head| == |head'| && c != marker && c' != marker
    requires head + a + ([c] + if marked then [marker] else []) == head' + a' + ([c'] + if marked' then [marker] else [])
    ensures marked == marked' && head == head' && a == a' && c == c'
  {
    var s := head + a + ([c] + if marked then [marker] else []);
    var n := |s|;
    assert s[n - 1] == if marked then marker else c;
    assert s[n - 1] == if marked' then marker else c';
    assert s[..|head|] == head && s[..|head|] == head';
    assert s[|head|..|head| + |a|] == a && s[|head|..|head| + |a'|] == a';
    assert s[|head| + |a|] == c && s[|head| + |a'|] == c';
  }

  lemma CorrelationIsNoMarker(env: Env, f: RawFinding)
    requires NormalFormLaws(env) && NulFreeFinding(f)
    ensures CorrelationAnchor(env, f) != AI_ADVISORY
  {
    CorrelationShape(env, f);
  }

  lemma TokensDetermineIdentity(env: Env, repository: string, f: RawFinding, g: RawFinding)
    requires Lawful(env) && NulFreeFinding(f) && NulFreeFinding(g)
    requires StableTokens(env, repository, f) == StableTokens(env, repository, g)
    ensures SameHashedIdentity(env, f, g)
  {
    CorrelationIsNoMarker(env, f);
    CorrelationIsNoMarker(env, g);
    TokensApart(HeadTokens(env, repository, f), AnchorTokens(env, f), CorrelationAnchor(env, f), Advisory(f),
                HeadTokens(env, repository, g), AnchorTokens(env, g), CorrelationAnchor(env, g), Advisory(g), AI_ADVISORY);
    AnchorTokensInjective(env, f, g);
    HeadTokensInjective(env, repository, f, g);
  }

  lemma HeadTokensInjective(env: Env, repository: string, f: RawFinding, g: RawFinding)
    requires HeadTokens(env, repository, f) == HeadTokens(env, repository, g)
    ensures CanonicalText(env, CanonicalPath(env, f)) == CanonicalText(env, CanonicalPath(env, g))
    ensures CanonicalText(env, Concept(f)) == CanonicalText(env, Concept(g))
    ensures CanonicalText(env, Or(f.symbol, NONE)) == CanonicalText(env, Or(g.symbol, NONE))
  {
    var s, t := HeadTokens(env, repository, f), HeadTokens(env, repository, g);
    assert s[2] == t[2] && s[3] == t[3] && s[4] == t[4];
  }

  /** Equal stable ids, exactly when the hashed identities are equal. */
  lemma StableIdExact(env: Env, repository: string, f: RawFinding, g: RawFinding)
    requires Lawful(env) && NulFreeFinding(f) && NulFreeFinding(g) && NulFree(repository)
    ensures StableId(env, repository, f) == StableId(env, repository, g) <==> SameHashedIdentity(env, f, g)
  {
    StableIdIsTokens(env, repository, f);
    StableIdIsTokens(env, repository, g);
    if StableId(env, repository, f) == StableId(env, repository, g) {
      var prefix := IDENTITY_VERSION + ":";
      assert StableId(env, repository, f)[|prefix|..] == env.sha(JoinTexts(env, StableFields(env, repository, f)));
      assert StableId(env, repository, g)[|prefix|..] == env.sha(JoinTexts(env, StableFields(env, repository, g)));
      TokensNulFree(env, repository, f);
      TokensNulFree(env, repository, g);
      JoinInjective(StableTokens(env, repository, f), StableTokens(env, repository, g));
      TokensDetermineIdentity(env, repository, f, g);
    }
    if SameHashedIdentity(env, f, g) {
      assert StableTokens(env, repository, f) == StableTokens(env, repository, g);
    }
  }

  /** The one identity the hash confuses: an empty path hashes as the text of a missing one. */
  ghost predicate PathClash(env: Env, f: RawFinding, g: RawFinding) {
    && SameHashedIdentity(env, f, g)
    && CanonicalPath(env, f) == "" && CanonicalPath(env, g) == NONE
  }

  lemma EqualHashedPaths(env: Env, f: RawFinding, g: RawFinding)
    requires NormalFormLaws(env)
    requires CanonicalText(env, CanonicalPath(env, f)) == CanonicalText(env, CanonicalPath(env, g))
    ensures CanonicalPath(env, f) == CanonicalPath(env, g)
         || (CanonicalPath(env, f) == "" && CanonicalPath(env, g) == NONE)
         || (CanonicalPath(env, f) == NONE && CanonicalPath(env, g) == "")
  {
    assert Ascii(NONE);
  }

  /** Findings of different groups share a stable id exactly when an empty path
      (such as `./`) meets a missing one and everything else that is hashed agrees. */
  lemma SharedStableIdExact(env: Env, repository: string, f: RawFinding, g: RawFinding)
    requires Lawful(env) && NulFreeFinding(f) && NulFreeFinding(g) && NulFree(repository)
    requires GroupKey(env, f) != GroupKey(env, g)
    ensures StableId(env, repository, f) == StableId(env, repository, g)
       <==> PathClash(env, f, g) || PathClash(env, g, f)
  {
    StableIdExact(env, repository, f, g);
    if SameHashedIdentity(env, f, g) {
      EqualHashedPaths(env, f, g);
    }
  }
}
