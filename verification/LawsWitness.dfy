/** The laws that the theorems assume of the libraries can all be met: one concrete model of each. */
module LawsWitness {
  import opened Sequences
  import opened Text
  import opened Identity
  import Shard
  import Forms
  import Routes

  const MARK: char := '\U{0001}'

  // ----- an injective text without NULs

  function Escape(s: string): string {
    if s == "" then ""
    else (if s[0] == NUL then [MARK, '0'] else if s[0] == MARK then [MARK, '1'] else [s[0]]) + Escape(s[1..])
  }

  function Unescape(s: string): string {
    if s == "" then ""
    else if s[0] == MARK && |s| > 1 then [if s[1] == '0' then NUL else MARK] + Unescape(s[2..])
    else [s[0]] + Unescape(s[1..])
  }

  lemma {:induction false} EscapeRoundTrip(s: string)
    ensures Unescape(Escape(s)) == s && NulFree(Escape(s))
  {
    if s != "" {
      EscapeRoundTrip(s[1..]);
      var e := Escape(s);
      if s[0] == NUL || s[0] == MARK {
        assert e[2..] == Escape(s[1..]);
      } else {
        assert e[1..] == Escape(s[1..]);
      }
    }
  }

  lemma EscapeInjective(s: string, t: string)
    requires Escape(s) == Escape(t)
    ensures s == t
  {
    EscapeRoundTrip(s);
    EscapeRoundTrip(t);
  }

  // ----- the record's text

  function Field(o: Option<string>): string {
    if o.Some? then "+" + Escape(o.value) else ""
  }

  lemma FieldInjective(a: Option<string>, b: Option<string>)
    ensures NulFree(Field(a)) && (Field(a) == Field(b) ==> a == b)
  {
    if a.Some? {
      EscapeRoundTrip(a.value);
      assert Field(a)[1..] == Escape(a.value);
    }
    if b.Some? {
      EscapeRoundTrip(b.value);
      assert Field(b)[1..] == Escape(b.value);
    }
  }

  function Tokens(f: RawFinding): seq<string> {
    [Field(f.file), Field(f.ruleConcept), Field(f.ruleId), Field(f.symbol), Field(f.snippet), Field(f.message),
     Field(f.sourceTool), Field(f.nativeId), Field(f.id), Field(f.severity), Field(f.evidenceSource),
     DecInt(f.startLine), DecInt(f.startCol), DecInt(f.endCol), Escape(f.rest)]
  }

  function Record(f: RawFinding): string {
    Join(Tokens(f))
  }

  lemma DecIntNulFree(n: int)
    ensures NulFree(DecInt(n))
  {
  }

  lemma TokensFree(f: RawFinding)
    ensures AllNulFree(Tokens(f))
  {
    FieldInjective(f.file, None);
    FieldInjective(f.ruleConcept, None);
    FieldInjective(f.ruleId, None);
    FieldInjective(f.symbol, None);
    FieldInjective(f.snippet, None);
    FieldInjective(f.message, None);
    FieldInjective(f.sourceTool, None);
    FieldInjective(f.nativeId, None);
    FieldInjective(f.id, None);
    FieldInjective(f.severity, None);
    FieldInjective(f.evidenceSource, None);
    DecIntNulFree(f.startLine);
    DecIntNulFree(f.startCol);
    DecIntNulFree(f.endCol);
    EscapeRoundTrip(f.rest);
  }

  lemma TokensInjective(f: RawFinding, g: RawFinding)
    requires Tokens(f) == Tokens(g)
    ensures f == g
  {
    var s, t := Tokens(f), Tokens(g);
    assert forall i :: 0 <= i < 15 ==> s[i] == t[i];
    FieldInjective(f.file, g.file);
    FieldInjective(f.ruleConcept, g.ruleConcept);
    FieldInjective(f.ruleId, g.ruleId);
    FieldInjective(f.symbol, g.symbol);
    FieldInjective(f.snippet, g.snippet);
    FieldInjective(f.message, g.message);
    FieldInjective(f.sourceTool, g.sourceTool);
    FieldInjective(f.nativeId, g.nativeId);
    FieldInjective(f.id, g.id);
    FieldInjective(f.severity, g.severity);
    FieldInjective(f.evidenceSource, g.evidenceSource);
    DecIntInjective(f.startLine, g.startLine);
    DecIntInjective(f.startCol, g.startCol);
    DecIntInjective(f.endCol, g.endCol);
    EscapeInjective(f.rest, g.rest);
  }

  lemma RecordInjective(f: RawFinding, g: RawFinding)
    requires Record(f) == Record(g)
    ensures f == g
  {
    TokensFree(f);
    TokensFree(g);
    JoinInjective(Tokens(f), Tokens(g));
    TokensInjective(f, g);
  }

  const ENV: Env := Env(Escape, s => s, Record, s => s)

  /** The hash, normal-form and record laws are consistent. */
  lemma LawfulHolds()
    ensures Lawful(ENV)
  {
    forall s, t | Escape(s) == Escape(t) ensures s == t { EscapeInjective(s, t); }
    forall s ensures NulFree(Escape(s)) { EscapeRoundTrip(s); }
    forall f, g | Record(f) == Record(g) ensures f == g { RecordInjective(f, g); }
  }

  // ----- the shard codec

  ghost function Listing(keys: set<string>): seq<string> {
    if keys == {} then [] else var key :| key in keys; [key] + Listing(keys - {key})
  }

  lemma {:induction false} ListingMembers(keys: set<string>)
    ensures forall key :: key in Listing(keys) <==> key in keys
  {
    if keys != {} {
      var key :| key in keys && Listing(keys) == [key] + Listing(keys - {key});
      ListingMembers(keys - {key});
    }
  }

  ghost function Entries(documents: map<string, string>, keys: seq<string>): seq<string>
    requires forall i :: 0 <= i < |keys| ==> keys[i] in documents
  {
    if keys == [] then [""] else [Escape(keys[0]), Escape(documents[keys[0]])] + Entries(documents, keys[1..])
  }

  lemma {:induction false} EntriesFree(documents: map<string, string>, keys: seq<string>)
    requires forall i :: 0 <= i < |keys| ==> keys[i] in documents
    ensures AllNulFree(Entries(documents, keys)) && Entries(documents, keys) != []
  {
    if keys != [] {
      EscapeRoundTrip(keys[0]);
      EscapeRoundTrip(documents[keys[0]]);
      EntriesFree(documents, keys[1..]);
    }
  }

  lemma {:induction false} EntriesInjective(a: map<string, string>, b: map<string, string>, s: seq<string>, t: seq<string>)
    requires forall i :: 0 <= i < |s| ==> s[i] in a
    requires forall i :: 0 <= i < |t| ==> t[i] in b
    requires Entries(a, s) == Entries(b, t)
    ensures s == t && forall i :: 0 <= i < |s| ==> a[s[i]] == b[s[i]]
  {
    EntriesLength(a, s);
    EntriesLength(b, t);
    if s != [] {
      var x, y := Entries(a, s), Entries(b, t);
      assert x[0] == y[0] && x[1] == y[1] && x[2..] == Entries(a, s[1..]) && y[2..] == Entries(b, t[1..]);
      EscapeInjective(s[0], t[0]);
      EscapeInjective(a[s[0]], b[t[0]]);
      EntriesInjective(a, b, s[1..], t[1..]);
      assert s == [s[0]] + s[1..] && t == [t[0]] + t[1..];
    }
  }

  lemma {:induction false} EntriesLength(documents: map<string, string>, keys: seq<string>)
    requires forall i :: 0 <= i < |keys| ==> keys[i] in documents
    ensures |Entries(documents, keys)| == 2 * |keys| + 1
  {
    if keys != [] {
      EntriesLength(documents, keys[1..]);
    }
  }

  lemma ListingIn(documents: map<string, string>)
    ensures forall i :: 0 <= i < |Listing(documents.Keys)| ==> Listing(documents.Keys)[i] in documents
  {
    ListingMembers(documents.Keys);
    forall i | 0 <= i < |Listing(documents.Keys)| ensures Listing(documents.Keys)[i] in documents {
      assert Listing(documents.Keys)[i] in Listing(documents.Keys);
    }
  }

  ghost function Packed(documents: map<string, string>): string {
    ListingIn(documents);
    Join(Entries(documents, Listing(documents.Keys)))
  }

  lemma PackedInjective(a: map<string, string>, b: map<string, string>)
    requires Packed(a) == Packed(b)
    ensures a == b
  {
    ListingIn(a);
    ListingIn(b);
    var s, t := Listing(a.Keys), Listing(b.Keys);
    EntriesFree(a, s);
    EntriesFree(b, t);
    JoinInjective(Entries(a, s), Entries(b, t));
    EntriesInjective(a, b, s, t);
    ListingMembers(a.Keys);
    ListingMembers(b.Keys);
    forall key ensures key in a <==> key in b {
      assert key in s <==> key in a;
    }
    forall key | key in a ensures a[key] == b[key] {
      var i :| 0 <= i < |s| && s[i] == key;
    }
  }

  ghost function Unpacked(data: string): Option<map<string, string>> {
    if documents :| Packed(documents) == data then Some(documents) else None
  }

  /** The codec's laws are consistent. */
  lemma CodecHolds()
    ensures exists c :: Shard.CodecLaws(c)
  {
    var c := Shard.Codec(documents => Packed(documents), data => Unpacked(data), Escape, d => 0);
    forall documents ensures c.decode(c.encode(documents)) == Some(documents) {
      assert Packed(documents) == c.encode(documents);
      PackedInjective(Unpacked(Packed(documents)).value, documents);
    }
    forall a, b | c.sha(a) == c.sha(b) ensures a == b { EscapeInjective(a, b); }
    assert Shard.CodecLaws(c);
  }

  // ----- UTF-8

  function Codes(s: string): (r: seq<string>)
    ensures |r| == |s| + 1 && r[|s|] == "" && forall i :: 0 <= i < |s| ==> r[i] == Dec(s[i] as int)
  {
    seq(|s|, i requires 0 <= i < |s| => Dec(s[i] as int)) + [""]
  }

  function Coded(s: string): string {
    if Forms.IsAscii(s) then s else "\U{0080}" + Join(Codes(s))
  }

  lemma DecBytes(n: nat)
    ensures NulFree(Dec(n)) && Forms.IsBytes(Dec(n))
  {
    forall i | 0 <= i < |Dec(n)| ensures Dec(n)[i] < '\U{0100}' && Dec(n)[i] != NUL {
      assert Dec(n)[i] in Dec(n) && Dec(n)[i] in DIGITS;
    }
  }

  lemma {:induction false} JoinBytes(tokens: seq<string>)
    requires forall i :: 0 <= i < |tokens| ==> Forms.IsBytes(tokens[i])
    ensures Forms.IsBytes(Join(tokens))
  {
    if |tokens| > 1 {
      JoinBytes(tokens[1..]);
    }
  }

  lemma CodesFacts(s: string)
    ensures AllNulFree(Codes(s)) && Forms.IsBytes(Join(Codes(s)))
  {
    forall i | 0 <= i < |Codes(s)| ensures NulFree(Codes(s)[i]) && Forms.IsBytes(Codes(s)[i]) {
      if i < |s| { DecBytes(s[i] as int); }
    }
    JoinBytes(Codes(s));
  }

  lemma CodedBytes(s: string)
    ensures Forms.IsBytes(Coded(s))
  {
    CodesFacts(s);
  }

  lemma CodesInjective(s: string, t: string)
    requires Join(Codes(s)) == Join(Codes(t))
    ensures s == t
  {
    CodesFacts(s);
    CodesFacts(t);
    JoinInjective(Codes(s), Codes(t));
    forall i | 0 <= i < |s| ensures s[i] == t[i] {
      assert Codes(s)[i] == Codes(t)[i];
      DecInjective(s[i] as int, t[i] as int);
    }
  }

  lemma CodedInjective(s: string, t: string)
    requires Coded(s) == Coded(t)
    ensures s == t
  {
    if !Forms.IsAscii(s) {
      assert Coded(s)[0] == '\U{0080}' && Coded(s)[1..] == Join(Codes(s));
    }
    if !Forms.IsAscii(t) {
      assert Coded(t)[0] == '\U{0080}' && Coded(t)[1..] == Join(Codes(t));
    }
    if !Forms.IsAscii(s) && !Forms.IsAscii(t) {
      CodesInjective(s, t);
    }
  }

  ghost function Decoded(data: string): string {
    if s :| Coded(s) == data then s else data
  }

  /** The laws of UTF-8 are consistent. */
  lemma Utf8Holds()
    ensures exists u :: Forms.Utf8Laws(u)
  {
    var u := Forms.Utf8(Coded, data => Decoded(data));
    forall s ensures u.decode(u.encode(s)) == s && Forms.IsBytes(u.encode(s)) {
      assert Coded(s) == u.encode(s);
      CodedInjective(Decoded(Coded(s)), s);
      CodedBytes(s);
    }
    assert Forms.Utf8Laws(u);
  }

  /** And so is the law of percent-decoding. */
  lemma ComponentHolds()
    ensures exists decode :: Routes.ComponentLaw(decode)
  {
    var decode: Routes.Component := s => Some(s);
    assert Routes.ComponentLaw(decode);
  }
}
