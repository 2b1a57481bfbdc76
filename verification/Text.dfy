/** Text helpers of the identity code: decimal numbers, whitespace squashing,
    path slashes, and the NUL-joined tuples that are hashed into identities. */
module Text {
  import opened Sequences

  datatype Option<+T> = None | Some(value: T)

  datatype Result<+T> = Ok(value: T) | Err(message: string)

  const NUL: char := '\U{0000}'
  const NUL_TEXT: string := [NUL]

  predicate NulFree(s: string) {
    NUL !in s
  }

  /** `value or fallback`: a missing field and an empty one read alike. */
  function Or(value: Option<string>, fallback: string): string {
    if value.Some? && value.value != "" then value.value else fallback
  }

  // ----- decimal numbers

  const DIGITS := "0123456789"

  function Dec(n: nat): (r: string)
    ensures r != "" && forall c :: c in r ==> c in DIGITS
  {
    if n < 10 then [DIGITS[n]] else Dec(n / 10) + [DIGITS[n % 10]]
  }

  /** `str(n)` of an integer. */
  function DecInt(n: int): (r: string)
    ensures r != "" && forall c :: c in r ==> c in DIGITS || c == '-'
  {
    if n < 0 then "-" + Dec(-n) else Dec(n)
  }

  lemma DigitInjective(i: nat, j: nat)
    requires i < 10 && j < 10 && DIGITS[i] == DIGITS[j]
    ensures i == j
  {
  }

  lemma {:induction false} DecInjective(m: nat, n: nat)
    requires Dec(m) == Dec(n)
    ensures m == n
  {
    var a, b := Dec(m), Dec(n);
    assert a[|a| - 1] == DIGITS[m % 10] && b[|b| - 1] == DIGITS[n % 10];
    DigitInjective(m % 10, n % 10);
    assert |a| == 1 <==> m < 10;
    assert |b| == 1 <==> n < 10;
    if m >= 10 {
      assert a[..|a| - 1] == Dec(m / 10) && b[..|b| - 1] == Dec(n / 10);
      DecInjective(m / 10, n / 10);
    }
  }

  lemma DecIntInjective(m: int, n: int)
    requires DecInt(m) == DecInt(n)
    ensures m == n
  {
    var a, b := DecInt(m), DecInt(n);
    assert a[0] == '-' <==> m < 0 by { assert m >= 0 ==> a[0] in a; }
    assert b[0] == '-' <==> n < 0 by { assert n >= 0 ==> b[0] in b; }
    if m < 0 {
      assert a[1..] == Dec(-m) && b[1..] == Dec(-n);
      DecInjective(-m, -n);
    } else {
      DecInjective(m, n);
    }
  }

  // ----- whitespace

  predicate IsSpace(c: char) {
    c == ' ' || '\t' <= c <= '\r' || '\U{001c}' <= c <= '\U{001f}' || c == '\U{0085}' || c == '\U{00a0}'
  }

  /** `s.strip()`. */
  function Strip(s: string): (r: string)
    ensures forall c :: c in r ==> c in s
  {
    if s == "" then ""
    else if IsSpace(s[0]) then Strip(s[1..])
    else if IsSpace(s[|s| - 1]) then Strip(s[..|s| - 1])
    else s
  }

  /** `re.sub(r"\s+", " ", s)`. */
  function SquashRuns(s: string): (r: string)
    ensures forall c :: c in r ==> c in s || c == ' '
  {
    if s == "" then ""
    else if !IsSpace(s[0]) then [s[0]] + SquashRuns(s[1..])
    else if |s| > 1 && IsSpace(s[1]) then SquashRuns(s[1..])
    else " " + SquashRuns(s[1..])
  }

  function Squash(s: string): (r: string)
    ensures forall c :: c in r ==> c in s || c == ' '
  {
    SquashRuns(Strip(s))
  }

  // ----- paths

  function ForwardSlashes(s: string): (r: string)
    ensures |r| == |s|
    ensures forall c :: c in r ==> c in s || c == '/'
  {
    seq(|s|, i requires 0 <= i < |s| => if s[i] == '\\' then '/' else s[i])
  }

  function CollapseSlashes(s: string): (r: string)
    ensures forall c :: c in r ==> c in s
  {
    if s == "" then ""
    else if s[0] == '/' && |s| > 1 && s[1] == '/' then CollapseSlashes(s[1..])
    else [s[0]] + CollapseSlashes(s[1..])
  }

  /** The path clean-up: backslashes, one leading `./`, repeated slashes. */
  function Slashes(s: string): (r: string)
    ensures forall c :: c in r ==> c in s || c == '/'
  {
    var t := ForwardSlashes(s);
    CollapseSlashes(if |t| >= 2 && t[..2] == "./" then t[2..] else t)
  }

  // ----- splitting

  /** `s.split(c)`. */
  function Split(s: string, c: char): (r: seq<string>)
    ensures r != []
  {
    if s == "" then [""]
    else if s[0] == c then [""] + Split(s[1..], c)
    else
      var rest := Split(s[1..], c);
      [[s[0]] + rest[0]] + rest[1..]
  }

  // ----- searching

  predicate Occurs(part: string, s: string) {
    exists i :: 0 <= i <= |s| - |part| && OccursAt(part, s, i)
  }

  predicate OccursAt(part: string, s: string, i: nat)
    requires i + |part| <= |s|
  {
    s[i..i + |part|] == part
  }

  // ----- NUL-joined tuples

  function Join(tokens: seq<string>): (r: string) {
    if tokens == [] then ""
    else if |tokens| == 1 then tokens[0]
    else tokens[0] + NUL_TEXT + Join(tokens[1..])
  }

  ghost predicate AllNulFree(tokens: seq<string>) {
    forall i :: 0 <= i < |tokens| ==> NulFree(tokens[i])
  }

  /** The first NUL splits a joined tuple in only one way. */
  lemma SplitUnique(a: string, u: string, b: string, v: string)
    requires NulFree(a) && NulFree(b)
    requires a + NUL_TEXT + u == b + NUL_TEXT + v
    ensures a == b && u == v
  {
    var s := a + NUL_TEXT + u;
    assert s[|a|] == NUL && s[|b|] == NUL;
    assert forall i :: 0 <= i < |a| ==> s[i] == a[i];
    assert forall i :: 0 <= i < |b| ==> s[i] == b[i];
    assert |a| == |b|;
    assert s[..|a|] == a && s[..|b|] == b;
    assert s[|a| + 1..] == u && s[|b| + 1..] == v;
  }

  lemma JoinHasNul(tokens: seq<string>)
    requires AllNulFree(tokens) && tokens != []
    ensures NulFree(Join(tokens)) <==> |tokens| == 1
  {
    if |tokens| > 1 {
      assert (tokens[0] + NUL_TEXT + Join(tokens[1..]))[|tokens[0]|] == NUL;
    }
  }

  /** A joined tuple of NUL-free fields can be taken apart again, whatever its length. */
  lemma {:induction false} JoinInjective(s: seq<string>, t: seq<string>)
    requires AllNulFree(s) && AllNulFree(t)
    requires s != [] && t != [] && Join(s) == Join(t)
    ensures s == t
  {
    JoinHasNul(s);
    JoinHasNul(t);
    if |s| == 1 {
      assert s == [s[0]] && t == [t[0]];
    } else {
      SplitUnique(s[0], Join(s[1..]), t[0], Join(t[1..]));
      JoinInjective(s[1..], t[1..]);
      assert s == [s[0]] + s[1..] && t == [t[0]] + t[1..];
    }
  }
}
