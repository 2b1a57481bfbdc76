/** The channel status taxonomy: complete, reusable and replacement-eligible coincide. */
module StatusContract {
  import opened Text

  const COMPLETE_STATUSES: set<string> := {"COMPLETED", "COMPLETED_OPTIONAL", "CONFIGURED_COMPLETE", "POLICY_FINDINGS"}
  const NOT_RUN_STATUSES: set<string> := {"NOT_APPLICABLE", "DEFERRED", "NOT_SELECTED"}

  /** `str.upper` of one character, as far as the result is ASCII. */
  function UpperChar(c: char): string {
    if 'a' <= c <= 'z' then [c - 'a' + 'A']
    else if c == '\U{0131}' then "I"
    else if c == '\U{017f}' then "S"
    else if c == '\U{00df}' then "SS"
    else if c == '\U{fb00}' then "FF"
    else if c == '\U{fb01}' then "FI"
    else if c == '\U{fb02}' then "FL"
    else if c == '\U{fb03}' then "FFI"
    else if c == '\U{fb04}' then "FFL"
    else if c == '\U{fb05}' || c == '\U{fb06}' then "ST"
    else [c]
  }

  function Upper(s: string): string {
    if s == "" then "" else UpperChar(s[0]) + Upper(s[1..])
  }

  /** A status as it is looked up; an empty one counts as unknown. */
  function Normalize(status: string): string {
    Upper(Strip(if status == "" then "UNKNOWN" else status))
  }

  predicate IsComplete(status: string) {
    Normalize(status) in COMPLETE_STATUSES
  }

  predicate IsNotRun(status: string) {
    Normalize(status) in NOT_RUN_STATUSES
  }

  /** Every other status, unknown ones included, leaves the report incomplete. */
  predicate IsReportIncomplete(status: string) {
    !IsComplete(status) && !IsNotRun(status)
  }

  /** A word of capital letters and underscores. */
  predicate Capitals(s: string) {
    forall i :: 0 <= i < |s| ==> 'A' <= s[i] <= 'Z' || s[i] == '_'
  }

  lemma {:induction false} UpperSame(s: string)
    requires Capitals(s)
    ensures Upper(s) == s
  {
    if s != "" {
      UpperSame(s[1..]);
      assert s == [s[0]] + s[1..];
    }
  }

  /** The statuses of the taxonomy are in normal form. */
  lemma NormalizeSame(s: string)
    requires s != "" && Capitals(s)
    ensures Normalize(s) == s
  {
    UpperSame(s);
  }

  lemma OtherLength(s: string)
    requires Normalize(s) == s && |s| !in {9, 15, 18, 19}
    ensures !IsComplete(s)
  {
    assert |"COMPLETED"| == 9 && |"COMPLETED_OPTIONAL"| == 18 && |"CONFIGURED_COMPLETE"| == 19 && |"POLICY_FINDINGS"| == 15;
  }

  lemma CompletedIsComplete()
    ensures IsComplete("COMPLETED")
  {
    var s := "COMPLETED";
    assert Capitals(s);
    NormalizeSame(s);
  }
}
