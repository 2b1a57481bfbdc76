/** Writing a selection's exclusions into a snapshot's channel rows. */
module Exclusions {
  import opened Sequences
  import opened Text
  import opened Accounting
  import opened Scanners
  import opened Selection
  import SelectionTheorems

  /** The channel that a row's text names; what is no built-in channel is an extension. */
  function ChannelNamed(name: string): Channel {
    match name
    case "sonarqube-cloud" => SonarqubeCloud
    case "ruff" => Ruff
    case "bandit" => Bandit
    case "pyright" => Pyright
    case "eslint" => Eslint
    case "typescript" => Typescript
    case "codeql" => Codeql
    case "semgrep" => Semgrep
    case "snyk" => Snyk
    case "osv" => Osv
    case "gitleaks" => Gitleaks
    case "trivy" => Trivy
    case "hadolint" => Hadolint
    case "checkov" => Checkov
    case "shipping-image-cves" => ShippingImageCves
    case "sbom-license-provenance" => SbomLicenseProvenance
    case "github-secret-protection-posture" => SecretProtectionPosture
    case "github-actions-security" => GithubActionsSecurity
    case "openssf-scorecard" => OpenssfScorecard
    case "radon" => Radon
    case "xenon" => Xenon
    case "vulture" => Vulture
    case "coverage" => Coverage
    case "schemathesis" => Schemathesis
    case "atheris" => Atheris
    case "coderabbit-ai-advisory" => CoderabbitAiAdvisory
    case "owasp-js" => OwaspJs
    case "owasp-iac-secrets" => OwaspIacSecrets
    case _ => Extension(name)
  }

  function StatusText(status: Status): string {
    match status
    case NotApplicable => "NOT_APPLICABLE"
    case NotSelected => "NOT_SELECTED"
    case Deferred => "DEFERRED"
  }

  const NOT_SELECTED_REASON := "Not selected for this request"

  function ChannelOf(row: ChannelRow): Channel {
    ChannelNamed(row.channel)
  }

  function ExcludedRow(row: ChannelRow, why: Exclusion): ChannelRow {
    var marked := row.(status := StatusText(why.status), reason := why.reason);
    if why.status == NotSelected then marked.(observationIds := [], observationCount := 0, reason := NOT_SELECTED_REASON) else marked
  }

  function MarkRow(row: ChannelRow, exclusions: map<Channel, Exclusion>): ChannelRow {
    if ChannelOf(row) in exclusions then ExcludedRow(row, exclusions[ChannelOf(row)]) else row
  }

  function MarkRows(rows: seq<ChannelRow>, exclusions: map<Channel, Exclusion>): (r: seq<ChannelRow>)
    ensures |r| == |rows| && forall i :: 0 <= i < |rows| ==> r[i] == MarkRow(rows[i], exclusions)
  {
    seq(|rows|, i requires 0 <= i < |rows| => MarkRow(rows[i], exclusions))
  }

  /** No excluded channel brings observations. */
  predicate Silent(rows: seq<ChannelRow>, exclusions: map<Channel, Exclusion>) {
    forall i :: 0 <= i < |rows| && ChannelOf(rows[i]) in exclusions ==> rows[i].observationCount == 0
  }

  /** `apply`: an error exactly when an excluded scanner produced observations. */
  method Apply(s: Snapshot, exclusions: map<Channel, Exclusion>) returns (r: Result<Snapshot>)
    ensures r.Ok? <==> Silent(s.channels, exclusions)
    ensures r.Ok? ==> r.value == s.(channels := MarkRows(s.channels, exclusions))
  {
    var rows: seq<ChannelRow> := [];
    for i := 0 to |s.channels|
      invariant rows == MarkRows(s.channels, exclusions)[..i]
      invariant forall k :: 0 <= k < i && ChannelOf(s.channels[k]) in exclusions ==> s.channels[k].observationCount == 0
    {
      if ChannelOf(s.channels[i]) in exclusions && s.channels[i].observationCount != 0 {
        return Err("Excluded scanner unexpectedly produced observations");
      }
      TakeNext(MarkRows(s.channels, exclusions), i);
      rows := rows + [MarkRow(s.channels[i], exclusions)];
    }
    TakeAll(MarkRows(s.channels, exclusions));
    r := Ok(s.(channels := rows));
  }

  /** Exclusions keep the accounting invariant: every channel lists what it listed before. */
  lemma ApplyKeepsAccounts(s: Snapshot, exclusions: map<Channel, Exclusion>)
    requires Accounts(s) && Silent(s.channels, exclusions)
    ensures var m := s.(channels := MarkRows(s.channels, exclusions));
            Accounts(m) && ChannelIds(m.channels) == ChannelIds(s.channels) && ChannelNames(m.channels) == ChannelNames(s.channels)
  {
    var rows := MarkRows(s.channels, exclusions);
    forall i | 0 <= i < |rows|
      ensures rows[i].channel == s.channels[i].channel && rows[i].observationIds == s.channels[i].observationIds
      ensures rows[i].observationCount == |rows[i].observationIds|
    {
      assert s.channels[i].observationCount == |s.channels[i].observationIds|;
    }
    assert ChannelIds(rows) == ChannelIds(s.channels) && ChannelNames(rows) == ChannelNames(s.channels);
    assert AllFindings(s.(channels := rows)) == AllFindings(s);
  }

  lemma MarkTwice(row: ChannelRow, exclusions: map<Channel, Exclusion>)
    ensures MarkRow(MarkRow(row, exclusions), exclusions) == MarkRow(row, exclusions)
    ensures ChannelOf(MarkRow(row, exclusions)) == ChannelOf(row)
  {
  }

  /** Once applied, the same exclusions can be applied again, and change nothing. */
  lemma ApplyTwice(s: Snapshot, exclusions: map<Channel, Exclusion>)
    requires Silent(s.channels, exclusions)
    ensures var rows := MarkRows(s.channels, exclusions);
            Silent(rows, exclusions) && MarkRows(rows, exclusions) == rows
  {
    var rows := MarkRows(s.channels, exclusions);
    forall i | 0 <= i < |rows| ensures MarkRow(rows[i], exclusions) == rows[i] && ChannelOf(rows[i]) == ChannelOf(s.channels[i]) {
      MarkTwice(s.channels[i], exclusions);
    }
  }

  // ----- a selection's own exclusions

  /** The channel was selected to run, on a tree that it applies to. */
  predicate Runs(r: Selected, tree: Tree, c: Channel) {
    Producer(c) in r.jobs && (c == GithubActionsSecurity ==> Has(tree, WORKFLOWS) && tree.hasWorkflowFiles)
  }

  lemma RunsExact(config: Config, tree: Tree, request: Option<set<Channel>>, r: Selected, c: Channel)
    requires Acceptable(config, tree, request) && Settled(config, tree, request, r) && c in Known(config)
    ensures Runs(r, tree, c) <==> c !in r.excluded
  {
    SelectionTheorems.EveryChannelAccounted(config, tree, request, r, c);
  }

  /** Applying a selection's exclusions to a snapshot of known channels succeeds exactly when
      only channels that were selected to run list observations. */
  lemma OwnExclusionsApply(config: Config, tree: Tree, request: Option<set<Channel>>, r: Selected, s: Snapshot)
    requires Acceptable(config, tree, request) && Settled(config, tree, request, r) && ChannelsAccount(s)
    requires forall i :: 0 <= i < |s.channels| ==> ChannelOf(s.channels[i]) in Known(config)
    ensures Silent(s.channels, r.excluded) <==>
              forall i :: 0 <= i < |s.channels| && s.channels[i].observationIds != [] ==> Runs(r, tree, ChannelOf(s.channels[i]))
  {
    forall i | 0 <= i < |s.channels|
      ensures ChannelOf(s.channels[i]) in r.excluded <==> !Runs(r, tree, ChannelOf(s.channels[i]))
      ensures s.channels[i].observationIds == [] <==> s.channels[i].observationCount == 0
    {
      RunsExact(config, tree, request, r, ChannelOf(s.channels[i]));
    }
  }

  /** Afterwards every row of a channel that did not run is empty, with one of the three statuses and a
      reason; every other row is what its scanner produced. */
  lemma OwnExclusionsMark(config: Config, tree: Tree, request: Option<set<Channel>>, r: Selected, s: Snapshot, i: nat)
    requires Acceptable(config, tree, request) && Settled(config, tree, request, r) && ChannelsAccount(s)
    requires i < |s.channels| && ChannelOf(s.channels[i]) in Known(config) && Silent(s.channels, r.excluded)
    ensures var c, row := ChannelOf(s.channels[i]), MarkRows(s.channels, r.excluded)[i];
            if Runs(r, tree, c) then row == s.channels[i]
            else c in r.excluded && row.observationIds == [] && row.status == StatusText(r.excluded[c].status) && NonBlank(row.reason)
  {
    var c := ChannelOf(s.channels[i]);
    RunsExact(config, tree, request, r, c);
    SelectionTheorems.EveryChannelAccounted(config, tree, request, r, c);
    assert NOT_SELECTED_REASON[0] == 'N';
    Starts(NOT_SELECTED_REASON);
    assert s.channels[i].observationCount == |s.channels[i].observationIds|;
  }
}
