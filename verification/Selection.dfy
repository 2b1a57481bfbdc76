/** Which jobs analyze a source tree, and why every other channel is excluded. */
module Selection {
  import opened Sequences
  import opened Text
  import opened Scanners

  /** The statuses `NOT_APPLICABLE`, `NOT_SELECTED` and `DEFERRED`. */
  datatype Status = NotApplicable | NotSelected | Deferred

  datatype Exclusion = Exclusion(status: Status, reason: string)

  datatype ExtensionRow = ExtensionRow(name: string, deferredReason: Option<string>)

  /** A deferral's reason, when it is text at all. */
  type Reason = Option<string>

  datatype Profile = Profile(
    portable: bool, pythonRoot: string, javascriptRoot: string,
    pythonRequirements: string, developmentRequirements: string, commands: set<Channel>)

  datatype Config = Config(
    enabledScanners: Option<set<Channel>>, deferred: map<Channel, Reason>, extensions: seq<ExtensionRow>, profile: Profile)

  datatype Presence = Escapes | Missing | Present

  /** The checked-out tree: what exists at a path, and what discovery finds in it. */
  datatype Tree = Tree(at: string -> Presence, hasManifests: bool, hasDockerfiles: bool, hasWorkflowFiles: bool)

  predicate NonBlank(s: string) {
    exists i :: 0 <= i < |s| && !IsSpace(s[i])
  }

  // ----- the configuration

  predicate Registered(extensions: seq<ExtensionRow>) {
    && (forall i, j :: 0 <= i < j < |extensions| ==> extensions[i].name != extensions[j].name)
    && (forall i :: 0 <= i < |extensions| && extensions[i].deferredReason.Some? ==> NonBlank(extensions[i].deferredReason.value))
  }

  function Builtins(): (r: set<Channel>)
    ensures forall c :: c in r <==> IsBuiltin(c)
  {
    forall c: Channel ensures IsBuiltin(c) <==> exists i :: 0 <= i < |JOBS| && c in Channels(JOBS[i]) { BuiltinListed(c); }
    set i, c | 0 <= i < |JOBS| && c in Channels(JOBS[i]) :: c
  }

  lemma BuiltinListed(c: Channel)
    ensures IsBuiltin(c) <==> exists i :: 0 <= i < |JOBS| && c in Channels(JOBS[i])
  {
    ProducerListed(c);
    if IsBuiltin(c) {
      var i :| 0 <= i < |JOBS| && JOBS[i] == Producer(c);
    }
    if i :| 0 <= i < |JOBS| && c in Channels(JOBS[i]) {
      OneProducer(JOBS[i], c);
    }
  }

  function ExtensionChannels(config: Config): set<Channel> {
    set i | 0 <= i < |config.extensions| :: Extension(config.extensions[i].name)
  }

  function Known(config: Config): set<Channel> {
    Builtins() + ExtensionChannels(config)
  }

  function Enabled(config: Config): set<Channel> {
    if config.enabledScanners.Some? then config.enabledScanners.value else Known(config)
  }

  function Requested(config: Config, request: Option<set<Channel>>): set<Channel> {
    if request.Some? then request.value else Enabled(config)
  }

  /** Every built-in channel is either enabled or deferred with a reason, and nothing unknown is named. */
  predicate Placed(config: Config) {
    var enabled, deferred, builtins := Enabled(config), config.deferred.Keys, Builtins();
    && enabled * deferred == {} && enabled * builtins + deferred == builtins
    && enabled <= Known(config) && deferred <= builtins
    && forall c :: c in config.deferred ==> config.deferred[c].Some? && NonBlank(config.deferred[c].value)
  }

  /** Some channel of the job is in the set, but not all of them. */
  predicate Torn(channels: set<Channel>, job: Job) {
    (exists i :: 0 <= i < |Channels(job)| && Channels(job)[i] in channels)
    && exists i :: 0 <= i < |Channels(job)| && Channels(job)[i] !in channels
  }

  predicate NoneTorn(channels: set<Channel>, jobs: seq<Job>) {
    forall i :: 0 <= i < |jobs| ==> !Torn(channels, jobs[i])
  }

  lemma NeverTorn(channels: set<Channel>, job: Job)
    requires NoneTorn(channels, JOBS)
    ensures !Torn(channels, job)
  {
    JobsListed(job);
    if job in JOBS {
      var i :| 0 <= i < |JOBS| && JOBS[i] == job;
    }
  }

  // ----- what a tree lacks

  const PYTHON_JOBS: set<Job> :=
    {PythonRuff, PythonBandit, PythonTypes, Complexity, DeadCode, TestCoverage, SchemathesisFuzz, AtherisStateMachine}

  const GENERATED_JOBS: set<Job> :=
    {SemgrepJob, GitleaksJob, TrivyJob, CheckovJob, OpenssfScorecardJob, Coderabbit} + PYTHON_JOBS
    + {SecretProtectionPostureJob, SnykJob, SonarqubeCloudJob}
    + {CodeqlJob, OsvScanner, TypescriptQuality, GithubActionsSecurityJob, OwaspJsJob, OwaspIacSecretsJob}

  predicate Has(tree: Tree, path: string) {
    tree.at(path).Present?
  }

  /** A configured root that exists. */
  predicate Rooted(tree: Tree, root: string) {
    root != "" && Has(tree, root)
  }

  function Readiness(profile: Profile): set<Channel> {
    {Semgrep, Gitleaks, Trivy, Checkov, OpenssfScorecard, SecretProtectionPosture, GithubActionsSecurity, CoderabbitAiAdvisory}
    + (if profile.pythonRoot != "" then {Bandit, Ruff, Radon, Xenon, Vulture} else {})
    + (if profile.pythonRoot != "" || profile.javascriptRoot != "" then {Codeql} else {})
    + {Snyk, SonarqubeCloud} + profile.commands
  }

  const WORKFLOWS := ".github/workflows"

  function Supported(profile: Profile, tree: Tree): set<Channel> {
    (Readiness(profile) - {GithubActionsSecurity, OwaspJs, OwaspIacSecrets})
    + {OwaspIacSecrets}
    + (if Rooted(tree, profile.javascriptRoot) then {OwaspJs} else {})
    + (if Has(tree, WORKFLOWS) then {GithubActionsSecurity} else {})
    + (if tree.hasManifests then {Osv} else {})
  }

  predicate AllSupported(supported: set<Channel>, job: Job) {
    forall i :: 0 <= i < |Channels(job)| ==> Channels(job)[i] in supported
  }

  /** What a portable profile cannot run on the tree. */
  predicate PortableLacks(profile: Profile, tree: Tree, job: Job) {
    || Unready(Supported(profile, tree), job)
    || (job in PYTHON_JOBS && !Rooted(tree, profile.pythonRoot))
    || (job == CodeqlJob && !Rooted(tree, profile.pythonRoot) && !Rooted(tree, profile.javascriptRoot))
  }

  /** What the full profile cannot run on the tree. */
  predicate FullLacks(profile: Profile, tree: Tree, job: Job) {
    var python, javascript := Has(tree, profile.pythonRoot), Has(tree, profile.javascriptRoot);
    var image, web := Has(tree, profile.pythonRoot + "/Dockerfile"), Has(tree, profile.javascriptRoot + "/Dockerfile");
    || (job in PYTHON_JOBS && !python)
    || (job in {TypescriptQuality, OwaspJsJob} && !javascript)
    || (job in {CodeqlJob, SonarqubeCloudJob, SnykJob} && !python && !javascript)
    || (job == ShippingImageSecurity && !(image && web))
    || (job == HadolintJob && !image && !web)
    || (job == OsvScanner && !HasLockfile(profile, tree))
  }

  predicate Lacks(profile: Profile, tree: Tree, job: Job) {
    if profile.portable then PortableLacks(profile, tree, job) else FullLacks(profile, tree, job)
  }

  ghost predicate AbsentExactly(profile: Profile, tree: Tree, absent: map<Job, string>) {
    && (forall job: Job :: !job.ExtensionJob? ==> (job in absent <==> Lacks(profile, tree, job)))
    && AllWorded(absent)
  }

  lemma Starts(s: string)
    requires s != "" && !IsSpace(s[0])
    ensures NonBlank(s)
  {
  }

  const UNREVIEWED := "Unconfigured"

  /** The paths a portable profile looks at. */
  predicate PortableEscapes(profile: Profile, tree: Tree) {
    || (profile.javascriptRoot != "" && tree.at(profile.javascriptRoot).Escapes?)
    || tree.at(WORKFLOWS).Escapes?
    || (profile.pythonRoot != "" && tree.at(profile.pythonRoot).Escapes?)
  }

  predicate Unready(supported: set<Channel>, job: Job) {
    !AllSupported(supported, job) || job !in GENERATED_JOBS
  }

  method UnreadyJobs(supported: set<Channel>, jobs: seq<Job>) returns (absent: map<Job, string>)
    ensures forall job :: job in absent <==> job in jobs && Unready(supported, job)
    ensures AllWorded(absent)
  {
    absent := map[];
    assert UNREVIEWED[0] == 'U';
    Starts(UNREVIEWED);
    for i := 0 to |jobs|
      invariant forall job :: job in absent <==> job in jobs[..i] && Unready(supported, job)
      invariant forall job :: job in absent ==> NonBlank(absent[job])
    {
      TakeNext(jobs, i);
      if Unready(supported, jobs[i]) {
        absent := absent[jobs[i] := UNREVIEWED];
      }
    }
    TakeAll(jobs);
  }

  method PortableAbsent(profile: Profile, tree: Tree) returns (absent: map<Job, string>)
    requires profile.portable
    ensures AbsentExactly(profile, tree, absent)
  {
    absent := UnreadyJobs(Supported(profile, tree), JOBS);
    ghost var unready := absent.Keys;
    absent := PortableNotes(absent, tree.hasDockerfiles, Rooted(tree, profile.pythonRoot), Rooted(tree, profile.javascriptRoot));
    forall job: Job | !job.ExtensionJob? ensures job in absent <==> PortableLacks(profile, tree, job) {
      PortableDomainExact(profile, tree, unready, job);
    }
  }

  method PortableNotes(unready: map<Job, string>, dockerfiles: bool, python: bool, javascript: bool) returns (absent: map<Job, string>)
    requires AllWorded(unready)
    ensures AllWorded(absent) && absent.Keys == PortableDomain(unready.Keys, python, javascript)
  {
    absent := Note(unready, true, {ShippingImageSecurity}, "No build recipe");
    absent := Note(absent, true, {HadolintJob}, if dockerfiles then "Not declared" else "No Dockerfile");
    ghost var before := absent.Keys;
    absent := Note(absent, !python, PYTHON_JOBS - absent.Keys, "No Python source");
    assert absent.Keys == before + (if !python then PYTHON_JOBS else {});
    absent := Note(absent, !python && !javascript, {CodeqlJob}, "No language source");
  }

  ghost function PortableDomain(unready: set<Job>, python: bool, javascript: bool): set<Job> {
    unready + {ShippingImageSecurity} + {HadolintJob} + (if !python then PYTHON_JOBS else {})
    + (if !python && !javascript then {CodeqlJob} else {})
  }

  lemma PortableDomainExact(profile: Profile, tree: Tree, unready: set<Job>, job: Job)
    requires !job.ExtensionJob?
    requires forall j :: j in unready <==> j in JOBS && Unready(Supported(profile, tree), j)
    ensures job in PortableDomain(unready, Rooted(tree, profile.pythonRoot), Rooted(tree, profile.javascriptRoot))
            <==> PortableLacks(profile, tree, job)
  {
    var supported := Supported(profile, tree);
    JobsListed(job);
    assert job in unready <==> Unready(supported, job);
    UnreadyAnyway(supported);
    DomainMember(unready, Rooted(tree, profile.pythonRoot), Rooted(tree, profile.javascriptRoot), job);
  }

  lemma DomainMember(unready: set<Job>, python: bool, javascript: bool, job: Job)
    ensures job in PortableDomain(unready, python, javascript)
            <==> (|| job in unready || job == ShippingImageSecurity || job == HadolintJob || (!python && job in PYTHON_JOBS)
                  || (!python && !javascript && job == CodeqlJob))
  {
  }

  /** No portable profile runs these two jobs, whatever it supports. */
  lemma UnreadyAnyway(supported: set<Channel>)
    ensures Unready(supported, ShippingImageSecurity) && Unready(supported, HadolintJob)
  {
    NotGenerated(ShippingImageSecurity);
    NotGenerated(HadolintJob);
  }

  lemma NotGenerated(job: Job)
    requires job.ShippingImageSecurity? || job.HadolintJob?
    ensures job !in GENERATED_JOBS
  {
  }

  /** Give the same reason to several jobs, if a condition holds. */
  function Note(absent: map<Job, string>, condition: bool, jobs: set<Job>, reason: string): (r: map<Job, string>)
    requires reason != "" && reason[0] in "NU"
    ensures r.Keys == absent.Keys + (if condition then jobs else {})
    ensures AllWorded(absent) ==> AllWorded(r)
  {
    assert NonBlank(reason) by { Starts(reason); }
    if condition then absent + map job | job in jobs :: reason else absent
  }

  ghost predicate AllWorded(absent: map<Job, string>) {
    forall job :: job in absent ==> NonBlank(absent[job])
  }

  ghost function FullDomain(python: bool, javascript: bool, image: bool, web: bool, manifests: bool): set<Job> {
    var none: map<Job, string> := map[];
    none.Keys + (if !python then PYTHON_JOBS else {}) + (if !javascript then {TypescriptQuality, OwaspJsJob} else {})
    + (if !python && !javascript then {CodeqlJob, SonarqubeCloudJob, SnykJob} else {})
    + (if !image || !web then {ShippingImageSecurity} else {}) + (if !image && !web then {HadolintJob} else {})
    + (if !manifests then {OsvScanner} else {})
  }

  predicate HasLockfile(profile: Profile, tree: Tree) {
    Rooted(tree, profile.pythonRequirements) || Rooted(tree, profile.developmentRequirements)
    || Has(tree, profile.javascriptRoot + "/package-lock.json")
  }

  lemma FullDomainMember(python: bool, javascript: bool, image: bool, web: bool, manifests: bool, job: Job)
    ensures job in FullDomain(python, javascript, image, web, manifests)
            <==> (|| (job in PYTHON_JOBS && !python) || (job in {TypescriptQuality, OwaspJsJob} && !javascript)
                  || (job in {CodeqlJob, SonarqubeCloudJob, SnykJob} && !python && !javascript)
                  || (job == ShippingImageSecurity && !(image && web)) || (job == HadolintJob && !image && !web)
                  || (job == OsvScanner && !manifests))
  {
  }

  lemma FullDomainExact(profile: Profile, tree: Tree, job: Job)
    ensures job in FullDomain(Has(tree, profile.pythonRoot), Has(tree, profile.javascriptRoot), Has(tree, profile.pythonRoot + "/Dockerfile"),
                              Has(tree, profile.javascriptRoot + "/Dockerfile"), HasLockfile(profile, tree))
            <==> FullLacks(profile, tree, job)
  {
    FullDomainMember(Has(tree, profile.pythonRoot), Has(tree, profile.javascriptRoot), Has(tree, profile.pythonRoot + "/Dockerfile"),
                     Has(tree, profile.javascriptRoot + "/Dockerfile"), HasLockfile(profile, tree), job);
  }

  method FullAbsent(profile: Profile, tree: Tree) returns (absent: map<Job, string>)
    requires !profile.portable
    ensures AbsentExactly(profile, tree, absent)
  {
    absent := map[];
    var python, javascript := Has(tree, profile.pythonRoot), Has(tree, profile.javascriptRoot);
    var image, web := Has(tree, profile.pythonRoot + "/Dockerfile"), Has(tree, profile.javascriptRoot + "/Dockerfile");
    var manifests := HasLockfile(profile, tree);
    absent := FullNotes(profile, python, javascript, image, web, manifests);
    forall job: Job ensures job in absent <==> FullLacks(profile, tree, job) {
      FullDomainExact(profile, tree, job);
    }
  }

  method FullNotes(profile: Profile, python: bool, javascript: bool, image: bool, web: bool, manifests: bool) returns (absent: map<Job, string>)
    ensures absent.Keys == FullDomain(python, javascript, image, web, manifests)
    ensures AllWorded(absent)
  {
    var none: map<Job, string> := map[];
    absent := Note(none, !python, PYTHON_JOBS, "No project: " + profile.pythonRoot);
    absent := Note(absent, !javascript, {TypescriptQuality, OwaspJsJob}, "No project: " + profile.javascriptRoot);
    absent := Note(absent, !python && !javascript, {CodeqlJob, SonarqubeCloudJob, SnykJob}, "Neither project");
    absent := Note(absent, !image || !web, {ShippingImageSecurity}, "No image pair");
    absent := Note(absent, !image && !web, {HadolintJob}, "No Dockerfile");
    absent := Note(absent, !manifests, {OsvScanner}, "No manifests");
  }

  /** The paths the full profile looks at, in the order in which it stops looking. */
  predicate FullEscapes(profile: Profile, tree: Tree) {
    var requirements, development, lock :=
      profile.pythonRequirements, profile.developmentRequirements, profile.javascriptRoot + "/package-lock.json";
    || tree.at(profile.pythonRoot).Escapes? || tree.at(profile.javascriptRoot).Escapes?
    || tree.at(profile.pythonRoot + "/Dockerfile").Escapes? || tree.at(profile.javascriptRoot + "/Dockerfile").Escapes?
    || (requirements != "" && tree.at(requirements).Escapes?)
    || (!Rooted(tree, requirements) && development != "" && tree.at(development).Escapes?)
    || (!Rooted(tree, requirements) && !Rooted(tree, development) && tree.at(lock).Escapes?)
  }

  predicate ProfileEscapes(profile: Profile, tree: Tree) {
    if profile.portable then PortableEscapes(profile, tree) else FullEscapes(profile, tree)
  }

  predicate WorkflowsEscape(tree: Tree, requested: set<Channel>) {
    GithubActionsSecurity in requested && tree.at(WORKFLOWS).Escapes?
  }

  predicate PathEscapes(config: Config, tree: Tree, requested: set<Channel>) {
    ProfileEscapes(config.profile, tree) || WorkflowsEscape(tree, requested)
  }

  // ----- jobs and exclusions

  datatype Choice = Choice(enabled: set<Channel>, requested: set<Channel>, deferred: map<Channel, Reason>, absent: map<Job, string>)

  predicate Touched(channels: set<Channel>, job: Job) {
    exists i :: 0 <= i < |Channels(job)| && Channels(job)[i] in channels
  }

  predicate Chosen(x: Choice, job: Job) {
    Touched(x.requested, job) && job !in x.absent
  }

  function IsChosen(x: Choice): Job -> bool {
    job => Chosen(x, job)
  }

  /** A choice that the checks let through. */
  ghost predicate Sane(x: Choice) {
    && x.requested <= x.enabled && (forall c :: IsBuiltin(c) && c !in x.enabled ==> c in x.deferred)
    && (forall c :: c in x.deferred ==> x.deferred[c].Some? && NonBlank(x.deferred[c].value))
    && AllWorded(x.absent)
    && (forall job :: !Torn(x.requested, job))
  }

  /** Why a built-in channel does not run. */
  function Why(x: Choice, c: Channel): Exclusion {
    if c in x.requested then
      Exclusion(NotApplicable, if Producer(c) in x.absent then x.absent[Producer(c)] else "")
    else if c in x.enabled then Exclusion(NotSelected, "Not selected")
    else Exclusion(Deferred, if c in x.deferred && x.deferred[c].Some? then x.deferred[c].value else "")
  }

  ghost predicate BuiltinsUpTo(x: Choice, done: seq<Job>, jobs: seq<Job>, excluded: map<Channel, Exclusion>) {
    && jobs == Filter(IsChosen(x), done)
    && (forall c :: c in excluded <==> Producer(c) in done && !Chosen(x, Producer(c)))
    && (forall c :: c in excluded ==> excluded[c] == Why(x, c))
  }

  lemma ChosenStep(x: Choice, done: seq<Job>, jobs: seq<Job>, excluded: map<Channel, Exclusion>, job: Job, excluded': map<Channel, Exclusion>)
    requires BuiltinsUpTo(x, done, jobs, excluded)
    requires if Chosen(x, job) then excluded' == excluded
             else ExcludedUpTo(x, Channels(job), excluded, excluded')
    requires job !in done
    ensures BuiltinsUpTo(x, done + [job], if Chosen(x, job) then jobs + [job] else jobs, excluded')
  {
    FilterAppend(IsChosen(x), done, job);
    forall c ensures c in Channels(job) <==> Producer(c) == job { OneProducer(job, c); }
  }

  /** The source's case split, by the job's activity, gives every channel its own reason. */
  lemma WhyByJob(x: Choice, job: Job, i: nat)
    requires Sane(x) && !job.ExtensionJob? && !Chosen(x, job) && !Torn(x.enabled, job) && i < |Channels(job)|
    ensures var c := Channels(job)[i];
            && (!(c !in x.requested && c in x.enabled) && Touched(x.enabled, job) ==>
                  job in x.absent && Why(x, c) == Exclusion(NotApplicable, x.absent[job]))
            && (!Touched(x.enabled, job) ==>
                  c in x.deferred && x.deferred[c].Some? && Why(x, c) == Exclusion(Deferred, x.deferred[c].value))
  {
    OneProducer(job, Channels(job)[i]);
  }

  /** The exclusions of the job's first `i` channels. */
  ghost predicate ExcludedUpTo(x: Choice, channels: seq<Channel>, excluded: map<Channel, Exclusion>, r: map<Channel, Exclusion>) {
    && (forall c :: c in r <==> c in excluded || c in channels)
    && (forall c :: c in r ==> r[c] == if c in channels then Why(x, c) else excluded[c])
  }

  lemma ExcludeMore(x: Choice, channels: seq<Channel>, excluded: map<Channel, Exclusion>, r: map<Channel, Exclusion>, c: Channel, why: Exclusion)
    requires ExcludedUpTo(x, channels, excluded, r) && why == Why(x, c)
    ensures ExcludedUpTo(x, channels + [c], excluded, r[c := why])
  {
  }

  method Exclude(x: Choice, job: Job, active: bool, excluded: map<Channel, Exclusion>) returns (r: map<Channel, Exclusion>)
    requires Sane(x) && !job.ExtensionJob? && !Chosen(x, job) && !Torn(x.enabled, job) && (active <==> Touched(x.enabled, job))
    ensures ExcludedUpTo(x, Channels(job), excluded, r)
  {
    r := excluded;
    var channels := Channels(job);
    for i := 0 to |channels|
      invariant ExcludedUpTo(x, channels[..i], excluded, r)
    {
      var c := channels[i];
      TakeNext(channels, i);
      WhyByJob(x, job, i);
      var why;
      if c !in x.requested && c in x.enabled {
        why := Exclusion(NotSelected, "Not selected");
      } else {
        why := if active then Exclusion(NotApplicable, x.absent[job]) else Exclusion(Deferred, x.deferred[c].value);
      }
      ExcludeMore(x, channels[..i], excluded, r, c, why);
      r := r[c := why];
    }
    TakeAll(channels);
  }

  function ExtensionWhy(x: Choice, row: ExtensionRow): Option<Exclusion> {
    var c := Extension(row.name);
    if c !in x.enabled then Some(Exclusion(Deferred, "Not enabled"))
    else if c !in x.requested then Some(Exclusion(NotSelected, "Not selected"))
    else match row.deferredReason
         case Some(reason) => if reason != "" then Some(Exclusion(Deferred, reason)) else None
         case None => None
  }

  const NO_WORKFLOWS := Exclusion(NotApplicable, "No workflows")

  predicate WorkflowsMissing(x: Choice, tree: Tree) {
    GithubActionsSecurity in x.requested && (!Has(tree, WORKFLOWS) || !tree.hasWorkflowFiles)
  }

  function BuiltinExcluded(x: Choice, tree: Tree, c: Channel): Option<Exclusion> {
    if c == GithubActionsSecurity && WorkflowsMissing(x, tree) then Some(NO_WORKFLOWS)
    else if Chosen(x, Producer(c)) then None
    else Some(Why(x, c))
  }

  function Lookup(excluded: map<Channel, Exclusion>, c: Channel): Option<Exclusion> {
    if c in excluded then Some(excluded[c]) else None
  }

  datatype Selected = Selected(jobs: seq<Job>, excluded: map<Channel, Exclusion>, languages: seq<string>)

  ghost predicate Listed(rows: seq<ExtensionRow>, name: string) {
    exists i :: 0 <= i < |rows| && rows[i].name == name
  }

  ghost predicate BuiltinsSettled(x: Choice, tree: Tree, jobs: seq<Job>, excluded: map<Channel, Exclusion>) {
    && (forall job: Job :: !job.ExtensionJob? ==> (job in jobs <==> Chosen(x, job)))
    && (forall c :: IsBuiltin(c) ==> Lookup(excluded, c) == BuiltinExcluded(x, tree, c))
  }

  ghost predicate RowSettled(x: Choice, row: ExtensionRow, jobs: seq<Job>, excluded: map<Channel, Exclusion>) {
    && Lookup(excluded, Extension(row.name)) == ExtensionWhy(x, row)
    && (ExtensionJob(row.name) in jobs <==> ExtensionWhy(x, row).None?)
  }

  /** After the extensions `rows`. */
  ghost predicate ExtensionsUpTo(x: Choice, tree: Tree, rows: seq<ExtensionRow>, jobs: seq<Job>, excluded: map<Channel, Exclusion>) {
    && BuiltinsSettled(x, tree, jobs, excluded)
    && (forall name :: ExtensionJob(name) in jobs ==> Listed(rows, name))
    && (forall name :: Extension(name) in excluded ==> Listed(rows, name))
    && (forall i :: 0 <= i < |rows| ==> RowSettled(x, rows[i], jobs, excluded))
  }

  lemma ListedMore(rows: seq<ExtensionRow>, row: ExtensionRow, name: string)
    ensures Listed(rows + [row], name) <==> Listed(rows, name) || name == row.name
  {
    var all := rows + [row];
    assert all[|rows|] == row;
    if Listed(rows, name) {
      var i :| 0 <= i < |rows| && rows[i].name == name;
      assert all[i].name == name;
    }
  }

  lemma RowAdded(x: Choice, tree: Tree, row: ExtensionRow, jobs: seq<Job>, excluded: map<Channel, Exclusion>, jobs': seq<Job>, excluded': map<Channel, Exclusion>)
    requires BuiltinsSettled(x, tree, jobs, excluded) && ExtensionJob(row.name) !in jobs && Extension(row.name) !in excluded
    requires match ExtensionWhy(x, row)
             case Some(why) => jobs' == jobs && excluded' == excluded[Extension(row.name) := why]
             case None => jobs' == jobs + [ExtensionJob(row.name)] && excluded' == excluded
    ensures BuiltinsSettled(x, tree, jobs', excluded') && RowSettled(x, row, jobs', excluded')
  {
    forall c | IsBuiltin(c) ensures Lookup(excluded', c) == Lookup(excluded, c) { }
  }

  lemma ExtensionStep(x: Choice, tree: Tree, rows: seq<ExtensionRow>, row: ExtensionRow, jobs: seq<Job>, excluded: map<Channel, Exclusion>,
                      jobs': seq<Job>, excluded': map<Channel, Exclusion>)
    requires ExtensionsUpTo(x, tree, rows, jobs, excluded) && !Listed(rows, row.name)
    requires match ExtensionWhy(x, row)
             case Some(why) => jobs' == jobs && excluded' == excluded[Extension(row.name) := why]
             case None => jobs' == jobs + [ExtensionJob(row.name)] && excluded' == excluded
    ensures ExtensionsUpTo(x, tree, rows + [row], jobs', excluded')
  {
    RowAdded(x, tree, row, jobs, excluded, jobs', excluded');
    forall name ensures Listed(rows + [row], name) <==> Listed(rows, name) || name == row.name { ListedMore(rows, row, name); }
    forall i | 0 <= i < |rows + [row]| ensures RowSettled(x, (rows + [row])[i], jobs', excluded') {
      if i < |rows| {
        assert RowSettled(x, rows[i], jobs, excluded) && rows[i].name != row.name;
      }
    }
  }

  function Languages(python: bool, javascript: bool): seq<string> {
    (if python then ["python"] else []) + (if javascript then ["javascript-typescript"] else [])
  }

  predicate Acceptable(config: Config, tree: Tree, request: Option<set<Channel>>) {
    var enabled, requested := Enabled(config), Requested(config, request);
    && Registered(config.extensions) && Placed(config)
    && requested != {} && requested <= enabled
    && NoneTorn(requested, JOBS) && NoneTorn(enabled, JOBS)
    && !PathEscapes(config, tree, requested)
  }

  /** The jobs of the extensions that run, in the registry's order. */
  function ExtensionJobs(x: Choice, rows: seq<ExtensionRow>): seq<Job> {
    if rows == [] then []
    else
      var row := rows[|rows| - 1];
      ExtensionJobs(x, rows[..|rows| - 1]) + if ExtensionWhy(x, row).None? then [ExtensionJob(row.name)] else []
  }

  /** A configured root of the language; a portable profile may leave it out. */
  predicate HasLanguage(profile: Profile, tree: Tree, root: string) {
    if profile.portable then Rooted(tree, root) else Has(tree, root)
  }

  /** What `selection` returns for an acceptable configuration, request and tree. */
  ghost predicate Settled(config: Config, tree: Tree, request: Option<set<Channel>>, r: Selected) {
    exists absent: map<Job, string> ::
      && AbsentExactly(config.profile, tree, absent)
      && var x := Choice(Enabled(config), Requested(config, request), config.deferred, absent);
         && ExtensionsUpTo(x, tree, config.extensions, r.jobs, r.excluded)
         && r.jobs == Filter(IsChosen(x), JOBS) + ExtensionJobs(x, config.extensions)
         && r.languages == Languages(HasLanguage(config.profile, tree, config.profile.pythonRoot),
                                     HasLanguage(config.profile, tree, config.profile.javascriptRoot))
  }

  method ChooseBuiltins(x: Choice, table: seq<Job>) returns (jobs: seq<Job>, excluded: map<Channel, Exclusion>, torn: bool)
    requires Sane(x) && NoDup(table) && forall i :: 0 <= i < |table| ==> !table[i].ExtensionJob?
    ensures torn <==> !NoneTorn(x.enabled, table)
    ensures !torn ==> BuiltinsUpTo(x, table, jobs, excluded)
  {
    jobs, excluded, torn := [], map[], false;
    for i := 0 to |table|
      invariant BuiltinsUpTo(x, table[..i], jobs, excluded)
      invariant forall k :: 0 <= k < i ==> !Torn(x.enabled, table[k])
    {
      var job := table[i];
      if Torn(x.enabled, job) { return jobs, excluded, true; }
      ghost var before := excluded;
      if !Chosen(x, job) {
        excluded := Exclude(x, job, Touched(x.enabled, job), excluded);
      }
      ChosenStep(x, table[..i], jobs, before, job, excluded);
      if Chosen(x, job) {
        jobs := jobs + [job];
      }
      TakeNext(table, i);
    }
    TakeAll(table);
  }

  lemma BuiltinsDone(x: Choice, jobs: seq<Job>, excluded: map<Channel, Exclusion>)
    requires BuiltinsUpTo(x, JOBS, jobs, excluded)
    ensures forall job :: job in jobs <==> !job.ExtensionJob? && Chosen(x, job)
    ensures forall c :: c in excluded <==> IsBuiltin(c) && !Chosen(x, Producer(c))
    ensures forall c :: c in excluded ==> excluded[c] == Why(x, c)
  {
    FilterMembers(IsChosen(x), JOBS);
    forall job ensures job in jobs <==> !job.ExtensionJob? && Chosen(x, job) { JobsListed(job); }
    forall c ensures Producer(c) in JOBS <==> IsBuiltin(c) { ProducerListed(c); }
  }

  lemma AfterBuiltins(x: Choice, tree: Tree, jobs: seq<Job>, excluded: map<Channel, Exclusion>)
    requires BuiltinsUpTo(x, JOBS, jobs, excluded)
    ensures ExtensionsUpTo(x, tree, [], jobs, if WorkflowsMissing(x, tree) then excluded[GithubActionsSecurity := NO_WORKFLOWS] else excluded)
  {
    BuiltinsDone(x, jobs, excluded);
  }

  lemma ExtensionJobsNext(x: Choice, rows: seq<ExtensionRow>, i: nat, jobs: seq<Job>)
    requires i < |rows|
    ensures jobs + ExtensionJobs(x, rows[..i + 1])
         == if ExtensionWhy(x, rows[i]).None? then jobs + ExtensionJobs(x, rows[..i]) + [ExtensionJob(rows[i].name)]
            else jobs + ExtensionJobs(x, rows[..i])
  {
    assert rows[..i + 1][..i] == rows[..i];
  }

  method ChooseExtension(x: Choice, row: ExtensionRow, jobs: seq<Job>, excluded: map<Channel, Exclusion>)
      returns (jobs': seq<Job>, excluded': map<Channel, Exclusion>)
    ensures match ExtensionWhy(x, row)
            case Some(why) => jobs' == jobs && excluded' == excluded[Extension(row.name) := why]
            case None => jobs' == jobs + [ExtensionJob(row.name)] && excluded' == excluded
  {
    jobs', excluded' := jobs, excluded;
    var c := Extension(row.name);
    if c !in x.enabled {
      excluded' := excluded[c := Exclusion(Deferred, "Not enabled")];
    } else if c !in x.requested {
      excluded' := excluded[c := Exclusion(NotSelected, "Not selected")];
    } else if row.deferredReason.Some? && row.deferredReason.value != "" {
      excluded' := excluded[c := Exclusion(Deferred, row.deferredReason.value)];
    } else {
      jobs' := jobs + [ExtensionJob(row.name)];
    }
  }

  lemma NotYetListed(rows: seq<ExtensionRow>, i: nat)
    requires Registered(rows) && i < |rows|
    ensures !Listed(rows[..i], rows[i].name)
  {
  }

  method ChooseExtensions(x: Choice, tree: Tree, rows: seq<ExtensionRow>, jobs: seq<Job>, excluded: map<Channel, Exclusion>)
      returns (jobs': seq<Job>, excluded': map<Channel, Exclusion>)
    requires Registered(rows) && ExtensionsUpTo(x, tree, [], jobs, excluded)
    ensures ExtensionsUpTo(x, tree, rows, jobs', excluded') && jobs' == jobs + ExtensionJobs(x, rows)
  {
    jobs', excluded' := jobs, excluded;
    assert jobs == jobs + [];
    for i := 0 to |rows|
      invariant ExtensionsUpTo(x, tree, rows[..i], jobs', excluded') && jobs' == jobs + ExtensionJobs(x, rows[..i])
    {
      ExtensionJobsNext(x, rows, i, jobs);
      TakeNext(rows, i);
      NotYetListed(rows, i);
      var nextJobs, nextExcluded := ChooseExtension(x, rows[i], jobs', excluded');
      ExtensionStep(x, tree, rows[..i], rows[i], jobs', excluded', nextJobs, nextExcluded);
      jobs', excluded' := nextJobs, nextExcluded;
    }
    TakeAll(rows);
  }

  method FindAbsent(profile: Profile, tree: Tree) returns (absent: map<Job, string>)
    ensures AbsentExactly(profile, tree, absent)
  {
    if profile.portable {
      absent := PortableAbsent(profile, tree);
    } else {
      absent := FullAbsent(profile, tree);
    }
  }

  /** What `selection` does once its request is in order and the absent jobs are known. */
  method SelectJobs(config: Config, tree: Tree, request: Option<set<Channel>>, absent: map<Job, string>) returns (r: Result<Selected>)
    requires Registered(config.extensions) && Placed(config) && AbsentExactly(config.profile, tree, absent)
    requires Requested(config, request) <= Enabled(config) && NoneTorn(Requested(config, request), JOBS)
    ensures r.Ok? <==> NoneTorn(Enabled(config), JOBS) && !WorkflowsEscape(tree, Requested(config, request))
    ensures r.Ok? ==> Settled(config, tree, request, r.value)
  {
    var profile, requested := config.profile, Requested(config, request);
    var x := Choice(Enabled(config), requested, config.deferred, absent);
    PlacedSane(config, requested, absent);
    TableFacts();
    var jobs, excluded, torn := ChooseBuiltins(x, JOBS);
    if torn { return Err("split profile"); }
    if WorkflowsEscape(tree, requested) { return Err("path escapes"); }
    AfterBuiltins(x, tree, jobs, excluded);
    if WorkflowsMissing(x, tree) {
      excluded := excluded[GithubActionsSecurity := NO_WORKFLOWS];
    }
    jobs, excluded := ChooseExtensions(x, tree, config.extensions, jobs, excluded);
    r := Ok(Selected(jobs, excluded, Languages(HasLanguage(profile, tree, profile.pythonRoot), HasLanguage(profile, tree, profile.javascriptRoot))));
  }

  /** `selection`: succeeds exactly on what is acceptable. */
  method Select(config: Config, tree: Tree, request: Option<set<Channel>>) returns (r: Result<Selected>)
    ensures r.Ok? <==> Acceptable(config, tree, request)
    ensures r.Ok? ==> Settled(config, tree, request, r.value)
  {
    var enabled, requested, profile := Enabled(config), Requested(config, request), config.profile;
    if !Registered(config.extensions) { return Err("extensions"); }
    if !Placed(config) { return Err("placement"); }
    if requested == {} || !(requested <= enabled) {
      return Err("request");
    }
    if !NoneTorn(requested, JOBS) {
      return Err("split request");
    }
    if ProfileEscapes(profile, tree) {
      return Err("path escapes");
    }
    var absent := FindAbsent(profile, tree);
    r := SelectJobs(config, tree, request, absent);
  }

  lemma PlacedSane(config: Config, requested: set<Channel>, absent: map<Job, string>)
    requires Placed(config) && requested <= Enabled(config)
    requires NoneTorn(requested, JOBS)
    requires AllWorded(absent)
    ensures Sane(Choice(Enabled(config), requested, config.deferred, absent))
  {
    forall c | IsBuiltin(c) && c !in Enabled(config) ensures c in config.deferred {
      assert c in Builtins();
    }
    forall job ensures !Torn(requested, job) { NeverTorn(requested, job); }
  }

  lemma TableFacts()
    ensures NoDup(JOBS) && forall i :: 0 <= i < |JOBS| ==> !JOBS[i].ExtensionJob?
  {
    JobsDistinct();
  }
}
