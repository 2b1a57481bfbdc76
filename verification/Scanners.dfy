/** The scanner channels, the jobs that produce them, and the shared-producer groups. */
module Scanners {
  import opened Sequences

  datatype Channel =
    | SonarqubeCloud | Ruff | Bandit | Pyright | Eslint | Typescript | Codeql | Semgrep | Snyk | Osv | Gitleaks | Trivy
    | Hadolint | Checkov | ShippingImageCves | SbomLicenseProvenance | SecretProtectionPosture | GithubActionsSecurity
    | OpenssfScorecard | Radon | Xenon | Vulture | Coverage | Schemathesis | Atheris | CoderabbitAiAdvisory | OwaspJs
    | OwaspIacSecrets
    | Extension(name: string)

  datatype Job =
    | SonarqubeCloudJob | PythonRuff | PythonBandit | PythonTypes | TypescriptQuality | CodeqlJob | SemgrepJob | SnykJob
    | OsvScanner | GitleaksJob | TrivyJob | HadolintJob | CheckovJob | ShippingImageSecurity | SecretProtectionPostureJob
    | GithubActionsSecurityJob | OpenssfScorecardJob | Complexity | DeadCode | TestCoverage | SchemathesisFuzz
    | AtherisStateMachine | Coderabbit | OwaspJsJob | OwaspIacSecretsJob
    | ExtensionJob(name: string)

  const JOBS_A: seq<Job> := [SonarqubeCloudJob, PythonRuff, PythonBandit, PythonTypes, TypescriptQuality]
  const JOBS_B: seq<Job> := [CodeqlJob, SemgrepJob, SnykJob, OsvScanner, GitleaksJob]
  const JOBS_C: seq<Job> := [TrivyJob, HadolintJob, CheckovJob, ShippingImageSecurity, SecretProtectionPostureJob]
  const JOBS_D: seq<Job> := [GithubActionsSecurityJob, OpenssfScorecardJob, Complexity, DeadCode, TestCoverage]
  const JOBS_E: seq<Job> := [SchemathesisFuzz, AtherisStateMachine, Coderabbit, OwaspJsJob, OwaspIacSecretsJob]

  /** The group table's keys, in its order. */
  const JOBS: seq<Job> := JOBS_A + JOBS_B + JOBS_C + JOBS_D + JOBS_E

  /** The channels that a job produces, all of them together. */
  function Channels(job: Job): (r: seq<Channel>) {
    match job
    case SonarqubeCloudJob => [SonarqubeCloud]
    case PythonRuff => [Ruff]
    case PythonBandit => [Bandit]
    case PythonTypes => [Pyright]
    case TypescriptQuality => [Eslint, Typescript]
    case CodeqlJob => [Codeql]
    case SemgrepJob => [Semgrep]
    case SnykJob => [Snyk]
    case OsvScanner => [Osv]
    case GitleaksJob => [Gitleaks]
    case TrivyJob => [Trivy]
    case HadolintJob => [Hadolint]
    case CheckovJob => [Checkov]
    case ShippingImageSecurity => [ShippingImageCves, SbomLicenseProvenance]
    case SecretProtectionPostureJob => [SecretProtectionPosture]
    case GithubActionsSecurityJob => [GithubActionsSecurity]
    case OpenssfScorecardJob => [OpenssfScorecard]
    case Complexity => [Radon, Xenon]
    case DeadCode => [Vulture]
    case TestCoverage => [Coverage]
    case SchemathesisFuzz => [Schemathesis]
    case AtherisStateMachine => [Atheris]
    case Coderabbit => [CoderabbitAiAdvisory]
    case OwaspJsJob => [OwaspJs]
    case OwaspIacSecretsJob => [OwaspIacSecrets]
    case ExtensionJob(name) => [Extension(name)]
  }

  /** The job that produces a channel. */
  function Producer(c: Channel): (job: Job)
    ensures c in Channels(job)
  {
    match c
    case SonarqubeCloud => SonarqubeCloudJob
    case Ruff => PythonRuff
    case Bandit => PythonBandit
    case Pyright => PythonTypes
    case Eslint | Typescript => TypescriptQuality
    case Codeql => CodeqlJob
    case Semgrep => SemgrepJob
    case Snyk => SnykJob
    case Osv => OsvScanner
    case Gitleaks => GitleaksJob
    case Trivy => TrivyJob
    case Hadolint => HadolintJob
    case Checkov => CheckovJob
    case ShippingImageCves | SbomLicenseProvenance => ShippingImageSecurity
    case SecretProtectionPosture => SecretProtectionPostureJob
    case GithubActionsSecurity => GithubActionsSecurityJob
    case OpenssfScorecard => OpenssfScorecardJob
    case Radon | Xenon => Complexity
    case Vulture => DeadCode
    case Coverage => TestCoverage
    case Schemathesis => SchemathesisFuzz
    case Atheris => AtherisStateMachine
    case CoderabbitAiAdvisory => Coderabbit
    case OwaspJs => OwaspJsJob
    case OwaspIacSecrets => OwaspIacSecretsJob
    case Extension(name) => ExtensionJob(name)
  }

  /** No channel has two producers. */
  lemma OneProducer(job: Job, c: Channel)
    ensures c in Channels(job) <==> Producer(c) == job
  {
    ProducedBy(job, c);
  }

  /** One half of the table, and the other. */
  lemma FirstEarly(job: Job)
    requires Part(job) <= 2
    ensures |Channels(job)| >= 1 && Producer(Channels(job)[0]) == job
  {
  }

  lemma FirstLate(job: Job)
    requires Part(job) > 2
    ensures |Channels(job)| >= 1 && Producer(Channels(job)[0]) == job
  {
  }

  lemma FirstProduced(job: Job)
    ensures |Channels(job)| >= 1 && Producer(Channels(job)[0]) == job
  {
    if Part(job) <= 2 { FirstEarly(job); } else { FirstLate(job); }
  }

  lemma SecondProduced(job: Job)
    ensures |Channels(job)| <= 2 && (|Channels(job)| == 2 ==> Producer(Channels(job)[1]) == job)
  {
  }

  lemma InTwo<T>(s: seq<T>, x: T)
    requires 1 <= |s| <= 2 && x in s
    ensures x == s[0] || (|s| == 2 && x == s[1])
  {
  }

  lemma ProducedBy(job: Job, c: Channel)
    ensures c in Channels(job) ==> Producer(c) == job
  {
    FirstProduced(job);
    SecondProduced(job);
    if c in Channels(job) {
      InTwo(Channels(job), c);
    }
  }

  /** The part of the table that a job stands in. */
  function Part(job: Job): nat {
    match job
    case SonarqubeCloudJob | PythonRuff | PythonBandit | PythonTypes | TypescriptQuality => 1
    case CodeqlJob | SemgrepJob | SnykJob | OsvScanner | GitleaksJob => 2
    case TrivyJob | HadolintJob | CheckovJob | ShippingImageSecurity | SecretProtectionPostureJob => 3
    case GithubActionsSecurityJob | OpenssfScorecardJob | Complexity | DeadCode | TestCoverage => 4
    case SchemathesisFuzz | AtherisStateMachine | Coderabbit | OwaspJsJob | OwaspIacSecretsJob => 5
    case ExtensionJob(_) => 0
  }

  lemma InFive<T>(a: T, b: T, c: T, d: T, e: T, x: T)
    ensures x in [a, b, c, d, e] <==> x == a || x == b || x == c || x == d || x == e
  {
    var s := [a, b, c, d, e];
    assert s[0] == a && s[1] == b && s[2] == c && s[3] == d && s[4] == e;
    if x in s {
      var i :| 0 <= i < |s| && s[i] == x;
    }
  }

  lemma PartA(job: Job) ensures job in JOBS_A <==> Part(job) == 1
  {
    InFive(SonarqubeCloudJob, PythonRuff, PythonBandit, PythonTypes, TypescriptQuality, job);
  }

  lemma PartB(job: Job) ensures job in JOBS_B <==> Part(job) == 2
  {
    InFive(CodeqlJob, SemgrepJob, SnykJob, OsvScanner, GitleaksJob, job);
  }

  lemma PartC(job: Job) ensures job in JOBS_C <==> Part(job) == 3
  {
    InFive(TrivyJob, HadolintJob, CheckovJob, ShippingImageSecurity, SecretProtectionPostureJob, job);
  }

  lemma PartD(job: Job) ensures job in JOBS_D <==> Part(job) == 4
  {
    InFive(GithubActionsSecurityJob, OpenssfScorecardJob, Complexity, DeadCode, TestCoverage, job);
  }

  lemma PartE(job: Job) ensures job in JOBS_E <==> Part(job) == 5
  {
    InFive(SchemathesisFuzz, AtherisStateMachine, Coderabbit, OwaspJsJob, OwaspIacSecretsJob, job);
  }

  lemma InParts<T>(a: seq<T>, b: seq<T>, c: seq<T>, d: seq<T>, e: seq<T>, x: T)
    ensures x in a + b + c + d + e <==> x in a || x in b || x in c || x in d || x in e
  {
  }

  lemma PartRange(job: Job)
    ensures 0 <= Part(job) <= 5 && (Part(job) == 0 <==> job.ExtensionJob?)
  {
  }

  /** The table lists every job but those of extensions. */
  lemma JobsListed(job: Job)
    ensures job in JOBS <==> !job.ExtensionJob?
  {
    PartA(job);
    PartB(job);
    PartC(job);
    PartD(job);
    PartE(job);
    PartRange(job);
    InParts(JOBS_A, JOBS_B, JOBS_C, JOBS_D, JOBS_E, job);
  }

  lemma PartsDistinct()
    ensures NoDup(JOBS_A) && NoDup(JOBS_B) && NoDup(JOBS_C) && NoDup(JOBS_D) && NoDup(JOBS_E)
  {
  }

  /** And none twice. */
  lemma JobsDistinct()
    ensures NoDup(JOBS)
  {
    PartsDistinct();
    forall job ensures (job in JOBS_A <==> Part(job) == 1) && (job in JOBS_B <==> Part(job) == 2) && (job in JOBS_C <==> Part(job) == 3)
                    && (job in JOBS_D <==> Part(job) == 4) && (job in JOBS_E <==> Part(job) == 5)
    {
      PartA(job);
      PartB(job);
      PartC(job);
      PartD(job);
      PartE(job);
    }
    FiveApart(JOBS_A, JOBS_B, JOBS_C, JOBS_D, JOBS_E);
  }

  lemma FiveApart(a: seq<Job>, b: seq<Job>, c: seq<Job>, d: seq<Job>, e: seq<Job>)
    requires NoDup(a) && NoDup(b) && NoDup(c) && NoDup(d) && NoDup(e)
    requires forall job :: (job in a ==> Part(job) == 1) && (job in b ==> Part(job) == 2) && (job in c ==> Part(job) == 3)
                        && (job in d ==> Part(job) == 4) && (job in e ==> Part(job) == 5)
    ensures NoDup(a + b + c + d + e)
  {
    NoDupAppend(a, b);
    NoDupAppend(a + b, c);
    NoDupAppend(a + b + c, d);
    NoDupAppend(a + b + c + d, e);
  }

  lemma JobFresh(i: nat)
    requires i < |JOBS|
    ensures JOBS[i] !in JOBS[..i]
  {
    JobsDistinct();
    EarlierDiffer(JOBS, i);
  }

  lemma EarlierDiffer(s: seq<Job>, i: nat)
    requires NoDup(s) && i < |s|
    ensures s[i] !in s[..i]
  {
  }

  predicate IsBuiltin(c: Channel) {
    !c.Extension?
  }

  lemma ProducerListed(c: Channel)
    ensures Producer(c) in JOBS <==> IsBuiltin(c)
  {
    JobsListed(Producer(c));
  }

  /** A request that takes every shared producer whole or not at all. */
  ghost predicate Closed(channels: set<Channel>) {
    forall c, d :: c in channels && Producer(c) == Producer(d) ==> d in channels
  }
}
