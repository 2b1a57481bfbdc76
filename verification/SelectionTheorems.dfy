/** No channel goes missing in a selection, and a plan made from an acceptable request is acceptable. */
module SelectionTheorems {
  import opened Text
  import opened Scanners
  import opened Selection
  import Plan
  import StatusContract
  import Sequences

  // ----- every channel is accounted for

  lemma TouchedBy(channels: set<Channel>, c: Channel)
    requires c in channels
    ensures Touched(channels, Producer(c))
  {
  }

  lemma WholeOrNot(channels: set<Channel>, c: Channel)
    requires Touched(channels, Producer(c)) && !Torn(channels, Producer(c))
    ensures c in channels
  {
    var i :| 0 <= i < |Channels(Producer(c))| && Channels(Producer(c))[i] == c;
  }

  function BuiltinStatus(x: Choice, c: Channel): Status {
    if c in x.requested then NotApplicable else if c in x.enabled then NotSelected else Deferred
  }

  /** A built-in channel: it runs exactly when it was requested and its job is not lacking. */
  lemma BuiltinAccounted(x: Choice, tree: Tree, jobs: seq<Job>, excluded: map<Channel, Exclusion>, c: Channel)
    requires Sane(x) && BuiltinsSettled(x, tree, jobs, excluded) && IsBuiltin(c)
    ensures Producer(c) in jobs <==> c in x.requested && Producer(c) !in x.absent
    ensures c in excluded <==> Producer(c) !in jobs || (c == GithubActionsSecurity && WorkflowsMissing(x, tree))
    ensures c in excluded ==> NonBlank(excluded[c].reason)
    ensures c in excluded ==> excluded[c].status == BuiltinStatus(x, c)
  {
    assert !Producer(c).ExtensionJob?;
    if c in x.requested {
      TouchedBy(x.requested, c);
    } else if Touched(x.requested, Producer(c)) {
      WholeOrNot(x.requested, c);
    }
    assert Lookup(excluded, c) == BuiltinExcluded(x, tree, c);
    BuiltinReason(x, tree, c);
  }

  lemma FixedReasons()
    ensures NonBlank(NO_WORKFLOWS.reason) && NonBlank("Not selected") && NonBlank("Not enabled")
  {
    assert NO_WORKFLOWS.reason[0] == 'N';
    assert "Not selected"[0] == 'N';
    assert "Not enabled"[0] == 'N';
  }

  lemma BuiltinReason(x: Choice, tree: Tree, c: Channel)
    requires Sane(x) && IsBuiltin(c)
    ensures BuiltinExcluded(x, tree, c).Some? ==> NonBlank(BuiltinExcluded(x, tree, c).value.reason)
    ensures BuiltinExcluded(x, tree, c).Some? ==> BuiltinExcluded(x, tree, c).value.status == BuiltinStatus(x, c)
  {
    if c in x.requested {
      TouchedBy(x.requested, c);
    }
    FixedReasons();
  }

  lemma ExtensionReason(x: Choice, row: ExtensionRow)
    requires x.requested <= x.enabled && (row.deferredReason.Some? ==> NonBlank(row.deferredReason.value))
    ensures var c := Extension(row.name);
            && (ExtensionWhy(x, row).None? <==> c in x.requested && row.deferredReason.None?)
            && (ExtensionWhy(x, row).Some? ==> NonBlank(ExtensionWhy(x, row).value.reason))
            && (ExtensionWhy(x, row).Some? ==>
                  ExtensionWhy(x, row).value.status == if c in x.enabled && c !in x.requested then NotSelected else Deferred)
  {
    FixedReasons();
  }

  /** An extension channel: it runs exactly when it was requested and not deferred. */
  lemma ExtensionAccounted(x: Choice, row: ExtensionRow, jobs: seq<Job>, excluded: map<Channel, Exclusion>)
    requires x.requested <= x.enabled && RowSettled(x, row, jobs, excluded)
    requires row.deferredReason.Some? ==> NonBlank(row.deferredReason.value)
    ensures var c := Extension(row.name);
            && (Producer(c) in jobs <==> c in x.requested && row.deferredReason.None?)
            && (c in excluded <==> Producer(c) !in jobs)
            && (c in excluded ==> NonBlank(excluded[c].reason))
            && (c in excluded ==> excluded[c].status == if c in x.enabled && c !in x.requested then NotSelected else Deferred)
  {
    ExtensionReason(x, row);
    assert Producer(Extension(row.name)) == ExtensionJob(row.name);
  }

  lemma SettledFrom(config: Config, tree: Tree, request: Option<set<Channel>>, r: Selected) returns (absent: map<Job, string>)
    requires Settled(config, tree, request, r)
    ensures AbsentExactly(config.profile, tree, absent)
    ensures ExtensionsUpTo(Choice(Enabled(config), Requested(config, request), config.deferred, absent), tree, config.extensions, r.jobs, r.excluded)
  {
    absent :| && AbsentExactly(config.profile, tree, absent)
              && ExtensionsUpTo(Choice(Enabled(config), Requested(config, request), config.deferred, absent),
                                tree, config.extensions, r.jobs, r.excluded);
  }

  /** Whenever a selection is made, every known channel has its job selected or an exclusion with a
      status and a reason. Both happen for one channel only, and exactly when the tree has no workflows. */
  lemma EveryChannelAccounted(config: Config, tree: Tree, request: Option<set<Channel>>, r: Selected, c: Channel)
    requires Acceptable(config, tree, request) && Settled(config, tree, request, r) && c in Known(config)
    ensures Producer(c) in r.jobs || c in r.excluded
    ensures c in r.excluded ==> NonBlank(r.excluded[c].reason)
    ensures Producer(c) in r.jobs && c in r.excluded <==>
              && c == GithubActionsSecurity && c in Requested(config, request) && !Lacks(config.profile, tree, Producer(c))
              && !(Has(tree, WORKFLOWS) && tree.hasWorkflowFiles)
    ensures Producer(c) in r.jobs ==> c in Requested(config, request) && (IsBuiltin(c) ==> !Lacks(config.profile, tree, Producer(c)))
    ensures c in Requested(config, request) && Producer(c) !in r.jobs ==>
              c in r.excluded && r.excluded[c].status == if IsBuiltin(c) then NotApplicable else Deferred
    ensures c in Enabled(config) && c !in Requested(config, request) ==>
              c in r.excluded && r.excluded[c].status == NotSelected
    ensures c !in Enabled(config) ==> c in r.excluded && r.excluded[c].status == Deferred
  {
    var absent := SettledFrom(config, tree, request, r);
    if IsBuiltin(c) {
      KnownBuiltin(config, tree, request, r, absent, c);
      BuiltinCase(config, tree, request, r, absent, c);
    } else {
      KnownExtension(config, tree, request, r, absent, c);
    }
  }

  lemma BuiltinCase(config: Config, tree: Tree, request: Option<set<Channel>>, r: Selected, absent: map<Job, string>, c: Channel)
    requires IsBuiltin(c) && Requested(config, request) <= Enabled(config)
    requires var x := Choice(Enabled(config), Requested(config, request), config.deferred, absent);
            && (Producer(c) in r.jobs <==> c in x.requested && !Lacks(config.profile, tree, Producer(c)))
            && (c in r.excluded <==> Producer(c) !in r.jobs || (c == GithubActionsSecurity && WorkflowsMissing(x, tree)))
            && (c in r.excluded ==> r.excluded[c].status == BuiltinStatus(x, c))
    ensures Producer(c) in r.jobs || c in r.excluded
    ensures Producer(c) in r.jobs && c in r.excluded <==>
              && c == GithubActionsSecurity && c in Requested(config, request) && !Lacks(config.profile, tree, Producer(c))
              && !(Has(tree, WORKFLOWS) && tree.hasWorkflowFiles)
    ensures c in Requested(config, request) && Producer(c) !in r.jobs ==> c in r.excluded && r.excluded[c].status == NotApplicable
    ensures c in Enabled(config) && c !in Requested(config, request) ==> c in r.excluded && r.excluded[c].status == NotSelected
    ensures c !in Enabled(config) ==> c in r.excluded && r.excluded[c].status == Deferred
  {
  }

  lemma KnownBuiltin(config: Config, tree: Tree, request: Option<set<Channel>>, r: Selected, absent: map<Job, string>, c: Channel)
    requires Acceptable(config, tree, request) && AbsentExactly(config.profile, tree, absent) && IsBuiltin(c)
    requires ExtensionsUpTo(Choice(Enabled(config), Requested(config, request), config.deferred, absent), tree, config.extensions, r.jobs, r.excluded)
    ensures var x := Choice(Enabled(config), Requested(config, request), config.deferred, absent);
            && (Producer(c) in r.jobs <==> c in x.requested && !Lacks(config.profile, tree, Producer(c)))
            && (c in r.excluded <==> Producer(c) !in r.jobs || (c == GithubActionsSecurity && WorkflowsMissing(x, tree)))
            && (c in r.excluded ==> NonBlank(r.excluded[c].reason) && r.excluded[c].status == BuiltinStatus(x, c))
  {
    var x := Choice(Enabled(config), Requested(config, request), config.deferred, absent);
    PlacedSane(config, x.requested, absent);
    BuiltinAccounted(x, tree, r.jobs, r.excluded, c);
    BuiltinProducer(c);
  }

  lemma BuiltinProducer(c: Channel)
    requires IsBuiltin(c)
    ensures !Producer(c).ExtensionJob?
  {
  }

  lemma KnownExtension(config: Config, tree: Tree, request: Option<set<Channel>>, r: Selected, absent: map<Job, string>, c: Channel)
    requires Acceptable(config, tree, request) && !IsBuiltin(c) && c in Known(config)
    requires ExtensionsUpTo(Choice(Enabled(config), Requested(config, request), config.deferred, absent), tree, config.extensions, r.jobs, r.excluded)
    ensures Producer(c) in r.jobs ==> c in Requested(config, request)
    ensures c in r.excluded <==> Producer(c) !in r.jobs
    ensures c in r.excluded ==> NonBlank(r.excluded[c].reason)
    ensures c in r.excluded ==>
              r.excluded[c].status == if c in Enabled(config) && c !in Requested(config, request) then NotSelected else Deferred
  {
    var x := Choice(Enabled(config), Requested(config, request), config.deferred, absent);
    assert c !in Builtins();
    var i :| 0 <= i < |config.extensions| && c == Extension(config.extensions[i].name);
    assert RowSettled(x, config.extensions[i], r.jobs, r.excluded);
    ExtensionAccounted(x, config.extensions[i], r.jobs, r.excluded);
  }

  // ----- a plan is never rejected

  lemma ClosedIfNoneTorn(channels: set<Channel>)
    requires NoneTorn(channels, JOBS)
    ensures Closed(channels)
  {
    forall c, d | c in channels && Producer(c) == Producer(d) ensures d in channels {
      NeverTorn(channels, Producer(c));
      TouchedBy(channels, c);
      WholeOrNot(channels, d);
    }
  }

  lemma NoneTornIfClosed(channels: set<Channel>, jobs: seq<Job>)
    requires Closed(channels)
    ensures NoneTorn(channels, jobs)
  {
    forall i | 0 <= i < |jobs| ensures !Torn(channels, jobs[i]) {
      ClosedNotTorn(channels, jobs[i]);
    }
  }

  lemma ClosedNotTorn(channels: set<Channel>, job: Job)
    requires Closed(channels)
    ensures !Torn(channels, job)
  {
    forall a, b | 0 <= a < |Channels(job)| && 0 <= b < |Channels(job)| && Channels(job)[a] in channels
      ensures Channels(job)[b] in channels
    {
      OneProducer(job, Channels(job)[a]);
      OneProducer(job, Channels(job)[b]);
    }
  }

  /** Evidence reuse never makes an acceptable request unacceptable: whatever is left to run
      is accepted again by `selection`. */
  lemma PlanNeverRejected(config: Config, tree: Tree, requested: seq<Channel>, cached: map<Channel, string>, runAgain: bool,
                          reused: seq<Channel>, execution: seq<Channel>)
    requires Acceptable(config, tree, Some(set c | c in requested))
    requires Plan.Splits(requested, reused, execution) && Plan.SparedAre(requested, cached, runAgain, JOBS, reused)
    requires execution != []
    ensures Acceptable(config, tree, Some(set c | c in execution))
  {
    var asked, runs := set c | c in requested, set c | c in execution;
    Plan.SplitMembers(requested, reused, execution);
    ClosedIfNoneTorn(asked);
    Plan.ExecutionClosedExact(requested, cached, runAgain, reused, execution);
    NoneTornIfClosed(runs, JOBS);
    assert execution[0] in runs;
    assert runs <= asked;
  }

  lemma EslintTorn()
    ensures !NoneTorn({Eslint}, JOBS)
  {
    JobsListed(TypescriptQuality);
    var i :| 0 <= i < |JOBS| && JOBS[i] == TypescriptQuality;
    assert Channels(JOBS[i])[0] == Eslint && Channels(JOBS[i])[1] == Typescript;
  }

  lemma SplitInTwo()
    ensures Plan.Splits([Eslint, Semgrep], [Semgrep], [Eslint])
  {
    var requested, front := [Eslint, Semgrep], [Eslint];
    assert requested == front + [Semgrep] && front == [] + [Eslint];
    Sequences.FilterAppend(Plan.In([Semgrep]), front, Semgrep);
    Sequences.FilterAppend(Plan.In([Semgrep]), [], Eslint);
    Sequences.FilterAppend(Plan.NotIn([Semgrep]), front, Semgrep);
    Sequences.FilterAppend(Plan.NotIn([Semgrep]), [], Eslint);
  }

  /** A request that splits a shared producer can end in a plan that `selection` rejects. */
  lemma SplitRequestRejected()
    ensures var requested, cached := [Eslint, Semgrep], map[Semgrep := "COMPLETED"];
            && Plan.Splits(requested, [Semgrep], [Eslint])
            && Plan.SparedAre(requested, cached, false, JOBS, [Semgrep])
            && !NoneTorn({Eslint}, JOBS)
  {
    SplitInTwo();
    EslintTorn();
    StatusContract.CompletedIsComplete();
    SplitSpared(map[Semgrep := "COMPLETED"]);
  }

  lemma SplitSpared(cached: map<Channel, string>)
    requires Plan.Reusable(cached, false, Semgrep) && Eslint !in cached
    ensures Plan.SparedAre([Eslint, Semgrep], cached, false, JOBS, [Semgrep])
  {
    assert Producer(Eslint) != Producer(Semgrep);
  }
}
