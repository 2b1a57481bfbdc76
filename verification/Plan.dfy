/** Which requested channels run and which reuse evidence, and the lanes they run in. */
module Plan {
  import opened Sequences
  import opened Grouping
  import opened StatusContract
  import opened Scanners

  // ----- the plan

  predicate Reusable(cached: map<Channel, string>, runAgain: bool, c: Channel) {
    !runAgain && c in cached && IsComplete(cached[c])
  }

  function Spare(cached: map<Channel, string>, runAgain: bool): Channel -> bool {
    c => Reusable(cached, runAgain, c)
  }

  ghost predicate WholeGroupReusable(requested: seq<Channel>, cached: map<Channel, string>, runAgain: bool, c: Channel) {
    forall d :: d in requested && Producer(d) == Producer(c) ==> Reusable(cached, runAgain, d)
  }

  /** Still to be reused after the groups `jobs` have been looked at. */
  ghost predicate Spared(requested: seq<Channel>, cached: map<Channel, string>, runAgain: bool, jobs: seq<Job>, c: Channel) {
    Reusable(cached, runAgain, c) && (Producer(c) in jobs ==> WholeGroupReusable(requested, cached, runAgain, c))
  }

  function In(s: seq<Channel>): Channel -> bool {
    c => c in s
  }

  function NotIn(s: seq<Channel>): Channel -> bool {
    c => c !in s
  }

  function Outside(job: Job): Channel -> bool {
    c => !InJob(job, c)
  }

  ghost predicate Splits(requested: seq<Channel>, reused: seq<Channel>, execution: seq<Channel>) {
    && reused == Filter(In(reused), requested)
    && execution == Filter(NotIn(reused), requested)
  }

  ghost predicate SparedAre(requested: seq<Channel>, cached: map<Channel, string>, runAgain: bool, jobs: seq<Job>, reused: seq<Channel>) {
    forall c :: c in reused <==> c in requested && Spared(requested, cached, runAgain, jobs, c)
  }

  /** Filtering the reused list keeps it a filter of the request. */
  lemma Narrowed(requested: seq<Channel>, reused: seq<Channel>, execution: seq<Channel>, p: Channel -> bool)
    requires Splits(requested, reused, execution)
    ensures var narrowed := Filter(p, reused);
            (forall c :: c in narrowed <==> c in reused && p(c))
            && Splits(requested, narrowed, Filter(NotIn(narrowed), requested))
  {
    var narrowed := Filter(p, reused);
    FilterMembers(p, reused);
    FilterTwice(In(reused), p, requested);
    FilterSame(And(In(reused), p), In(narrowed), requested);
  }

  predicate InJob(job: Job, c: Channel) {
    c in Channels(job)
  }

  lemma SplitMembers(requested: seq<Channel>, reused: seq<Channel>, execution: seq<Channel>)
    requires Splits(requested, reused, execution)
    ensures forall c :: c in execution <==> c in requested && c !in reused
    ensures forall c :: c in reused ==> c in requested
  {
    FilterMembers(In(reused), requested);
    FilterMembers(NotIn(reused), requested);
  }

  /** A channel of the job is still spared exactly when it is reusable. */
  lemma JobChannel(requested: seq<Channel>, cached: map<Channel, string>, runAgain: bool, jobs: seq<Job>, job: Job, reused: seq<Channel>, d: Channel)
    requires job !in jobs && SparedAre(requested, cached, runAgain, jobs, reused) && Producer(d) == job
    ensures d in reused <==> d in requested && Reusable(cached, runAgain, d)
  {
  }

  lemma OtherChannel(requested: seq<Channel>, cached: map<Channel, string>, runAgain: bool, jobs: seq<Job>, job: Job, c: Channel)
    requires Producer(c) != job
    ensures Spared(requested, cached, runAgain, jobs + [job], c) == Spared(requested, cached, runAgain, jobs, c)
  {
  }

  ghost predicate Broken(requested: seq<Channel>, reused: seq<Channel>, job: Job) {
    exists d :: d in requested && d !in reused && Producer(d) == job
  }

  lemma ChannelDropped(requested: seq<Channel>, cached: map<Channel, string>, runAgain: bool, jobs: seq<Job>, job: Job, reused: seq<Channel>,
                       c: Channel)
    requires job !in jobs && SparedAre(requested, cached, runAgain, jobs, reused)
    ensures c in reused && (Producer(c) == job ==> !Broken(requested, reused, job))
            <==> c in requested && Spared(requested, cached, runAgain, jobs + [job], c)
  {
    if Producer(c) == job {
      JobChannel(requested, cached, runAgain, jobs, job, reused, c);
      forall d | d in requested && Producer(d) == job ensures Reusable(cached, runAgain, d) <==> d in reused {
        JobChannel(requested, cached, runAgain, jobs, job, reused, d);
      }
      assert Producer(c) in jobs + [job];
    } else {
      OtherChannel(requested, cached, runAgain, jobs, job, c);
    }
  }

  lemma GroupDropped(requested: seq<Channel>, cached: map<Channel, string>, runAgain: bool, jobs: seq<Job>, job: Job,
                     reused: seq<Channel>, execution: seq<Channel>, broken: bool, left: seq<Channel>)
    requires job !in jobs && Splits(requested, reused, execution) && SparedAre(requested, cached, runAgain, jobs, reused)
    requires broken <==> exists c :: c in execution && InJob(job, c)
    requires forall c :: c in left <==> c in reused && (broken ==> !InJob(job, c))
    ensures SparedAre(requested, cached, runAgain, jobs + [job], left)
  {
    SplitMembers(requested, reused, execution);
    forall d ensures InJob(job, d) <==> Producer(d) == job { OneProducer(job, d); }
    assert broken <==> Broken(requested, reused, job);
    forall c ensures c in left <==> c in requested && Spared(requested, cached, runAgain, jobs + [job], c) {
      ChannelDropped(requested, cached, runAgain, jobs, job, reused, c);
    }
  }

  /** `channel_execution_plan`. */
  method ChannelExecutionPlan(requested: seq<Channel>, cached: map<Channel, string>, runAgain: bool)
      returns (execution: seq<Channel>, reused: seq<Channel>)
    ensures Splits(requested, reused, execution)
    ensures SparedAre(requested, cached, runAgain, JOBS, reused)
  {
    reused := Filter(Spare(cached, runAgain), requested);
    execution := Filter(NotIn(reused), requested);
    FilterMembers(Spare(cached, runAgain), requested);
    FilterSame(Spare(cached, runAgain), In(reused), requested);
    for i := 0 to |JOBS|
      invariant Splits(requested, reused, execution)
      invariant SparedAre(requested, cached, runAgain, JOBS[..i], reused)
    {
      var job := JOBS[i];
      var broken := exists k :: 0 <= k < |execution| && InJob(job, execution[k]);
      ghost var before, ran := reused, execution;
      if broken {
        Narrowed(requested, reused, execution, Outside(job));
        reused := Filter(Outside(job), reused);
        execution := Filter(NotIn(reused), requested);
      }
      JobFresh(i);
      GroupDropped(requested, cached, runAgain, JOBS[..i], job, before, ran, broken, reused);
      TakeNext(JOBS, i);
    }
    TakeAll(JOBS);
  }

  /** A set of channels that splits no shared producer of the request. */
  ghost predicate Unsplit(requested: seq<Channel>, reused: set<Channel>) {
    forall c, d :: c in reused && d in requested && Producer(c) == Producer(d) ==> d in reused
  }

  /** The two parts are disjoint and together hold every requested channel as often as the request does, in its order;
      the reused part is the largest set of reusable channels that splits no shared producer. */
  lemma PlanIsLargest(requested: seq<Channel>, cached: map<Channel, string>, runAgain: bool, reused: seq<Channel>, execution: seq<Channel>)
    requires Splits(requested, reused, execution) && SparedAre(requested, cached, runAgain, JOBS, reused)
    ensures multiset(reused) + multiset(execution) == multiset(requested)
    ensures forall c :: c in reused ==> c !in execution && Reusable(cached, runAgain, c)
    ensures Unsplit(requested, set c | c in reused)
    ensures forall other: set<Channel> ::
              (forall c :: c in other ==> c in requested && Reusable(cached, runAgain, c)) && Unsplit(requested, other)
              ==> forall c :: c in other ==> c in reused
  {
    SplitMembers(requested, reused, execution);
    FilterSplit(In(reused), NotIn(reused), requested);
    forall c, d | c in reused && d in requested && Producer(c) == Producer(d) ensures d in reused {
      SparedWhole(requested, cached, runAgain, c, d);
    }
    forall other: set<Channel>, c |
      (forall d :: d in other ==> d in requested && Reusable(cached, runAgain, d)) && Unsplit(requested, other) && c in other
      ensures c in reused
    {
      assert WholeGroupReusable(requested, cached, runAgain, c);
    }
  }

  lemma SpareInside(requested: seq<Channel>, cached: map<Channel, string>, runAgain: bool, c: Channel, d: Channel)
    requires WholeGroupReusable(requested, cached, runAgain, c) && d in requested && Producer(c) == Producer(d)
    ensures Reusable(cached, runAgain, d) && WholeGroupReusable(requested, cached, runAgain, d)
  {
  }

  lemma SparedWhole(requested: seq<Channel>, cached: map<Channel, string>, runAgain: bool, c: Channel, d: Channel)
    requires c in requested && Spared(requested, cached, runAgain, JOBS, c) && d in requested && Producer(c) == Producer(d)
    ensures Spared(requested, cached, runAgain, JOBS, d)
  {
    ProducerListed(c);
    if Producer(c) in JOBS {
      SpareInside(requested, cached, runAgain, c, d);
    } else {
      ExtensionsAlone(c, d);
    }
  }

  /** A job outside the table is an extension, which has one channel. */
  lemma ExtensionsAlone(c: Channel, d: Channel)
    requires Producer(c) == Producer(d) && !IsBuiltin(c)
    ensures c == d
  {
    OneProducer(Producer(c), d);
  }

  /** The request names this channel, but not every channel of its producer. */
  ghost predicate TornFrom(requested: seq<Channel>, c: Channel) {
    c in requested && exists d :: Producer(d) == Producer(c) && d !in requested
  }

  /** Wherever the request splits a producer, everything it names of that producer can be reused. */
  ghost predicate TearsReused(requested: seq<Channel>, cached: map<Channel, string>, runAgain: bool) {
    forall c :: TornFrom(requested, c) ==> WholeGroupReusable(requested, cached, runAgain, c)
  }

  lemma ReusedExactly(requested: seq<Channel>, cached: map<Channel, string>, runAgain: bool, reused: seq<Channel>, c: Channel)
    requires SparedAre(requested, cached, runAgain, JOBS, reused) && c in requested
    ensures c in reused <==> WholeGroupReusable(requested, cached, runAgain, c)
  {
    if c in reused {
      forall d | d in requested && Producer(d) == Producer(c) ensures Reusable(cached, runAgain, d) {
        SparedWhole(requested, cached, runAgain, c, d);
      }
    }
  }

  /** What is left to run splits no shared producer exactly when the request splits only producers whose
      requested channels can all be reused; so a request that splits none never yields a plan that does. */
  lemma ExecutionClosedExact(requested: seq<Channel>, cached: map<Channel, string>, runAgain: bool, reused: seq<Channel>, execution: seq<Channel>)
    requires Splits(requested, reused, execution) && SparedAre(requested, cached, runAgain, JOBS, reused)
    ensures Closed(set c | c in execution) <==> TearsReused(requested, cached, runAgain)
    ensures Closed(set c | c in requested) ==> Closed(set c | c in execution)
  {
    SplitMembers(requested, reused, execution);
    var runs, asked := set c | c in execution, set c | c in requested;
    assert forall c :: c in runs <==> c in execution;
    assert forall c :: c in asked <==> c in requested;
    if Closed(runs) {
      forall c | TornFrom(requested, c) ensures WholeGroupReusable(requested, cached, runAgain, c) {
        ReusedExactly(requested, cached, runAgain, reused, c);
        var d :| Producer(d) == Producer(c) && d !in requested;
        assert c in runs ==> d in runs;
      }
    }
    if TearsReused(requested, cached, runAgain) {
      forall c, d | c in runs && Producer(c) == Producer(d) ensures d in runs {
        ReusedExactly(requested, cached, runAgain, reused, c);
        assert !TornFrom(requested, c);
        ReusedExactly(requested, cached, runAgain, reused, d);
        SameGroup(requested, cached, runAgain, c, d);
      }
    }
    if Closed(asked) {
      forall c ensures !TornFrom(requested, c) {
        assert c in requested <==> c in asked;
      }
    }
  }

  lemma SameGroup(requested: seq<Channel>, cached: map<Channel, string>, runAgain: bool, c: Channel, d: Channel)
    requires Producer(c) == Producer(d)
    ensures WholeGroupReusable(requested, cached, runAgain, c) <==> WholeGroupReusable(requested, cached, runAgain, d)
  {
  }

  // ----- lanes

  function Lane(channels: seq<Channel>, job: Job): seq<Channel> {
    Bucket(Producer, channels, job)
  }

  function Lanes(channels: seq<Channel>): seq<seq<Channel>> {
    Buckets(Producer, channels)
  }

  /** The lanes of the first `i` channels are there, and all that they hold has been seen. */
  ghost predicate LanesUpTo(channels: seq<Channel>, i: nat, seen: set<Channel>, lanes: seq<seq<Channel>>)
    requires i <= |channels|
  {
    && lanes == Map(BucketOf(Producer, channels), Keys(Producer, channels[..i]))
    && forall c :: c in seen <==> c in channels && Producer(c) in Keys(Producer, channels[..i])
  }

  lemma KeysStep(channels: seq<Channel>, i: nat)
    requires i < |channels|
    ensures var keys, key := Keys(Producer, channels[..i]), Producer(channels[i]);
            Keys(Producer, channels[..i + 1]) == if key in keys then keys else keys + [key]
  {
    TakeNext(channels, i);
    assert Map(Producer, channels[..i + 1]) == Map(Producer, channels[..i]) + [Producer(channels[i])];
    DedupeAppend(Map(Producer, channels[..i]), Producer(channels[i]));
  }

  lemma LanesSeen(channels: seq<Channel>, i: nat, seen: set<Channel>, lanes: seq<seq<Channel>>)
    requires i < |channels| && LanesUpTo(channels, i, seen, lanes) && channels[i] in seen
    ensures LanesUpTo(channels, i + 1, seen, lanes)
  {
    KeysStep(channels, i);
  }

  lemma LanesNew(channels: seq<Channel>, i: nat, seen: set<Channel>, lanes: seq<seq<Channel>>)
    requires i < |channels| && LanesUpTo(channels, i, seen, lanes) && channels[i] !in seen
    ensures var lane := Lane(channels, Producer(channels[i])); LanesUpTo(channels, i + 1, seen + (set d | d in lane), lanes + [lane])
  {
    var keys, key := Keys(Producer, channels[..i]), Producer(channels[i]);
    var f := BucketOf(Producer, channels);
    KeysStep(channels, i);
    MapSnoc(f, keys, key);
    BucketMembers(Producer, channels, key);
  }

  lemma MapSnoc<S, T>(f: S -> T, keys: seq<S>, key: S)
    ensures Map(f, keys + [key]) == Map(f, keys) + [f(key)]
  {
  }

  /** The members of the lane that starts at `c`: its group's channels, or the channel itself. */
  predicate Together(c: Channel, d: Channel) {
    exists k :: 0 <= k < |JOBS| && c in Channels(JOBS[k]) && d in Channels(JOBS[k])
  }

  predicate InLane(c: Channel, d: Channel) {
    Together(c, d) || c == d
  }

  lemma TogetherExact(c: Channel, d: Channel)
    ensures Together(c, d) <==> IsBuiltin(c) && Producer(d) == Producer(c)
  {
    ProducerListed(c);
    OneProducer(Producer(c), d);
    if Together(c, d) {
      var k :| 0 <= k < |JOBS| && c in Channels(JOBS[k]) && d in Channels(JOBS[k]);
      var job := JOBS[k];
      assert job in JOBS;
      OneProducer(job, c);
      OneProducer(job, d);
    } else if IsBuiltin(c) {
      var k :| 0 <= k < |JOBS| && JOBS[k] == Producer(c);
    }
  }

  lemma InLaneExact(c: Channel, d: Channel)
    ensures InLane(c, d) <==> Producer(d) == Producer(c)
  {
    TogetherExact(c, d);
  }

  function JoinsLane(c: Channel): Channel -> bool {
    d => InLane(c, d)
  }

  lemma LaneAt(channels: seq<Channel>, c: Channel)
    ensures Filter(JoinsLane(c), channels) == Lane(channels, Producer(c))
  {
    forall d ensures InLane(c, d) == HasKey(Producer, Producer(c))(d) { InLaneExact(c, d); }
    FilterSame(JoinsLane(c), HasKey(Producer, Producer(c)), channels);
  }

  /** `channel_lanes`. */
  method ChannelLanes(channels: seq<Channel>) returns (lanes: seq<seq<Channel>>)
    ensures lanes == Lanes(channels)
  {
    lanes := [];
    var seen: set<Channel> := {};
    for i := 0 to |channels|
      invariant LanesUpTo(channels, i, seen, lanes)
    {
      var c := channels[i];
      LaneAt(channels, c);
      if c in seen {
        LanesSeen(channels, i, seen, lanes);
      } else {
        LanesNew(channels, i, seen, lanes);
        var lane := Filter(JoinsLane(c), channels);
        lanes := lanes + [lane];
        seen := seen + set d | d in lane;
      }
    }
    TakeAll(channels);
  }

  /** `concurrent_execution_channels`. */
  function Concurrent(channels: seq<Channel>): seq<Channel> {
    Flatten(Lanes(channels))
  }

  /** Scheduling repeats and loses no channel, not even a repeated one. */
  lemma ConcurrentPermutes(channels: seq<Channel>)
    ensures multiset(Concurrent(channels)) == multiset(channels)
  {
    RegroupPermutes(Producer, channels);
  }

  /** A schedule is already scheduled: its lanes are the same, each in one piece. */
  lemma ConcurrentIdempotent(channels: seq<Channel>)
    ensures Lanes(Concurrent(channels)) == Lanes(channels)
    ensures Concurrent(Concurrent(channels)) == Concurrent(channels)
  {
    RegroupIdempotent(Producer, channels);
  }
}
