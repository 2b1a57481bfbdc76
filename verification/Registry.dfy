/** The client's registry cache: one session's value, one pending request per generation,
    under any interleaving of calls and completions. */
module Registry {
  import opened Sequences
  import opened Text

  // ----- the cached value

  datatype Project = Project(id: string, lifecycle: string, active: Option<string>)

  datatype Summary = Summary(preparing: nat, analyzing: nat, attention: nat)

  datatype Catalog = Catalog(projects: seq<Project>, summary: Option<Summary>)

  function MarkOne(p: Project, id: string, request: string): Project {
    if p.id == id then p.(lifecycle := "Preparing", active := Some(request)) else p
  }

  function Mark(projects: seq<Project>, id: string, request: string): (r: seq<Project>)
    ensures |r| == |projects| && forall i :: 0 <= i < |r| ==> r[i] == MarkOne(projects[i], id, request)
  {
    seq(|projects|, i requires 0 <= i < |projects| => MarkOne(projects[i], id, request))
  }

  function FindProject(projects: seq<Project>, id: string): Option<Project> {
    if projects == [] then None
    else if projects[0].id == id then Some(projects[0])
    else FindProject(projects[1..], id)
  }

  function Less(n: nat, m: nat): nat {
    if n >= m then n - m else 0
  }

  function One(condition: bool): nat {
    if condition then 1 else 0
  }

  /** The registry after a request for the project was accepted. */
  function Prepare(c: Catalog, id: string, request: string): Catalog {
    match FindProject(c.projects, id)
    case None => c
    case Some(previous) =>
      Catalog(Mark(c.projects, id, request),
              match c.summary
              case None => None
              case Some(s) => Some(Summary(s.preparing + One(previous.lifecycle != "Preparing"),
                                           Less(s.analyzing, One(previous.lifecycle == "Analyzing")),
                                           Less(s.attention, One(previous.lifecycle == "Needs attention")))))
  }

  function Count(projects: seq<Project>, lifecycle: string): nat {
    if projects == [] then 0 else One(projects[0].lifecycle == lifecycle) + Count(projects[1..], lifecycle)
  }

  /** The summary counts the projects. */
  ghost predicate Counted(c: Catalog) {
    c.summary.Some? ==>
      && c.summary.value.preparing == Count(c.projects, "Preparing")
      && c.summary.value.analyzing == Count(c.projects, "Analyzing")
      && c.summary.value.attention == Count(c.projects, "Needs attention")
  }

  ghost predicate DistinctIds(projects: seq<Project>) {
    forall i, j :: 0 <= i < j < |projects| ==> projects[i].id != projects[j].id
  }

  lemma {:induction false} MarkAbsent(projects: seq<Project>, id: string, request: string)
    requires FindProject(projects, id).None?
    ensures Mark(projects, id, request) == projects
  {
    if projects != [] {
      MarkAbsent(projects[1..], id, request);
      assert Mark(projects, id, request) == [projects[0]] + Mark(projects[1..], id, request);
    }
  }

  lemma {:induction false} AbsentBehind(projects: seq<Project>, id: string)
    requires forall i :: 0 <= i < |projects| ==> projects[i].id != id
    ensures FindProject(projects, id).None?
  {
    if projects != [] {
      AbsentBehind(projects[1..], id);
    }
  }

  lemma {:induction false} MarkCounts(projects: seq<Project>, id: string, request: string, lifecycle: string)
    requires DistinctIds(projects) && FindProject(projects, id).Some?
    ensures Count(Mark(projects, id, request), lifecycle) + One(FindProject(projects, id).value.lifecycle == lifecycle)
         == Count(projects, lifecycle) + One(lifecycle == "Preparing")
  {
    var marked := Mark(projects, id, request);
    assert marked[1..] == Mark(projects[1..], id, request);
    if projects[0].id == id {
      AbsentBehind(projects[1..], id);
      MarkAbsent(projects[1..], id, request);
    } else {
      MarkCounts(projects[1..], id, request, lifecycle);
    }
  }

  /** Marking a project keeps the summary exact: its three counters move with the project. */
  lemma PrepareCounts(c: Catalog, id: string, request: string)
    requires DistinctIds(c.projects) && Counted(c)
    ensures Counted(Prepare(c, id, request)) && DistinctIds(Prepare(c, id, request).projects)
  {
    if FindProject(c.projects, id).Some? {
      MarkCounts(c.projects, id, request, "Preparing");
      MarkCounts(c.projects, id, request, "Analyzing");
      MarkCounts(c.projects, id, request, "Needs attention");
    }
  }

  /** Marking twice with the same request changes nothing more. */
  lemma PrepareIdempotent(c: Catalog, id: string, request: string)
    requires DistinctIds(c.projects)
    ensures Prepare(Prepare(c, id, request), id, request) == Prepare(c, id, request)
  {
    var next := Prepare(c, id, request);
    if FindProject(c.projects, id).Some? {
      MarkFound(c.projects, id, request);
      assert Mark(next.projects, id, request) == next.projects;
    }
  }

  lemma {:induction false} MarkFound(projects: seq<Project>, id: string, request: string)
    requires FindProject(projects, id).Some?
    ensures FindProject(projects, id).value.id == id
    ensures FindProject(Mark(projects, id, request), id) == Some(MarkOne(FindProject(projects, id).value, id, request))
  {
    assert Mark(projects, id, request)[1..] == Mark(projects[1..], id, request);
    if projects[0].id != id {
      MarkFound(projects[1..], id, request);
    }
  }

  // ----- the cache

  datatype Session = Session(token: string, registry: Option<Catalog>)

  /** A started request: the generation and the token it was started in. */
  datatype Started = Started(generation: nat, token: string)

  datatype Answer = Rejected | Cached(value: Catalog) | Pending(request: nat)

  const REGISTRY_CACHE_MS := 60_000

  class Cache {
    var token: string
    var value: Option<Catalog>
    var storedAt: nat
    var request: Option<nat>
    var generation: nat

    /** Every request ever started, those not yet finished, and the token the cached value belongs to. */
    ghost var started: map<nat, Started>
    ghost var unfinished: set<nat>
    ghost var owner: string

    ghost predicate Valid()
      reads this
    {
      && (value.Some? ==> owner == token)
      && unfinished <= started.Keys
      && (forall r :: r in started ==> started[r].generation <= generation)
      && (forall r :: r in started && started[r].generation == generation ==> started[r].token == token)
      && (forall r, q :: r in unfinished && q in unfinished && started[r].generation == started[q].generation ==> r == q)
      && (forall r :: r in unfinished && started[r].generation == generation ==> request == Some(r))
      && (request.Some? ==> request.value in unfinished && started[request.value].generation == generation)
    }

    constructor ()
      ensures Valid() && value.None? && request.None?
    {
      token, value, storedAt, request, generation := "", None, 0, None, 0;
      started, unfinished, owner := map[], {}, "";
    }

    method SelectSession(session: Option<Session>, now: nat)
      requires Valid()
      modifies this
      ensures Valid() && started == old(started) && unfinished == old(unfinished)
      ensures token == if session.Some? then session.value.token else ""
      ensures if token == old(token) then generation == old(generation) && value == old(value) && storedAt == old(storedAt) && request == old(request)
              else generation == old(generation) + 1 && request.None? && value == (if session.Some? then session.value.registry else None)
                   && storedAt == if value.Some? then now else 0
    {
      var next := if session.Some? then session.value.token else "";
      if next != token {
        token := next;
        value := if session.Some? then session.value.registry else None;
        storedAt := if value.Some? then now else 0;
        request, generation, owner := None, generation + 1, next;
      }
    }

    method CachedProjectRegistry(session: Option<Session>, now: nat) returns (r: Option<Catalog>)
      requires Valid()
      modifies this
      ensures Valid() && r == value
      ensures r.Some? ==> owner == if session.Some? then session.value.token else ""
    {
      SelectSession(session, now);
      r := value;
    }

    /** Start a request when none is pending. */
    method StartRequest(promise: nat)
      requires Valid() && promise !in started && request.None?
      modifies this`started, this`unfinished, this`request
      ensures Valid() && started == old(started)[promise := Started(generation, token)]
      ensures unfinished == old(unfinished) + {promise} && request == Some(promise)
    {
      started := started[promise := Started(generation, token)];
      unfinished := unfinished + {promise};
      request := Some(promise);
    }

    /** `promise` names the promise that a new request would get. */
    method GetProjectRegistry(session: Option<Session>, force: bool, now: nat, promise: nat) returns (r: Answer)
      requires Valid() && promise !in started
      modifies this
      ensures Valid()
      ensures r.Rejected? <==> session.None?
      ensures r.Cached? ==> !force && Some(r.value) == value && owner == session.value.token
      ensures r.Pending? ==> request == Some(r.request) && started[r.request] == Started(generation, session.value.token)
      ensures r.Pending? && r.request != promise ==> started == old(started) && request == old(request) && generation == old(generation)
      ensures r.Pending? && r.request == promise ==>
                started == old(started)[promise := Started(generation, token)] && unfinished == old(unfinished) + {promise}
      ensures token == if session.Some? then session.value.token else ""
      ensures if token == old(token) then generation == old(generation) && value == old(value) && storedAt == old(storedAt)
              else generation == old(generation) + 1 && value == (if session.Some? then session.value.registry else None)
      ensures session.Some? ==> (r.Cached? <==> !force && value.Some? && now - storedAt < REGISTRY_CACHE_MS)
      ensures r.Pending? && token == old(token) && old(request).Some? ==> Some(r.request) == old(request)
      ensures r.Pending? && r.request == promise ==> token != old(token) || old(request).None?
      ensures !r.Pending? ==> started == old(started) && unfinished == old(unfinished)
      ensures !r.Pending? && token == old(token) ==> request == old(request)
    {
      SelectSession(session, now);
      if session.None? { return Rejected; }
      if !force && value.Some? && now - storedAt < REGISTRY_CACHE_MS { return Cached(value.value); }
      if request.None? {
        StartRequest(promise);
      }
      r := Pending(request.value);
    }

    /** The response of a request arrives; `startedIn` is the generation its callbacks remember. */
    method Respond(r: nat, startedIn: nat, result: Catalog, now: nat)
      requires Valid() && r in unfinished && startedIn == started[r].generation
      modifies this`value, this`storedAt, this`owner
      ensures Valid()
      ensures value == if started[r].generation == generation then Some(result) else old(value)
      ensures storedAt == if started[r].generation == generation then now else old(storedAt)
      ensures value != old(value) ==> owner == started[r].token == token
    {
      if startedIn == generation {
        value, storedAt, owner := Some(result), now, started[r].token;
      }
    }

    /** The request settles, with a response or without. */
    method Finish(r: nat, startedIn: nat)
      requires Valid() && r in unfinished && startedIn == started[r].generation
      modifies this`request, this`unfinished
      ensures Valid() && unfinished == old(unfinished) - {r}
      ensures request == if old(request) == Some(r) then None else old(request)
    {
      if startedIn == generation {
        request := None;
      }
      unfinished := unfinished - {r};
    }

    method RefreshProjectRegistry()
      requires Valid()
      modifies this
      ensures Valid() && value.None? && request.None? && generation == old(generation) + 1 && token == old(token)
      ensures started == old(started) && unfinished == old(unfinished)
    {
      value, storedAt, request, generation := None, 0, None, generation + 1;
    }

    method MarkProjectPreparing(id: string, requestId: string, now: nat)
      requires Valid()
      modifies this`value, this`storedAt
      ensures Valid()
      ensures value == if old(value).Some? then Some(Prepare(old(value).value, id, requestId)) else None
      ensures old(value).Some? && DistinctIds(old(value).value.projects) && Counted(old(value).value) ==> Counted(value.value)
    {
      if value.Some? && FindProject(value.value.projects, id).Some? {
        ghost var before := value.value;
        value, storedAt := Some(Prepare(value.value, id, requestId)), now;
        if DistinctIds(before.projects) && Counted(before) {
          PrepareCounts(before, id, requestId);
        }
      }
    }
  }
}
