/** The checking jobs (server.js:987-1115, 1476-1500): the progress record
    of a job, the loop that probes its domains one after the other, the
    `/stop` request, and the hourly sweep that forgets jobs older than a
    day. The probe of one domain and the arrival of `/stop` during a probe
    are parameters of the loop. */
module Jobs {
  import opened Wrappers
  import Scorer
  import HttpProbe

  datatype Status = Running | Stopped | Completed | Error

  /** One entry of `successfulDomainsWithEvidence`. */
  datatype DomainEvidence = DomainEvidence(domain: string, evidence: seq<string>)

  /** What one iteration of the loop gets from awaiting
      `checkDomainWithHTTP(domain)`: its result, an error caught by the
      inner `catch`, or an error raised outside the inner `try` that
      leaves the loop for the outer `catch`. */
  datatype Attempt =
    | Returned(verdict: Scorer.Verdict)
    | Threw(message: string)
    | Escaped(message: string)

  /** A job's progress record, as `/progress` reports it. */
  class Progress {
    var status: Status
    const total: nat
    var checked: nat
    var successCount: nat
    var successfulDomains: seq<string>
    var successfulDomainsWithEvidence: seq<DomainEvidence>
    var currentDomain: Option<string>
    var error: Option<string>
    const startTime: int

    /** The record `/check` stores before it starts the loop. */
    constructor (total: nat, startTime: int)
      ensures this.total == total && this.startTime == startTime
      ensures status == Running && checked == 0 && successCount == 0
      ensures successfulDomains == [] && successfulDomainsWithEvidence == []
      ensures currentDomain == None && error == None
    {
      this.total := total;
      this.startTime := startTime;
      status := Running;
      checked := 0;
      successCount := 0;
      successfulDomains := [];
      successfulDomainsWithEvidence := [];
      currentDomain := None;
      error := None;
    }

    /** `/stop`: the status becomes `stopped` whatever it was, also on a
        job that has already completed; nothing else changes. */
    method Stop()
      modifies this
      ensures status == Stopped
      ensures checked == old(checked) && successCount == old(successCount)
      ensures successfulDomains == old(successfulDomains)
      ensures successfulDomainsWithEvidence == old(successfulDomainsWithEvidence)
      ensures currentDomain == old(currentDomain) && error == old(error)
    {
      status := Stopped;
    }
  }

  /** The entry one domain adds to the success lists: one when its probe
      returned a positive verdict, none otherwise. */
  function HitOf(attempt: string -> Attempt, domain: string): (r: seq<DomainEvidence>)
    ensures |r| <= 1
    ensures |r| == 1 <==> attempt(domain).Returned? && attempt(domain).verdict.isUmbraco
    ensures |r| == 1 ==> r[0] == DomainEvidence(domain, attempt(domain).verdict.evidence)
  {
    match attempt(domain)
    case Returned(v) => if v.isUmbraco then [DomainEvidence(domain, v.evidence)] else []
    case _ => []
  }

  /** The success entries of the probed domains ds, in the order of ds. */
  function Hits(attempt: string -> Attempt, ds: seq<string>): seq<DomainEvidence>
    decreases |ds|
  {
    if ds == [] then [] else Hits(attempt, ds[..|ds| - 1]) + HitOf(attempt, ds[|ds| - 1])
  }

  /** The `domain` fields of a list of success entries. */
  function DomainsOf(es: seq<DomainEvidence>): (r: seq<string>)
    ensures |r| == |es|
    ensures forall j :: 0 <= j < |es| ==> r[j] == es[j].domain
  {
    seq(|es|, j requires 0 <= j < |es| => es[j].domain)
  }

  /** The number of iterations that start once iteration i has started: the
      loop ends after the first iteration, from i on, in which `/stop`
      arrives or an error escapes, or after the last domain. */
  function Started(domains: seq<string>, attempt: string -> Attempt, stops: seq<bool>, i: nat): (k: nat)
    requires i <= |domains| == |stops|
    ensures i <= k <= |domains|
    ensures forall j :: i <= j < k - 1 ==> !stops[j] && !attempt(domains[j]).Escaped?
    ensures k < |domains| ==> i < k && (stops[k - 1] || attempt(domains[k - 1]).Escaped?)
    ensures i < |domains| ==> i < k
    decreases |domains| - i
  {
    if i == |domains| then i
    else if stops[i] || attempt(domains[i]).Escaped? then i + 1
    else Started(domains, attempt, stops, i + 1)
  }

  /** The number of iterations of `checkDomainsWithHTTP`: none on a job
      that is already stopped. */
  function Runs(domains: seq<string>, attempt: string -> Attempt, stops: seq<bool>, start: Status): nat
    requires |domains| == |stops|
  {
    if start == Stopped then 0 else Started(domains, attempt, stops, 0)
  }

  /** Whether the run ends in the outer `catch`. */
  predicate Crashed(domains: seq<string>, attempt: string -> Attempt, stops: seq<bool>, start: Status)
    requires |domains| == |stops|
  {
    var k := Runs(domains, attempt, stops, start);
    k > 0 && attempt(domains[k - 1]).Escaped?
  }

  /** The status a run leaves: `error` after an escaped error, `stopped`
      when the job was stopped before or during its last iteration,
      `completed` otherwise. */
  function FinalStatus(domains: seq<string>, attempt: string -> Attempt, stops: seq<bool>, start: Status): Status
    requires |domains| == |stops|
  {
    var k := Runs(domains, attempt, stops, start);
    if Crashed(domains, attempt, stops, start) then Error
    else if start == Stopped || (k > 0 && stops[k - 1]) then Stopped
    else Completed
  }

  lemma SliceStep(domains: seq<string>, i: nat)
    requires i < |domains|
    ensures domains[..i + 1] == domains[..i] + [domains[i]]
  {
  }

  /** The success list grows by the entry of the domain probed last. */
  lemma HitsStep(attempt: string -> Attempt, domains: seq<string>, i: nat)
    requires i < |domains|
    ensures Hits(attempt, domains[..i + 1]) == Hits(attempt, domains[..i]) + HitOf(attempt, domains[i])
  {
    assert domains[..i + 1][..i] == domains[..i];
  }

  /** The success lists keep the input order: the hits of a concatenation
      are the hits of its first part followed by those of its second. */
  lemma {:induction false} HitsAppend(attempt: string -> Attempt, a: seq<string>, b: seq<string>)
    ensures Hits(attempt, a + b) == Hits(attempt, a) + Hits(attempt, b)
    decreases |b|
  {
    if b != [] {
      var b' := b[..|b| - 1];
      assert (a + b)[..|a + b| - 1] == a + b';
      HitsAppend(attempt, a, b');
    } else {
      assert a + b == a;
    }
  }

  /** Exactly the probed domains with a positive verdict are listed, each
      with the evidence of its verdict, and nothing else is. */
  lemma {:induction false} HitsMembers(attempt: string -> Attempt, ds: seq<string>)
    ensures |Hits(attempt, ds)| <= |ds|
    ensures forall e :: e in Hits(attempt, ds) <==>
              e.domain in ds && attempt(e.domain).Returned? && attempt(e.domain).verdict.isUmbraco
              && e.evidence == attempt(e.domain).verdict.evidence
    decreases |ds|
  {
    if ds != [] {
      var init := ds[..|ds| - 1];
      HitsMembers(attempt, init);
      assert ds == init + [ds[|ds| - 1]];
    }
  }

  /** A probe that throws adds nothing to the success lists. */
  lemma ThrownProbeAddsNothing(attempt: string -> Attempt, ds: seq<string>, d: string)
    requires attempt(d).Threw?
    ensures Hits(attempt, ds + [d]) == Hits(attempt, ds)
  {
    assert (ds + [d])[..|ds|] == ds;
  }

  /** No domain after the one whose iteration saw `/stop` is probed. */
  lemma NothingAfterStop(domains: seq<string>, attempt: string -> Attempt, stops: seq<bool>, start: Status, j: nat)
    requires |domains| == |stops| && j < |stops| && stops[j]
    ensures Runs(domains, attempt, stops, start) <= j + 1
  {
  }

  /** Without `/stop` and without an escaped error every domain is probed. */
  lemma NoStopProbesAll(domains: seq<string>, attempt: string -> Attempt, stops: seq<bool>)
    requires |domains| == |stops|
    requires forall j :: 0 <= j < |stops| ==> !stops[j] && !attempt(domains[j]).Escaped?
    ensures Runs(domains, attempt, stops, Running) == |domains|
    ensures FinalStatus(domains, attempt, stops, Running) == Completed
  {
  }

  /** `checkDomainsWithHTTP(jobId, domains)` on the job's record p: `stops[i]`
      says whether `/stop` arrived while iteration i was awaiting. Returns
      the domains whose probe was started. */
  method CheckDomainsWithHTTP(p: Progress, domains: seq<string>, attempt: string -> Attempt, stops: seq<bool>)
      returns (ghost asked: seq<string>)
    requires |stops| == |domains|
    modifies p
    ensures var k := Runs(domains, attempt, stops, old(p.status));
            var hits := Hits(attempt, domains[..k]);
            && asked == domains[..k]
            && p.checked == (if k == 0 then old(p.checked) else k)
            && p.successfulDomainsWithEvidence == old(p.successfulDomainsWithEvidence) + hits
            && p.successfulDomains == old(p.successfulDomains) + DomainsOf(hits)
            && p.successCount == old(p.successCount) + |hits|
            && p.status == FinalStatus(domains, attempt, stops, old(p.status))
    ensures if Crashed(domains, attempt, stops, old(p.status)) then
              var k := Runs(domains, attempt, stops, old(p.status));
              p.currentDomain == Some(domains[k - 1]) && p.error == Some(attempt(domains[k - 1]).message)
            else p.currentDomain == None && p.error == old(p.error)
    ensures old(p.successCount == |p.successfulDomains| == |p.successfulDomainsWithEvidence|) ==>
              p.successCount == |p.successfulDomains| == |p.successfulDomainsWithEvidence|
  {
    ghost var start := p.status;
    ghost var k := Runs(domains, attempt, stops, start);
    ghost var lists := p.successfulDomainsWithEvidence;
    ghost var names := p.successfulDomains;
    ghost var count := p.successCount;
    ghost var checked := p.checked;
    ghost var error := p.error;
    ghost var hits: seq<DomainEvidence> := [];
    asked := [];
    var i := 0;
    while i < |domains|
      invariant i <= k
      invariant i < k ==> p.status != Stopped && k == Started(domains, attempt, stops, i)
      invariant i == k && i < |domains| ==> p.status == Stopped
      invariant i > 0 ==> !attempt(domains[i - 1]).Escaped?
      invariant p.status == (if i > 0 && stops[i - 1] then Stopped else start)
      invariant asked == domains[..i] && hits == Hits(attempt, domains[..i])
      invariant p.checked == (if i == 0 then checked else i)
      invariant p.successfulDomainsWithEvidence == lists + hits
      invariant p.successfulDomains == names + DomainsOf(hits)
      invariant p.successCount == count + |hits|
      invariant p.error == error
    {
      if p.status == Stopped {
        break;
      }
      var domain := domains[i];
      asked := asked + [domain];
      SliceStep(domains, i);
      HitsStep(attempt, domains, i);
      if attempt(domain).Escaped? {
        assert k == i + 1;
        p.currentDomain := Some(domain);
        p.checked := i + 1;
        p.status := Error;
        p.error := Some(attempt(domain).message);
        assert hits + HitOf(attempt, domain) == hits;
        return;
      }
      Visit(p, attempt, domain, i, stops[i]);
      ListsGrow(lists, names, hits, HitOf(attempt, domain));
      hits := hits + HitOf(attempt, domain);
      i := i + 1;
    }
    assert i == k;
    p.status := if p.status == Stopped then Stopped else Completed;
    p.currentDomain := None;
  }

  /** One iteration that does not end in the outer `catch`: the domain
      becomes the current one, `checked` counts it, a positive verdict is
      appended to both success lists, and a `/stop` arriving meanwhile sets
      the status. */
  method Visit(p: Progress, attempt: string -> Attempt, domain: string, i: nat, stop: bool)
    requires !attempt(domain).Escaped?
    modifies p
    ensures p.currentDomain == Some(domain) && p.checked == i + 1
    ensures p.successfulDomainsWithEvidence == old(p.successfulDomainsWithEvidence) + HitOf(attempt, domain)
    ensures p.successfulDomains == old(p.successfulDomains) + DomainsOf(HitOf(attempt, domain))
    ensures p.successCount == old(p.successCount) + |HitOf(attempt, domain)|
    ensures p.status == (if stop then Stopped else old(p.status)) && p.error == old(p.error)
  {
    p.currentDomain := Some(domain);
    p.checked := i + 1;
    var result := attempt(domain);
    if result.Returned? && result.verdict.isUmbraco {
      var e := DomainEvidence(domain, result.verdict.evidence);
      p.successfulDomains := p.successfulDomains + [domain];
      p.successfulDomainsWithEvidence := p.successfulDomainsWithEvidence + [e];
      p.successCount := p.successCount + 1;
      assert DomainsOf([e]) == [domain];
    } else {
      assert HitOf(attempt, domain) == [];
    }
    if stop {
      p.Stop();
    }
  }

  /** Appending entries to a success list extends both lists it stands for. */
  lemma ListsGrow(lists: seq<DomainEvidence>, names: seq<string>, hits: seq<DomainEvidence>, h: seq<DomainEvidence>)
    ensures lists + hits + h == lists + (hits + h)
    ensures names + DomainsOf(hits) + DomainsOf(h) == names + DomainsOf(hits + h)
  {
    assert DomainsOf(hits + h) == DomainsOf(hits) + DomainsOf(h);
  }

  /** What the loop gets from `checkDomainWithHTTP` against the network
      `net`: both of its requests sit in a `try`, so it always returns. */
  function Attempts(net: HttpProbe.Request -> HttpProbe.Reply): string -> Attempt {
    (d: string) => Returned(HttpProbe.Probe(net, d).verdict)
  }

  /** `checkDomainWithHTTP` always returns: its `try`/`catch` around both
      requests is modelled by `HttpProbe.Probe` and `HttpProbe.Settle`
      being total, so every attempt built from them is `Returned`. */
  lemma AttemptsReturn(net: HttpProbe.Request -> HttpProbe.Reply)
    ensures forall d :: Attempts(net)(d).Returned?
  {
  }

  /** With a probe that always returns, as `checkDomainWithHTTP` does, the
      job never reaches the outer `catch`: it ends after its last domain or
      in the iteration that saw `/stop`. */
  lemma ReturningJobEnds(domains: seq<string>, attempt: string -> Attempt, stops: seq<bool>)
    requires |domains| == |stops|
    requires forall d :: attempt(d).Returned?
    ensures var k := Runs(domains, attempt, stops, Running);
            && !Crashed(domains, attempt, stops, Running)
            && (k == |domains| || stops[k - 1])
            && FinalStatus(domains, attempt, stops, Running) == (if k > 0 && stops[k - 1] then Stopped else Completed)
  {
  }

  /** The loop runs at most `|domains|` iterations and records at most one
      hit per iteration, and the two success lists it appends to grow by
      the same length. */
  lemma CountersAgree(domains: seq<string>, attempt: string -> Attempt, stops: seq<bool>, start: Status)
    requires |domains| == |stops|
    ensures var k := Runs(domains, attempt, stops, start);
            var hits := Hits(attempt, domains[..k]);
            k <= |domains| && |DomainsOf(hits)| == |hits| <= k
  {
    var k := Runs(domains, attempt, stops, start);
    HitsMembers(attempt, domains[..k]);
  }

  /** Jobs older than this many milliseconds are swept. */
  const MaxAge: int := 24 * 60 * 60 * 1000

  /** The registry `activeChecks` after a sweep at time `now`: the jobs
      started at most a day ago, unchanged. */
  function Unexpired(jobs: map<string, Progress>, now: int): (r: map<string, Progress>)
    ensures forall id :: id in r <==> id in jobs && now - jobs[id].startTime <= MaxAge
    ensures forall id :: id in r ==> r[id] == jobs[id]
  {
    map id | id in jobs && now - jobs[id].startTime <= MaxAge :: jobs[id]
  }

  /** A second sweep at the same time deletes nothing more. */
  lemma SweepIdempotent(jobs: map<string, Progress>, now: int)
    ensures Unexpired(Unexpired(jobs, now), now) == Unexpired(jobs, now)
  {
  }

  /** A later sweep keeps no job an earlier one deleted. */
  lemma SweepMonotone(jobs: map<string, Progress>, now: int, later: int)
    requires now <= later
    ensures Unexpired(jobs, later).Keys <= Unexpired(jobs, now).Keys
  {
  }

  /** The map `activeChecks` of all jobs by id. */
  class Registry {
    var jobs: map<string, Progress>

    constructor ()
      ensures jobs == map[]
    {
      jobs := map[];
    }

    /** `/check` storing a new record under `jobId`, replacing any record
        stored under the same id. */
    method Start(jobId: string, total: nat, now: int) returns (p: Progress)
      modifies this
      ensures fresh(p) && jobs == old(jobs)[jobId := p]
      ensures p.total == total && p.startTime == now && p.status == Running
      ensures p.checked == 0 && p.successCount == 0 && p.successfulDomains == []
      ensures p.successfulDomainsWithEvidence == [] && p.currentDomain == None && p.error == None
    {
      p := new Progress(total, now);
      jobs := jobs[jobId := p];
    }

    /** `/stop/:jobId`: unknown ids are reported, known jobs are stopped. */
    method Stop(jobId: string) returns (found: bool)
      modifies if jobId in jobs then {jobs[jobId]} else {}
      ensures found <==> jobId in jobs
      ensures found ==> jobs[jobId].status == Stopped
                        && jobs[jobId].checked == old(jobs[jobId].checked)
                        && jobs[jobId].successfulDomains == old(jobs[jobId].successfulDomains)
                        && jobs[jobId].currentDomain == old(jobs[jobId].currentDomain)
                        && jobs[jobId].successCount == old(jobs[jobId].successCount)
                        && jobs[jobId].successfulDomainsWithEvidence == old(jobs[jobId].successfulDomainsWithEvidence)
                        && jobs[jobId].error == old(jobs[jobId].error)
    {
      found := jobId in jobs;
      if found {
        jobs[jobId].Stop();
      }
    }

    /** The job half of the hourly cleanup: every entry of the map is
        visited once and deleted when its job started more than a day
        before `now`. */
    method Sweep(now: int)
      modifies this
      ensures jobs == Unexpired(old(jobs), now)
    {
      var pending := jobs.Keys;
      while pending != {}
        invariant pending <= old(jobs).Keys
        invariant jobs == map id | id in old(jobs) && (id in pending || now - old(jobs)[id].startTime <= MaxAge)
                                 :: old(jobs)[id]
        decreases pending
      {
        var id :| id in pending;
        if now - jobs[id].startTime > MaxAge {
          jobs := jobs - {id};
        }
        pending := pending - {id};
      }
    }
  }
}
