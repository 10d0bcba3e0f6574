/**
 The enqueue calls as one caller at a time sees them: promotion of jobs on an empty
 store to full jobs, the busy checks, and the fan-out to every enabled service when
 the whole tenant is empty.
 */
module Admission {
  import opened Runner
  import opened RunnerSafety
  import opened DeltaTokens

  const GRAPH_SERVICES := ["exchange", "onedrive", "teams", "sharepoint"]

  predicate IsGraph(service: string) {
    service in GRAPH_SERVICES
  }

  datatype Schedule = Schedule(tenant: string, service: string, enabled: bool)

  /** What a tenant has on disk and in its catalog, by service. */
  datatype Local = Local(
    snapshots: set<string>, live: set<string>, sync: set<string>, manifests: set<string>, blobs: bool)

  /** `EmptyLocalData`, for a named service. */
  function ServiceEmpty(local: Local, service: string): bool {
    service !in local.snapshots && service !in local.live && service !in local.sync && service !in local.manifests
  }

  function TenantEmpty(local: Local): bool {
    local.snapshots == {} && local.live == {} && local.sync == {} && !local.blobs && local.manifests == {}
  }

  datatype Outcome = Admitted(job: Job) | Busy | Failed

  /** Wanted by an enabled schedule of the tenant, besides the triggering service. */
  predicate Wanted(schedules: seq<Schedule>, tenant: string, except: string, service: string) {
    service != except && IsGraph(service) && Schedule(tenant, service, true) in schedules
  }

  /** The job type after the empty-store checks. */
  function Effective(local: Local, service: string, kind: Kind, promote: bool): Kind {
    if promote && IsGraph(service) && kind != Export && ServiceEmpty(local, service) then Full else kind
  }

  /** The store is looked at, and so the tenant has to exist. */
  predicate Looks(service: string, kind: Kind, promote: bool) {
    promote && IsGraph(service) && kind != Export
  }

  predicate CountsActive(jobs: seq<Job>, tenant: string, service: string) {
    exists j :: 0 <= j < |jobs| && jobs[j].lane.tenant == tenant && (service == "" || jobs[j].lane.service == service)
                && Active(jobs[j].status)
  }

  // ---------- when a call is admitted, in the terms of the tables ----------

  /** Where the store is looked at, the tenant has to exist. */
  predicate TenantKnown(stores: map<string, Local>, tenant: string, service: string, kind: Kind, promote: bool) {
    promote && service in ["exchange", "onedrive", "teams", "sharepoint"] && kind != Export ==> tenant != "" && tenant in stores
  }

  /** Asked for as full, or for a Graph service that has no snapshot, live row, sync folder or manifest. */
  predicate RunsAsFull(stores: map<string, Local>, tenant: string, service: string, kind: Kind, promote: bool) {
    || kind == Full
    || (&& promote && service in ["exchange", "onedrive", "teams", "sharepoint"] && kind == Incremental && tenant in stores
        && service !in stores[tenant].snapshots + stores[tenant].live + stores[tenant].sync + stores[tenant].manifests)
  }

  /** No row of the tenant and service is queued or running; without a service, none of the tenant. */
  predicate NobodyActive(jobs: seq<Job>, tenant: string, service: string) {
    forall j :: 0 <= j < |jobs| && jobs[j].lane.tenant == tenant && (service == "" || jobs[j].lane.service == service) ==>
      jobs[j].status != Queued && jobs[j].status != Running
  }

  predicate NoFullActive(jobs: seq<Job>, tenant: string) {
    forall j :: 0 <= j < |jobs| && jobs[j].lane.tenant == tenant && jobs[j].kind == Full ==>
      jobs[j].status != Queued && jobs[j].status != Running
  }

  /** The service, or for anything but a full job the tenant, is taken. */
  predicate Taken(jobs: seq<Job>, stores: map<string, Local>, tenant: string, service: string, kind: Kind, promote: bool) {
    || !NobodyActive(jobs, tenant, service)
    || (!RunsAsFull(stores, tenant, service, kind, promote) && !NoFullActive(jobs, tenant))
  }

  /** A Graph job of a tenant without anything at all. */
  predicate FansOut(stores: map<string, Local>, tenant: string, service: string, kind: Kind) {
    && service in ["exchange", "onedrive", "teams", "sharepoint"] && kind != Export
    && tenant in stores && stores[tenant] == Local({}, {}, {}, {}, false)
  }

  lemma FansOutIff(stores: map<string, Local>, tenant: string, service: string, kind: Kind)
    ensures FansOut(stores, tenant, service, kind) <==>
            Looks(service, kind, true) && tenant in stores && TenantEmpty(stores[tenant])
  {
  }

  /** Deleting delta links needs both names. */
  predicate Nameable(stores: map<string, Local>, tenant: string, service: string, kind: Kind, promote: bool) {
    RunsAsFull(stores, tenant, service, kind, promote) ==> tenant != "" && service != ""
  }

  lemma ActiveIsCounted(jobs: seq<Job>, tenant: string, service: string)
    ensures CountsActive(jobs, tenant, service) <==> !NobodyActive(jobs, tenant, service)
    ensures AnyFull(jobs, tenant) <==> !NoFullActive(jobs, tenant)
  {
  }

  /** The rows after `from` are new: queued, and full unless it is the first. */
  predicate NewRows(jobs: seq<Job>, from: nat) {
    forall j :: from <= j < |jobs| ==> jobs[j].status == Queued && (j > from ==> jobs[j].kind == Full)
  }

  ghost predicate NewFull(jobs: seq<Job>, from: nat, lane: Lane) {
    exists j :: from <= j < |jobs| && jobs[j] == Job(lane, Full, Queued)
  }

  /** The lane had an active job before, or has a new full one now. */
  ghost predicate Served(before: seq<Job>, after: seq<Job>, lane: Lane) {
    AnyActive(before, lane) || NewFull(after, |before|, lane)
  }

  /** Exactly the delta links of the lanes with a new full job are gone. */
  ghost predicate LinksFollow(before: map<TokenKey, string>, after: map<TokenKey, string>, jobs: seq<Job>, from: nat) {
    && (forall k <- after :: k in before && after[k] == before[k])
    && (forall k <- before :: k in after <==> !NewFull(jobs, from, Lane(k.tenant, k.service)))
  }

  class Queue {
    var jobs: seq<Job>
    var tokens: map<TokenKey, string>
    var schedules: seq<Schedule>
    var stores: map<string, Local>

    constructor (schedules: seq<Schedule>, stores: map<string, Local>)
      ensures jobs == [] && tokens == map[] && this.schedules == schedules && this.stores == stores
    {
      jobs, tokens := [], map[];
      this.schedules, this.stores := schedules, stores;
    }

    method EnabledGraphServices(tenant: string, except: string) returns (out: seq<string>)
      ensures forall svc :: svc in out <==> Wanted(schedules, tenant, except, svc)
    {
      out := [];
      for i := 0 to |schedules|
        invariant forall svc :: svc in out <==> Wanted(schedules[..i], tenant, except, svc)
      {
        var sch := schedules[i];
        assert schedules[..i + 1] == schedules[..i] + [sch];
        if sch.tenant == tenant && sch.enabled && sch.service != except && IsGraph(sch.service) {
          out := out + [sch.service];
        }
      }
      assert schedules[..|schedules|] == schedules;
    }

    /** `CreateJob`: the unique index refuses a second active row. */
    method CreateJob(job: Job) returns (ok: bool)
      requires job.status == Queued
      modifies this`jobs
      ensures ok == !AnyActive(old(jobs), job.lane)
      ensures jobs == if ok then old(jobs) + [job] else old(jobs)
    {
      ok := !AnyActive(jobs, job.lane);
      if ok {
        jobs := jobs + [job];
      }
    }

    method EnqueueLocked(tenant: string, service: string, kind: Kind, promote: bool)
      returns (r: Outcome, extras: seq<string>)
      modifies this`jobs, this`tokens
      ensures (r.Busy? || r.Failed?) ==> jobs == old(jobs) && tokens == old(tokens) && extras == []
      ensures r.Admitted? ==>
                && (Looks(service, kind, promote) ==> tenant != "" && tenant in stores)
                && r.job.lane == Lane(tenant, service) && r.job.status == Queued
                && r.job.kind == (if Looks(service, kind, promote) then Effective(stores[tenant], service, kind, promote) else kind)
                && jobs == old(jobs) + [r.job] && !CountsActive(old(jobs), tenant, service)
                && (r.job.kind != Full ==> !AnyFull(old(jobs), tenant) && tokens == old(tokens))
                && (r.job.kind == Full ==> tenant != "" && service != "" && tokens == Without(old(tokens), tenant, service))
      ensures r.Admitted? ==> forall svc ::
                svc in extras <==> Looks(service, kind, promote) && TenantEmpty(stores[tenant]) && Wanted(schedules, tenant, service, svc)
      ensures r.Admitted? <==> TenantKnown(stores, tenant, service, kind, promote)
                               && !Taken(old(jobs), stores, tenant, service, kind, promote)
                               && Nameable(stores, tenant, service, kind, promote)
      ensures r.Busy? <==> TenantKnown(stores, tenant, service, kind, promote)
                           && Taken(old(jobs), stores, tenant, service, kind, promote)
      ensures r.Admitted? ==> (r.job.kind == Full <==> RunsAsFull(stores, tenant, service, kind, promote))
                              && (r.job.kind != Full ==> r.job.kind == kind)
      ensures !promote && kind == Full && tenant != "" && service != "" ==> !r.Failed? && (r.Busy? <==> CountsActive(old(jobs), tenant, service))
    {
      hide Without;
      hide CountsActive;
      hide AnyFull;
      hide NobodyActive;
      hide NoFullActive;
      ActiveIsCounted(jobs, tenant, service);
      var jobType := kind;
      extras := [];
      if Looks(service, kind, promote) {
        if tenant == "" || tenant !in stores {
          return Failed, [];
        }
        if jobType != Full && ServiceEmpty(stores[tenant], service) {
          jobType := Full;
        }
        if TenantEmpty(stores[tenant]) {
          extras := EnabledGraphServices(tenant, service);
        }
      }
      if CountsActive(jobs, tenant, service) {
        return Busy, [];
      }
      if jobType != Full && AnyFull(jobs, tenant) {
        return Busy, [];
      }
      if jobType == Full {
        if tenant == "" || service == "" {
          return Failed, [];
        }
        tokens := Without(tokens, tenant, service);
      }
      var job := Job(Lane(tenant, service), jobType, Queued);
      LaneIsCounted(jobs, tenant, service);
      var ok := CreateJob(job);
      r := if ok then Admitted(job) else Busy;
    }

    /** The further services of an empty tenant, one after the other; busy ones are passed over. */
    method FanOut(tenant: string, service: string, extras: seq<string>,
                  ghost jobs0: seq<Job>, ghost tokens0: map<TokenKey, string>)
      requires tenant != "" || extras == []
      requires forall svc <- extras :: Wanted(schedules, tenant, service, svc)
      requires Growing(schedules, tenant, service, jobs0, tokens0, jobs, tokens)
      modifies this`jobs, this`tokens
      ensures old(jobs) <= jobs && Growing(schedules, tenant, service, jobs0, tokens0, jobs, tokens)
      ensures extras == [] ==> jobs == old(jobs)
      ensures forall svc <- extras :: Served(jobs0, jobs, Lane(tenant, svc))
    {
      assert |jobs0| <= |jobs|;
      hide Growing;
      hide Served;
      for i := 0 to |extras|
        invariant |jobs0| <= |jobs| && old(jobs) <= jobs && Growing(schedules, tenant, service, jobs0, tokens0, jobs, tokens)
        invariant forall j :: 0 <= j < i ==> Served(jobs0, jobs, Lane(tenant, extras[j]))
        invariant i == 0 ==> jobs == old(jobs)
      {
        ghost var before, links := jobs, tokens;
        var svc := extras[i];
        assert svc in extras && Wanted(schedules, tenant, service, svc);
        GraphIsNamed(svc);
        var r, _ := EnqueueLocked(tenant, svc, Full, false);
        LaneIsCounted(before, tenant, svc);
        if r.Admitted? {
          OneMoreFull(schedules, tenant, service, jobs0, tokens0, before, links, svc);
          forall j | 0 <= j < i ensures Served(jobs0, jobs, Lane(tenant, extras[j])) {
            ServedStays(jobs0, before, r.job, Lane(tenant, extras[j]));
          }
        } else {
          BusyIsServed(schedules, tenant, service, jobs0, tokens0, before, links, svc);
        }
      }
    }

    /**
     The whole call. A refusal leaves no trace; an accepted one adds the job and, on an
     empty tenant, leaves every service an enabled schedule names with a new full job
     or one that was active already, and touches nothing but Graph services.
     */
    method EnqueueParams(tenant: string, service: string, kind: Kind) returns (r: Outcome)
      requires OneActive(jobs)
      modifies this`jobs, this`tokens
      ensures OneActive(jobs) && old(jobs) <= jobs
      ensures !r.Admitted? ==> jobs == old(jobs) && tokens == old(tokens)
      ensures r.Admitted? <==> TenantKnown(stores, tenant, service, kind, true)
                               && !Taken(old(jobs), stores, tenant, service, kind, true)
                               && Nameable(stores, tenant, service, kind, true)
      ensures r.Busy? <==> TenantKnown(stores, tenant, service, kind, true)
                           && Taken(old(jobs), stores, tenant, service, kind, true)
      ensures r.Admitted? ==> r.job.lane == Lane(tenant, service) && r.job.status == Queued
                              && (r.job.kind == Full <==> RunsAsFull(stores, tenant, service, kind, true))
                              && (r.job.kind != Full ==> r.job.kind == kind)
      ensures r.Admitted? ==> Growing(schedules, tenant, service, old(jobs), old(tokens), jobs, tokens)
      ensures r.Admitted? ==> jobs[|old(jobs)|] == r.job
      ensures forall j :: |old(jobs)| < j < |jobs| ==> IsExtra(schedules, tenant, service, jobs[j])
      ensures r.Admitted? && r.job.kind != Full ==> !AnyFull(old(jobs), tenant)
      ensures r.Admitted? && Looks(service, kind, true) ==>
                tenant in stores && r.job.kind == Effective(stores[tenant], service, kind, true)
      ensures r.Admitted? && FansOut(stores, tenant, service, kind) ==> AllServed(schedules, tenant, old(jobs), jobs)
      ensures r.Admitted? && !FansOut(stores, tenant, service, kind) ==> jobs == old(jobs) + [r.job]
    {
      var extras;
      r, extras := EnqueueLocked(tenant, service, kind, true);
      if r.Admitted? {
        FirstRow(schedules, tenant, service, old(jobs), old(tokens), r.job);
        ghost var first := jobs;
        assert extras != [] ==> extras[0] in extras;
        FansOutIff(stores, tenant, service, kind);
        FanOut(tenant, service, extras, old(jobs), old(tokens));
        assert jobs[|old(jobs)|] == first[|old(jobs)|];
        ExtrasAre(schedules, tenant, service, old(jobs), old(tokens), jobs, tokens);
        if Looks(service, kind, true) && TenantEmpty(stores[tenant]) {
          EmptyTenantPromotes(stores[tenant], service, kind);
          EveryoneServed(schedules, tenant, service, old(jobs), jobs, extras);
        }
      }
    }
  }

  /** A queued full job of another Graph service that an enabled schedule of the tenant names. */
  predicate IsExtra(schedules: seq<Schedule>, tenant: string, service: string, job: Job) {
    && job.lane.tenant == tenant && job.kind == Full && job.status == Queued
    && job.lane.service != service && job.lane.service in ["exchange", "onedrive", "teams", "sharepoint"]
    && Schedule(tenant, job.lane.service, true) in schedules
  }

  lemma ExtrasAre(schedules: seq<Schedule>, tenant: string, service: string,
                  jobs0: seq<Job>, tokens0: map<TokenKey, string>, jobs: seq<Job>, tokens: map<TokenKey, string>)
    requires Growing(schedules, tenant, service, jobs0, tokens0, jobs, tokens)
    ensures forall j :: |jobs0| < j < |jobs| ==> IsExtra(schedules, tenant, service, jobs[j])
  {
    hide OneActive;
    hide LinksFollow;
  }

  /** Every Graph service that an enabled schedule names is served. */
  ghost predicate AllServed(schedules: seq<Schedule>, tenant: string, before: seq<Job>, after: seq<Job>) {
    forall sch <- schedules :: sch.tenant == tenant && sch.enabled && IsGraph(sch.service) ==>
      Served(before, after, Lane(tenant, sch.service))
  }

  /** What an enqueue call has done to rows and links once its first row is in. */
  ghost predicate Growing(schedules: seq<Schedule>, tenant: string, service: string,
                          jobs0: seq<Job>, tokens0: map<TokenKey, string>, jobs: seq<Job>, tokens: map<TokenKey, string>)
  {
    && OneActive(jobs) && jobs0 <= jobs && |jobs| > |jobs0|
    && jobs[|jobs0|].lane == Lane(tenant, service)
    && NewRows(jobs, |jobs0|)
    && (forall j :: |jobs0| < j < |jobs| ==> jobs[j].lane.tenant == tenant && Wanted(schedules, tenant, service, jobs[j].lane.service))
    && LinksFollow(tokens0, tokens, jobs, |jobs0|)
  }

  lemma LaneIsCounted(jobs: seq<Job>, tenant: string, service: string)
    ensures AnyActive(jobs, Lane(tenant, service)) ==> CountsActive(jobs, tenant, service)
    ensures service != "" && CountsActive(jobs, tenant, service) ==> AnyActive(jobs, Lane(tenant, service))
  {
    if service != "" && CountsActive(jobs, tenant, service) {
      var j :| 0 <= j < |jobs| && jobs[j].lane.tenant == tenant && jobs[j].lane.service == service && Active(jobs[j].status);
      assert jobs[j].lane == Lane(tenant, service);
    }
  }

  lemma GraphIsNamed(service: string)
    requires IsGraph(service)
    ensures service != "" && service != "pst"
  {
  }

  lemma AddKeepsOneActive(jobs: seq<Job>, job: Job)
    requires OneActive(jobs) && !AnyActive(jobs, job.lane)
    ensures OneActive(jobs + [job])
  {
    var e := jobs + [job];
    forall i, j | 0 <= i < |e| && 0 <= j < |e| ensures !Pair(e, i, j) {
      if i < |jobs| && j < |jobs| {
        assert !Pair(jobs, i, j);
      }
    }
  }

  /** One more row keeps the new full lanes, and adds its own. */
  lemma NewFullGrows(jobs: seq<Job>, job: Job, from: nat, lane: Lane)
    requires from <= |jobs| && job.status == Queued
    ensures NewFull(jobs + [job], from, lane) <==> NewFull(jobs, from, lane) || (job.kind == Full && job.lane == lane)
  {
    var e := jobs + [job];
    if NewFull(jobs, from, lane) {
      var j :| from <= j < |jobs| && jobs[j] == Job(lane, Full, Queued);
      assert e[j] == Job(lane, Full, Queued);
    }
    if job.kind == Full && job.lane == lane {
      assert e[|jobs|] == Job(lane, Full, Queued);
    }
  }

  lemma LinksGrow(t0: map<TokenKey, string>, t1: map<TokenKey, string>, jobs: seq<Job>, job: Job, from: nat)
    requires from <= |jobs| && job.status == Queued && LinksFollow(t0, t1, jobs, from)
    ensures var t2 := if job.kind == Full then Without(t1, job.lane.tenant, job.lane.service) else t1;
            LinksFollow(t0, t2, jobs + [job], from)
  {
    forall k: TokenKey
      ensures NewFull(jobs + [job], from, Lane(k.tenant, k.service)) <==>
              NewFull(jobs, from, Lane(k.tenant, k.service)) || (job.kind == Full && job.lane == Lane(k.tenant, k.service))
    {
      NewFullGrows(jobs, job, from, Lane(k.tenant, k.service));
    }
  }

  lemma FirstRow(schedules: seq<Schedule>, tenant: string, service: string, jobs0: seq<Job>, tokens0: map<TokenKey, string>, job: Job)
    requires OneActive(jobs0) && job.lane == Lane(tenant, service) && job.status == Queued
    requires !CountsActive(jobs0, tenant, service)
    ensures var tokens := if job.kind == Full then Without(tokens0, tenant, service) else tokens0;
            Growing(schedules, tenant, service, jobs0, tokens0, jobs0 + [job], tokens)
  {
    LaneIsCounted(jobs0, tenant, service);
    AddKeepsOneActive(jobs0, job);
    LinksGrow(tokens0, tokens0, jobs0, job, |jobs0|);
  }

  lemma OneMoreFull(schedules: seq<Schedule>, tenant: string, service: string,
                    jobs0: seq<Job>, tokens0: map<TokenKey, string>, jobs: seq<Job>, tokens: map<TokenKey, string>, svc: string)
    requires Growing(schedules, tenant, service, jobs0, tokens0, jobs, tokens)
    requires Wanted(schedules, tenant, service, svc) && !CountsActive(jobs, tenant, svc)
    ensures var job := Job(Lane(tenant, svc), Full, Queued);
            && Growing(schedules, tenant, service, jobs0, tokens0, jobs + [job], Without(tokens, tenant, svc))
            && Served(jobs0, jobs + [job], Lane(tenant, svc))
  {
    var job := Job(Lane(tenant, svc), Full, Queued);
    LaneIsCounted(jobs, tenant, svc);
    AddKeepsOneActive(jobs, job);
    LinksGrow(tokens0, tokens, jobs, job, |jobs0|);
    NewFullGrows(jobs, job, |jobs0|, Lane(tenant, svc));
    hide NewFull;
    hide LinksFollow;
    hide OneActive;
    hide Wanted;
  }

  lemma ServedStays(jobs0: seq<Job>, jobs: seq<Job>, job: Job, lane: Lane)
    requires |jobs0| <= |jobs| && job.status == Queued && Served(jobs0, jobs, lane)
    ensures Served(jobs0, jobs + [job], lane)
  {
    NewFullGrows(jobs, job, |jobs0|, lane);
  }

  lemma BusyIsServed(schedules: seq<Schedule>, tenant: string, service: string,
                     jobs0: seq<Job>, tokens0: map<TokenKey, string>, jobs: seq<Job>, tokens: map<TokenKey, string>, svc: string)
    requires Growing(schedules, tenant, service, jobs0, tokens0, jobs, tokens)
    requires svc != service && AnyActive(jobs, Lane(tenant, svc))
    ensures Served(jobs0, jobs, Lane(tenant, svc))
  {
    var lane := Lane(tenant, svc);
    var j :| 0 <= j < |jobs| && jobs[j].lane == lane && Active(jobs[j].status);
    if j < |jobs0| {
      assert jobs0[j] == jobs[j];
    } else {
      assert jobs[j] == Job(lane, Full, Queued);
    }
  }

  lemma EveryoneServed(schedules: seq<Schedule>, tenant: string, service: string, before: seq<Job>, after: seq<Job>, extras: seq<string>)
    requires forall svc :: svc in extras <==> Wanted(schedules, tenant, service, svc)
    requires forall svc <- extras :: Served(before, after, Lane(tenant, svc))
    requires |before| < |after| && after[|before|] == Job(Lane(tenant, service), Full, Queued)
    ensures AllServed(schedules, tenant, before, after)
  {
    forall sch | sch in schedules && sch.tenant == tenant && sch.enabled && IsGraph(sch.service)
      ensures Served(before, after, Lane(tenant, sch.service))
    {
      if sch.service != service {
        assert sch == Schedule(tenant, sch.service, true);
        assert sch.service in extras;
      }
    }
  }

  /** On an empty tenant no service has anything, so every job of a Graph service becomes full. */
  lemma EmptyTenantPromotes(local: Local, service: string, kind: Kind)
    requires TenantEmpty(local) && IsGraph(service) && kind != Export
    ensures Effective(local, service, kind, true) == Full
  {
  }
}
