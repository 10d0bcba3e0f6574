/**
 Generation numbers over whole runs: what is stored never exceeds the last number
 issued, when a number is issued again, and that a rising clock rules it out.
 */
module CatalogNumbers {
  import opened SmartRecycle
  import opened Tables
  import opened CatalogRuns
  import Paths

  // ---------- every run ----------

  ghost predicate UniqueIds(db: Tables) {
    forall g, h :: g in db.snapshots && h in db.snapshots && db.snapshots[g].id == db.snapshots[h].id ==> g == h
  }

  ghost predicate UpToLast(w: World) {
    forall g <- w.db.snapshots :: 1 <= g.number <= Last(w, g.service)
  }

  /** Snapshots and manifests go together, ids are unique, no number is above the last issued. */
  ghost predicate Bounded(w: World) {
    w.db.snapshots.Keys == w.db.manifests.Keys && UniqueIds(w.db) && UpToLast(w)
  }

  /** The last generation issued, if any, is still stored. */
  predicate LatestStored(w: World, service: string) {
    Last(w, service) == 0 || GenKey(service, Last(w, service)) in w.db.snapshots
  }

  /** The next number: past the last one exactly while the latest generation is stored. */
  lemma NextNumber(w: World, service: string)
    requires UpToLast(w)
    ensures 1 <= NextGeneration(w.db, service).number <= Last(w, service) + 1
    ensures NextGeneration(w.db, service).number == Last(w, service) + 1 <==> LatestStored(w, service)
  {
    var gens := Generations(w.db, service);
    assert forall g <- gens :: g in w.db.snapshots && g.number <= Last(w, service);
    if Last(w, service) > 0 && GenKey(service, Last(w, service)) in w.db.snapshots {
      assert GenKey(service, Last(w, service)) in gens;
    }
  }

  lemma AddUnique(a: Tables, b: Tables, gen: GenKey, made: Snapshot)
    requires UniqueIds(a) && b.snapshots == a.snapshots[gen := made]
    requires forall g <- a.snapshots :: a.snapshots[g].id != made.id
    ensures UniqueIds(b)
  {
  }

  /** What a commit that writes a generation adds. */
  lemma CommitAdds(w: World, e: Event)
    requires e.CommitGen? && Allowed(w, e) && !Skips(w.sessions[e.service], e.service)
    ensures var v, gen := Committing(w, e), NextGeneration(w.db, e.service);
            && gen in v.db.snapshots && v.db.snapshots[gen].id == e.uuid && v.db.snapshots[gen].createdAt == e.now
            && v.db.snapshots == w.db.snapshots[gen := v.db.snapshots[gen]]
            && v.db.manifests.Keys == w.db.manifests.Keys + {gen}
            && v.lastGen == w.lastGen[e.service := gen.number]
            && v.db.items == w.db.items && v.db.blobs == w.db.blobs
  {
  }

  lemma CommitBounded(w: World, e: Event)
    requires e.CommitGen? && Allowed(w, e) && !Skips(w.sessions[e.service], e.service) && Bounded(w)
    ensures Bounded(Committing(w, e))
  {
    CommitAdds(w, e);
    NextNumber(w, e.service);
    var v, gen := Committing(w, e), NextGeneration(w.db, e.service);
    hide Committing;
    AddUnique(w.db, v.db, gen, v.db.snapshots[gen]);
    hide UniqueIds;
    forall g | g in v.db.snapshots ensures 1 <= g.number <= Last(v, g.service) {
      if g.service == e.service && g != gen {
        assert g in Generations(w.db, e.service);
      }
    }
  }

  lemma PruneBounded(w: World, gone: set<GenKey>)
    requires Bounded(w)
    ensures Bounded(w.(db := Collect(Prune(w.db, gone))))
  {
    var v := w.(db := Collect(Prune(w.db, gone)));
    assert v.db.snapshots.Keys == w.db.snapshots.Keys - gone;
    assert v.db.manifests.Keys == w.db.manifests.Keys - gone;
  }

  lemma ApplyBounded(sid: Paths.ShortId, w: World, e: Event)
    requires Allowed(w, e) && Bounded(w)
    ensures Bounded(Apply(sid, w, e))
  {
    match e
    case CommitGen(_, _, _, _) =>
      if !Skips(w.sessions[e.service], e.service) {
        CommitBounded(w, e);
      }
    case RetainAll(policy, now, orders) => PruneBounded(w, Retired(w.db, policy, now, orders));
    case Open(_, _) =>
    case CollectBlobs =>
    case _ => ActKeepsGenerations(sid, StateOf(w, Actor(e).value), e);
  }

  lemma {:induction false} AlwaysBounded(sid: Paths.ShortId, es: seq<Event>)
    requires Legal(sid, es)
    ensures Bounded(After(sid, es))
  {
    if es != [] {
      AlwaysBounded(sid, es[..|es| - 1]);
      ApplyBounded(sid, After(sid, es[..|es| - 1]), es[|es| - 1]);
      hide Apply;
      hide Bounded;
    }
  }

  // ---------- numbers issued ----------

  /** The number an event issues to a service, or 0 if it writes no generation of it. */
  ghost function Issues(w: World, e: Event, service: string): nat
    requires Allowed(w, e)
  {
    if e.CommitGen? && e.service == service && !Skips(w.sessions[service], service)
    then NextGeneration(w.db, service).number else 0
  }

  ghost function Issued(sid: Paths.ShortId, es: seq<Event>, i: nat, service: string): nat
    requires Legal(sid, es) && i < |es|
  {
    BeforeNext(sid, es, i);
    Issues(Before(sid, es, i), es[i], service)
  }

  /** Only a commit that writes a generation moves the last number. */
  lemma LastAfter(sid: Paths.ShortId, w: World, e: Event, service: string)
    requires Allowed(w, e)
    ensures Last(Apply(sid, w, e), service) ==
            if Issues(w, e, service) > 0 then Issues(w, e, service) else Last(w, service)
  {
    if IsOp(e) {
      hide Act;
    } else if e.CommitGen? && !Skips(w.sessions[e.service], e.service) {
      CommitAdds(w, e);
      hide Committing;
    }
  }

  /** A commit issues a number not above the last one exactly if the latest generation is gone. */
  lemma ReissuesIff(sid: Paths.ShortId, es: seq<Event>, i: nat, service: string)
    requires Legal(sid, es) && i < |es| && Issued(sid, es, i, service) > 0
    ensures var w := Before(sid, es, i);
            Issued(sid, es, i, service) <= Last(w, service) <==>
            Last(w, service) > 0 && GenKey(service, Last(w, service)) !in w.db.snapshots
  {
    var w := Before(sid, es, i);
    LegalPrefix(sid, es, i);
    AlwaysBounded(sid, es[..i]);
    BeforeNext(sid, es, i);
    hide Before;
    NextNumber(w, service);
  }

  /** The last number was issued by some commit of the run. */
  lemma {:induction false} LastWasIssued(sid: Paths.ShortId, es: seq<Event>, n: nat, service: string) returns (i: nat)
    requires Legal(sid, es) && n <= |es| && Last(Before(sid, es, n), service) > 0
    ensures i < n && Issued(sid, es, i, service) == Last(Before(sid, es, n), service)
    decreases n
  {
    BeforeStart(sid, es);
    assert n > 0;
    BeforeNext(sid, es, n - 1);
    LastAfter(sid, Before(sid, es, n - 1), es[n - 1], service);
    hide Before;
    hide Apply;
    if Issued(sid, es, n - 1, service) > 0 {
      i := n - 1;
    } else {
      i := LastWasIssued(sid, es, n - 1, service);
    }
  }

  /** Every commit that writes a generation of the service finds the one before still stored. */
  ghost predicate StoredAtCommits(sid: Paths.ShortId, es: seq<Event>, service: string)
    requires Legal(sid, es)
  {
    forall i :: 0 <= i < |es| && Issued(sid, es, i, service) > 0 ==> LatestStored(Before(sid, es, i), service)
  }

  ghost predicate Increasing(sid: Paths.ShortId, es: seq<Event>, service: string)
    requires Legal(sid, es)
  {
    forall i, j :: 0 <= i < j < |es| && Issued(sid, es, i, service) > 0 && Issued(sid, es, j, service) > 0 ==>
      Issued(sid, es, i, service) < Issued(sid, es, j, service)
  }

  lemma IssuedIsNext(sid: Paths.ShortId, es: seq<Event>, i: nat, service: string)
    requires Legal(sid, es) && i < |es|
    ensures var n := Issued(sid, es, i, service);
            && (n == 0 ==> Last(Before(sid, es, i + 1), service) == Last(Before(sid, es, i), service))
            && (n > 0 ==> Last(Before(sid, es, i + 1), service) == n)
            && (n > 0 && LatestStored(Before(sid, es, i), service) ==> n == Last(Before(sid, es, i), service) + 1)
  {
    BeforeNext(sid, es, i);
    LegalPrefix(sid, es, i);
    AlwaysBounded(sid, es[..i]);
    LastAfter(sid, Before(sid, es, i), es[i], service);
    NextNumber(Before(sid, es, i), service);
    hide Apply;
  }

  lemma {:induction false} LastGrows(sid: Paths.ShortId, es: seq<Event>, i: nat, j: nat, service: string)
    requires Legal(sid, es) && i <= j <= |es| && StoredAtCommits(sid, es, service)
    ensures Last(Before(sid, es, i), service) <= Last(Before(sid, es, j), service)
    decreases j
  {
    hide Before;
    hide Issued;
    hide Last;
    hide LatestStored;
    if i < j {
      LastGrows(sid, es, i, j - 1, service);
      IssuedIsNext(sid, es, j - 1, service);
    }
  }

  /**
   Over every run, whatever the clock does: the numbers of a service strictly increase
   exactly if each commit finds the generation issued last still stored.
   */
  lemma NumbersIncreaseIff(sid: Paths.ShortId, es: seq<Event>, service: string)
    requires Legal(sid, es)
    ensures Increasing(sid, es, service) <==> StoredAtCommits(sid, es, service)
  {
    if StoredAtCommits(sid, es, service) {
      forall i, j | 0 <= i < j < |es| && Issued(sid, es, i, service) > 0 && Issued(sid, es, j, service) > 0
        ensures Issued(sid, es, i, service) < Issued(sid, es, j, service)
      {
        IssuedIsNext(sid, es, i, service);
        IssuedIsNext(sid, es, j, service);
        LastGrows(sid, es, i + 1, j, service);
      }
    }
    if Increasing(sid, es, service) {
      forall j | 0 <= j < |es| && Issued(sid, es, j, service) > 0 ensures LatestStored(Before(sid, es, j), service) {
        ReissuesIff(sid, es, j, service);
        if Last(Before(sid, es, j), service) > 0 {
          var i := LastWasIssued(sid, es, j, service);
        }
      }
    }
  }

  // ---------- with a rising clock ----------

  /** Creation times are later than those of the service's earlier snapshots. */
  ghost predicate ClockAdvances(w: World, e: Event) {
    e.CommitGen? ==> forall g <- Generations(w.db, e.service) :: w.db.snapshots[g].createdAt < e.now
  }

  ghost predicate Ticking(sid: Paths.ShortId, es: seq<Event>)
    requires Legal(sid, es)
  {
    es == [] || (Ticking(sid, es[..|es| - 1]) && ClockAdvances(After(sid, es[..|es| - 1]), es[|es| - 1]))
  }

  /** Later generations of a service are younger. */
  ghost predicate Rising(db: Tables) {
    forall g, h :: g in db.snapshots && h in db.snapshots && g.service == h.service && g.number < h.number ==>
      db.snapshots[g].createdAt < db.snapshots[h].createdAt
  }

  ghost predicate AllStored(w: World) {
    forall s :: LatestStored(w, s)
  }

  ghost predicate Numbered(w: World) {
    Bounded(w) && Rising(w.db) && AllStored(w)
  }

  lemma NextIsLastPlusOne(w: World, service: string)
    requires UpToLast(w) && LatestStored(w, service)
    ensures NextGeneration(w.db, service) == GenKey(service, Last(w, service) + 1)
  {
    NextNumber(w, service);
  }

  /** The latest generation heads the newest-first list, so no policy retires it. */
  lemma LatestIsNotRetired(w: World, policy: Policy, now: int, orders: map<string, seq<GenKey>>, service: string)
    requires Numbered(w) && Ordered(w.db, orders) && Last(w, service) > 0
    ensures GenKey(service, Last(w, service)) !in Retired(w.db, policy, now, orders)
  {
    assert LatestStored(w, service);
    var order := orders[service];
    LatestIsFirst(w, order, service);
    NewestIsKept(Infos(w.db, order), policy, now);
  }

  lemma LatestIsFirst(w: World, order: seq<GenKey>, service: string)
    requires UpToLast(w) && Rising(w.db) && GenKey(service, Last(w, service)) in w.db.snapshots
    requires Enumerates(order, Generations(w.db, service)) && NewestFirst(Infos(w.db, order))
    ensures order != [] && order[0] == GenKey(service, Last(w, service))
  {
    var latest := GenKey(service, Last(w, service));
    assert latest in Generations(w.db, service);
    var i :| 0 <= i < |order| && order[i] == latest;
    var infos := Infos(w.db, order);
    assert order[0] in order && order[0] in Generations(w.db, service);
    assert order[0].number <= latest.number;
    assert infos[0].createdAt >= infos[i].createdAt;
    assert !(order[0].number < latest.number);
  }

  lemma AddRising(w: World, b: Tables, gen: GenKey, made: Snapshot)
    requires Rising(w.db) && UpToLast(w) && gen.number == Last(w, gen.service) + 1
    requires b.snapshots == w.db.snapshots[gen := made]
    requires forall g <- w.db.snapshots :: g.service == gen.service ==> w.db.snapshots[g].createdAt < made.createdAt
    ensures Rising(b)
  {
  }

  lemma CommitNumbered(w: World, e: Event)
    requires e.CommitGen? && Allowed(w, e) && !Skips(w.sessions[e.service], e.service)
    requires ClockAdvances(w, e) && Numbered(w)
    ensures Rising(Committing(w, e).db) && AllStored(Committing(w, e))
  {
    assert LatestStored(w, e.service);
    NextIsLastPlusOne(w, e.service);
    CommitAdds(w, e);
    var v, gen := Committing(w, e), NextGeneration(w.db, e.service);
    hide Committing;
    hide NextGeneration;
    forall g | g in w.db.snapshots && g.service == gen.service ensures w.db.snapshots[g].createdAt < e.now {
      assert g in Generations(w.db, e.service);
    }
    AddRising(w, v.db, gen, v.db.snapshots[gen]);
    AddStored(w, v, gen);
    hide *;
  }

  lemma AddStored(w: World, v: World, gen: GenKey)
    requires AllStored(w) && v.db.snapshots.Keys == w.db.snapshots.Keys + {gen}
    requires v.lastGen == w.lastGen[gen.service := gen.number]
    ensures AllStored(v)
  {
    forall s ensures LatestStored(v, s) {
      assert LatestStored(w, s);
    }
  }

  lemma PruneNumbered(w: World, policy: Policy, now: int, orders: map<string, seq<GenKey>>)
    requires Numbered(w) && Ordered(w.db, orders)
    ensures var v := w.(db := Retain(w.db, policy, now, orders)); Rising(v.db) && AllStored(v)
  {
    var v := w.(db := Retain(w.db, policy, now, orders));
    forall s ensures LatestStored(v, s) {
      assert LatestStored(w, s);
      if Last(w, s) > 0 {
        LatestIsNotRetired(w, policy, now, orders, s);
      }
    }
  }

  lemma ApplyNumbered(sid: Paths.ShortId, w: World, e: Event)
    requires Allowed(w, e) && ClockAdvances(w, e) && Numbered(w)
    ensures Numbered(Apply(sid, w, e))
  {
    ApplyBounded(sid, w, e);
    match e
    case CommitGen(_, _, _, _) =>
      if !Skips(w.sessions[e.service], e.service) {
        CommitNumbered(w, e);
      }
    case RetainAll(policy, now, orders) => PruneNumbered(w, policy, now, orders);
    case Open(_, _) => SameNumbers(w, Apply(sid, w, e));
    case CollectBlobs => SameNumbers(w, Apply(sid, w, e));
    case _ =>
      ActKeepsGenerations(sid, StateOf(w, Actor(e).value), e);
      SameNumbers(w, Apply(sid, w, e));
  }

  lemma SameNumbers(w: World, v: World)
    requires Rising(w.db) && AllStored(w) && v.db.snapshots == w.db.snapshots && v.lastGen == w.lastGen
    ensures Rising(v.db) && AllStored(v)
  {
    forall s ensures LatestStored(v, s) {
      assert LatestStored(w, s);
    }
  }

  lemma {:induction false} AlwaysNumbered(sid: Paths.ShortId, es: seq<Event>)
    requires Legal(sid, es) && Ticking(sid, es)
    ensures Numbered(After(sid, es))
  {
    if es == [] {
      assert forall s :: Last(START, s) == 0;
    } else {
      AlwaysNumbered(sid, es[..|es| - 1]);
      ApplyNumbered(sid, After(sid, es[..|es| - 1]), es[|es| - 1]);
      hide Apply;
      hide Numbered;
    }
  }

  lemma {:induction false} TickingPrefix(sid: Paths.ShortId, es: seq<Event>, i: nat)
    requires Legal(sid, es) && Ticking(sid, es) && i <= |es|
    ensures Legal(sid, es[..i]) && Ticking(sid, es[..i])
    decreases |es|
  {
    hide ClockAdvances;
    LegalPrefix(sid, es, i);
    if i == |es| {
      assert es[..i] == es;
    } else {
      TickingPrefix(sid, es[..|es| - 1], i);
      assert es[..|es| - 1][..i] == es[..i];
    }
  }

  /** With a rising clock the numbers of a service strictly increase, so none is issued twice. */
  lemma GenerationNumbersIncrease(sid: Paths.ShortId, es: seq<Event>, service: string)
    requires Legal(sid, es) && Ticking(sid, es)
    ensures Increasing(sid, es, service)
  {
    forall i | 0 <= i < |es| && Issued(sid, es, i, service) > 0 ensures LatestStored(Before(sid, es, i), service) {
      TickingPrefix(sid, es, i);
      AlwaysNumbered(sid, es[..i]);
    }
    NumbersIncreaseIff(sid, es, service);
  }
}
