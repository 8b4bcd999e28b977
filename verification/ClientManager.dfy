/** The manager object of grpc_client.go, proved against the steps of ClientPools. */
module ClientManager {
  import opened ClientPools

  /**
   The manager's sections under its write lock. The pool objects are kept in a table, so that a
   builder's pool and the published ones are told apart by number.
  */
  class GrpcClientManager {
    const size: nat
    var services: set<Service>
    var clientPools: map<Service, PoolId>
    var poolGeneration: nat
    var pools: seq<Pool>
    var open: map<ClientId, PoolId>
    ghost var creators: map<Tid, Creator>
    ghost var usable: set<ClientId>
    ghost var made: nat
    ghost var resets: map<Service, nat>
    ghost var allReset: nat

    ghost function View(): State
      reads this
    {
      State(size, services, clientPools, poolGeneration, pools, creators, open, usable, made, resets, allReset)
    }

    constructor (poolSize: int)
      ensures View() == Start(if poolSize <= 0 then 1 else poolSize)
    {
      size := if poolSize <= 0 then 1 else poolSize;
      services, clientPools, poolGeneration, pools, open := {}, map[], 0, [], map[];
      creators, usable, made, resets, allReset := map[], {}, 0, map[], 0;
    }

    method ClosePoolObject(p: PoolId)
      requires p < |pools|
      modifies this`pools, this`open
      ensures View() == ClosePool(old(View()), p)
      ensures pools == Emptied(old(pools), p) && open == Without(old(open), p)
    {
      pools := pools[p := pools[p].(clients := [])];
      open := map c | c in open && open[c] != p :: open[c];
      assert pools == Emptied(old(pools), p) && open == Without(old(open), p);
    }

    /** GetClient's commit of a built pool. */
    method CommitGet(c: Creator, found: bool) returns (published: bool)
      requires c.Building? && c.job.ForGet? && c.pool < |pools| && MapOk(pools, clientPools)
      modifies this
      ensures View() == CommitPool(old(View()), c, found)
      ensures published == Publishes(old(View()), c, found)
    {
      if c.service in clientPools {
        if found {
          ClosePoolObject(c.pool);
          return false;
        }
        ClosePoolObject(clientPools[c.service]);
      }
      if c.service !in services {
        ClosePoolObject(c.pool);
        return false;
      }
      if poolGeneration != c.generation {
        ClosePoolObject(c.pool);
        return false;
      }
      clientPools := clientPools[c.service := c.pool];
      return true;
    }

    /** ConnectAll's commit: an entry already there wins, whatever is in it. */
    method CommitConnect(c: Creator) returns (published: bool)
      requires c.Building? && c.job.ForConnect? && c.pool < |pools|
      modifies this
      ensures forall found :: View() == CommitPool(old(View()), c, found) && published == Publishes(old(View()), c, found)
    {
      if c.service in clientPools {
        ClosePoolObject(c.pool);
        return false;
      }
      if c.service !in services {
        ClosePoolObject(c.pool);
        return false;
      }
      if poolGeneration != c.generation {
        ClosePoolObject(c.pool);
        return false;
      }
      clientPools := clientPools[c.service := c.pool];
      return true;
    }

    method CloseOne(service: Service, failed: bool) returns (ok: bool)
      requires MapOk(pools, clientPools)
      modifies this
      ensures View() == CloseService(old(View()), service, failed)
      ensures ok == (!failed || service !in old(clientPools))
    {
      poolGeneration := poolGeneration + 1;
      resets := resets[service := poolGeneration];
      if service !in clientPools {
        return true;
      }
      ClosePoolObject(clientPools[service]);
      if failed {
        return false;
      }
      clientPools := clientPools - {service};
      return true;
    }

    /** Every published pool is closed and forgotten, whatever errors closing reports. */
    method CloseAllPools()
      requires MapOk(pools, clientPools)
      modifies this
      ensures View() == CloseEverything(old(View()))
    {
      hide EmptiedAll, WithoutAll;
      poolGeneration := poolGeneration + 1;
      allReset := poolGeneration;
      CloseEach();
      clientPools := map[];
    }

    /** In some order, as over any Go map. */
    method CloseEach()
      requires MapOk(pools, clientPools)
      modifies this`pools, this`open
      ensures pools == EmptiedAll(old(pools), clientPools.Values)
      ensures open == WithoutAll(old(open), clientPools.Values)
    {
      hide Targets, EmptiedAll, WithoutAll, Emptied, Without, Split;
      NoTargets(clientPools);
      AllTargets(clientPools);
      NothingEmptied(pools, open);
      var names := clientPools.Keys;
      ghost var closed := {};
      SplitStarts(names);
      while names != {}
        invariant Split(names, closed, clientPools.Keys)
        invariant pools == EmptiedAll(old(pools), Targets(clientPools, closed))
        invariant open == WithoutAll(old(open), Targets(clientPools, closed))
        decreases |names|
      {
        var name :| name in names;
        SplitMoves(names, closed, clientPools.Keys, name);
        OneTargetMore(clientPools, closed, name);
        OneMore(old(pools), old(open), Targets(clientPools, closed), clientPools[name]);
        ClosePoolObject(clientPools[name]);
        names := names - {name};
        closed := closed + {name};
      }
      SplitEnds(closed, clientPools.Keys);
    }
  }

  ghost predicate Split(names: set<Service>, closed: set<Service>, all: set<Service>) {
    names !! closed && names + closed == all
  }

  lemma SplitStarts(all: set<Service>)
    ensures Split(all, {}, all)
  {
  }

  lemma SplitMoves(names: set<Service>, closed: set<Service>, all: set<Service>, name: Service)
    requires Split(names, closed, all) && name in names
    ensures name in all && Split(names - {name}, closed + {name}, all)
  {
  }

  lemma SplitEnds(closed: set<Service>, all: set<Service>)
    requires Split({}, closed, all)
    ensures closed == all
  {
  }

  ghost function Targets(m: map<Service, PoolId>, names: set<Service>): set<PoolId> {
    set x | x in names && x in m :: m[x]
  }

  lemma NoTargets(m: map<Service, PoolId>)
    ensures Targets(m, {}) == {}
  {
  }

  lemma AllTargets(m: map<Service, PoolId>)
    ensures Targets(m, m.Keys) == m.Values
  {
  }

  lemma OneTargetMore(m: map<Service, PoolId>, names: set<Service>, name: Service)
    requires name in m
    ensures Targets(m, names + {name}) == Targets(m, names) + {m[name]}
  {
  }

  lemma NothingEmptied(pools: seq<Pool>, open: map<ClientId, PoolId>)
    ensures EmptiedAll(pools, {}) == pools && WithoutAll(open, {}) == open
  {
  }

  lemma OneMore(pools: seq<Pool>, open: map<ClientId, PoolId>, done: set<PoolId>, p: PoolId)
    requires p < |pools|
    ensures Emptied(EmptiedAll(pools, done), p) == EmptiedAll(pools, done + {p})
    ensures Without(WithoutAll(open, done), p) == WithoutAll(open, done + {p})
  {
  }
}
