/**
 * The process-wide subscription registry of the COV client: the global
 * `subscription_contexts` table and the `next_proc_id` counter that every
 * new subscription context draws its subscriber process identifier from.
 */
module SubscriptionRegistry {
  import opened Wrappers
  import opened Bacnet

  /**
   * One subscription.  The source's context object is never changed after
   * its constructor, so a value carries everything it holds.
   */
  datatype SubscriptionContext = SubscriptionContext(
    address: Address,
    subscriberProcessId: nat,
    monitoredObject: ObjectId,
    issueConfirmed: bool,
    lifetime: int)

  /**
   * The context a notification belongs to: the one registered under its
   * subscriber process identifier, provided the notification comes from the
   * address that context subscribed at.
   */
  function Route(contexts: map<nat, SubscriptionContext>, n: Notification): Option<SubscriptionContext>
  {
    if n.subscriberProcessId in contexts && contexts[n.subscriberProcessId].address == n.source
    then Some(contexts[n.subscriberProcessId])
    else None
  }

  /** Every context is filed under its own identifier. */
  ghost predicate FiledByOwnId(contexts: map<nat, SubscriptionContext>)
  {
    forall id :: id in contexts ==> contexts[id].subscriberProcessId == id
  }

  /**
   * Routing is exact: a routed notification reaches a context with its own
   * identifier and source address, and every registered context receives
   * the notifications that carry its identifier and come from its address.
   */
  lemma RouteExact(contexts: map<nat, SubscriptionContext>, n: Notification)
    requires FiledByOwnId(contexts)
    ensures Route(contexts, n).Some? ==>
      && Route(contexts, n).value.subscriberProcessId == n.subscriberProcessId
      && Route(contexts, n).value.address == n.source
    ensures forall id ::
      (id in contexts && contexts[id].subscriberProcessId == n.subscriberProcessId && contexts[id].address == n.source)
      ==> Route(contexts, n) == Some(contexts[id])
  {
  }

  /** `after` keeps every entry of `before` unchanged (it may hold more). */
  predicate Extends(before: map<nat, SubscriptionContext>, after: map<nat, SubscriptionContext>)
  {
    forall id :: id in before ==> id in after && after[id] == before[id]
  }

  lemma ExtendsTransitive(a: map<nat, SubscriptionContext>, b: map<nat, SubscriptionContext>,
                          c: map<nat, SubscriptionContext>)
    requires Extends(a, b) && Extends(b, c)
    ensures Extends(a, c)
  {
  }

  /**
   * Registering more contexts never re-routes a notification that already
   * had a context: entries are only ever added.
   */
  lemma RouteStable(before: map<nat, SubscriptionContext>, after: map<nat, SubscriptionContext>, n: Notification)
    requires Extends(before, after)
    ensures Route(before, n).Some? ==> Route(after, n) == Route(before, n)
  {
  }

  class Registry {
    var contexts: map<nat, SubscriptionContext>
    var nextProcId: nat

    /**
     * Identifiers are handed out from 1 upwards without gaps, so the
     * registered ones are exactly those below the counter.
     */
    ghost predicate Valid()
      reads this
    {
      && 1 <= nextProcId
      && (forall id :: id in contexts <==> 1 <= id < nextProcId)
      && FiledByOwnId(contexts)
    }

    /** The module's initial state: an empty table and the counter at 1. */
    constructor ()
      ensures Valid()
      ensures contexts == map[] && nextProcId == 1
    {
      contexts := map[];
      nextProcId := 1;
    }

    /**
     * `SubscriptionContext.__init__`: take the counter's value as the new
     * context's identifier, advance the counter by one and file the context
     * under its identifier.  The identifier is larger than every one issued
     * before, and no earlier entry changes.
     */
    method NewContext(address: Address, obj: ObjectId, confirmed: bool, lifetime: int)
      returns (ctx: SubscriptionContext)
      requires Valid()
      modifies this
      ensures Valid()
      ensures ctx == SubscriptionContext(address, old(nextProcId), obj, confirmed, lifetime)
      ensures nextProcId == old(nextProcId) + 1
      ensures ctx.subscriberProcessId !in old(contexts)
      ensures forall id :: id in old(contexts) ==> id < ctx.subscriberProcessId
      ensures contexts == old(contexts)[ctx.subscriberProcessId := ctx]
      ensures Extends(old(contexts), contexts)
    {
      ctx := SubscriptionContext(address, nextProcId, obj, confirmed, lifetime);
      nextProcId := nextProcId + 1;
      contexts := contexts[ctx.subscriberProcessId := ctx];
    }
  }
}
