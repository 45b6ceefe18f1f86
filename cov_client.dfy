/**
 * `SubscribeCOVApplication`: the bookkeeping a BACnet client does around the
 * stack while it finds one target device, reads its object list, subscribes
 * to change-of-value notifications for each object and then routes the
 * notifications that arrive.
 *
 * The stack is abstracted away: requests the client sends are appended to
 * `outbox`, the completions of confirmed requests and the APDUs the stack
 * passes up are the arguments of the handler methods, and one sequential
 * interleaving of ticks and stack events is modelled.
 */
module CovClient {
  import opened Wrappers
  import opened Bacnet
  import opened SubscriptionRegistry

  /** The one stage a tick of `do_RunTasks` performs. */
  datatype Stage = Discover | Enumerate | Subscribe | Steady

  /** One call of a context's `cov_notification`. */
  datatype Delivery = Delivery(context: SubscriptionContext, notification: Notification)

  /** How a confirmed notification was answered. */
  datatype NotificationResult =
    | Acknowledged
    | ExecutionError(errorClass: string, errorCode: string)   // raised; the stack turns it into an Error PDU

  datatype IndicationResult = Accepted | DecodingError(reason: string)

  /**
   * The stage a tick picks, in priority order: the target's address first,
   * then the object list, then the subscriptions.
   */
  function TickStage(cache: map<nat, Address>, target: nat, objectList: seq<ObjectId>,
                     subscriptions: map<ObjectId, bool>): Stage
  {
    if target !in cache then Discover
    else if |objectList| == 0 then Enumerate
    else if |subscriptions.Keys| == 0 then Subscribe
    else Steady
  }

  /** The objects `do_SubscribeCOV` subscribes to: the non-device ones, in list order. */
  function NonDevice(objs: seq<ObjectId>): seq<ObjectId>
  {
    if objs == [] then []
    else
      var n := |objs| - 1;
      NonDevice(objs[..n]) + (if IsDevice(objs[n]) then [] else [objs[n]])
  }

  /** The filter never adds an object, and only keeps non-device ones. */
  lemma {:induction false} NonDeviceSound(objs: seq<ObjectId>)
    ensures |NonDevice(objs)| <= |objs|
    ensures forall i :: 0 <= i < |NonDevice(objs)| ==> NonDevice(objs)[i] in objs && !IsDevice(NonDevice(objs)[i])
    decreases |objs|
  {
    if objs != [] {
      var n := |objs| - 1;
      NonDeviceSound(objs[..n]);
      var t, rest := NonDevice(objs), NonDevice(objs[..n]);
      forall i | 0 <= i < |t| ensures t[i] in objs && !IsDevice(t[i]) {
        if i < |rest| {
          assert t[i] == rest[i] && rest[i] in objs[..n];
        } else {
          assert t[i] == objs[n];
        }
      }
    }
  }

  /** The filter keeps every non-device object of the list. */
  lemma {:induction false} NonDeviceComplete(objs: seq<ObjectId>)
    ensures forall i :: 0 <= i < |objs| && !IsDevice(objs[i]) ==> objs[i] in NonDevice(objs)
    decreases |objs|
  {
    if objs != [] {
      var n := |objs| - 1;
      NonDeviceComplete(objs[..n]);
      var t, rest := NonDevice(objs), NonDevice(objs[..n]);
      forall i | 0 <= i < |objs| && !IsDevice(objs[i]) ensures objs[i] in t {
        if i < n {
          assert objs[i] == objs[..n][i] && objs[i] in rest;
        }
      }
    }
  }

  /**
   * The filter keeps exactly the non-device objects, and keeps the whole
   * list when it has no device object.
   */
  lemma {:induction false} NonDeviceExactly(objs: seq<ObjectId>)
    ensures forall o :: o in NonDevice(objs) <==> o in objs && !IsDevice(o)
    ensures (forall i :: 0 <= i < |objs| ==> !IsDevice(objs[i])) ==> NonDevice(objs) == objs
    decreases |objs|
  {
    NonDeviceSound(objs);
    NonDeviceComplete(objs);
    if objs != [] {
      var n := |objs| - 1;
      NonDeviceExactly(objs[..n]);
      assert objs == objs[..n] + [objs[n]];
    }
  }

  /**
   * Contexts for `targets`, in order, numbered consecutively from
   * `firstId`, each with the given address, flag and lifetime.
   */
  function Numbered(targets: seq<ObjectId>, firstId: nat, address: Address,
                    confirmed: bool, lifetime: int): seq<SubscriptionContext>
  {
    if targets == [] then []
    else
      var n := |targets| - 1;
      Numbered(targets[..n], firstId, address, confirmed, lifetime)
        + [SubscriptionContext(address, firstId + n, targets[n], confirmed, lifetime)]
  }

  lemma {:induction false} NumberedAt(targets: seq<ObjectId>, firstId: nat, address: Address,
                                      confirmed: bool, lifetime: int)
    ensures |Numbered(targets, firstId, address, confirmed, lifetime)| == |targets|
    ensures forall k :: 0 <= k < |targets| ==>
      Numbered(targets, firstId, address, confirmed, lifetime)[k]
        == SubscriptionContext(address, firstId + k, targets[k], confirmed, lifetime)
    decreases |targets|
  {
    if targets != [] {
      var n := |targets| - 1;
      NumberedAt(targets[..n], firstId, address, confirmed, lifetime);
    }
  }

  /**
   * The contexts `do_SubscribeCOV` creates when the counter stands at
   * `firstId`: one per non-device object, in list order.
   */
  function PlannedContexts(objs: seq<ObjectId>, firstId: nat, address: Address,
                           confirmed: bool, lifetime: int): seq<SubscriptionContext>
  {
    Numbered(NonDevice(objs), firstId, address, confirmed, lifetime)
  }

  /** The subscribe request sent for a context. */
  function SubscribeRequest(ctx: SubscriptionContext, propertyRequest: bool): Request
  {
    SubscribeCOV(ctx.address, ctx.subscriberProcessId, ctx.monitoredObject,
                 if propertyRequest then Some(PresentValue) else None,
                 ctx.issueConfirmed, ctx.lifetime)
  }

  /** The subscribe requests for `ctxs`, in order. */
  function SubscribeRequests(ctxs: seq<SubscriptionContext>, propertyRequest: bool): seq<Request>
  {
    if ctxs == [] then []
    else
      var n := |ctxs| - 1;
      SubscribeRequests(ctxs[..n], propertyRequest) + [SubscribeRequest(ctxs[n], propertyRequest)]
  }

  /**
   * What one subscribe pass plans: at most one context per object, each
   * for a non-device object of the list, with identifiers consecutive from
   * the counter (so pairwise distinct), and each carrying the target's
   * address, the flag and the lifetime.
   */
  lemma PlanContexts(objs: seq<ObjectId>, firstId: nat, address: Address, confirmed: bool, lifetime: int)
    ensures |PlannedContexts(objs, firstId, address, confirmed, lifetime)| == |NonDevice(objs)| <= |objs|
    ensures forall k :: 0 <= k < |PlannedContexts(objs, firstId, address, confirmed, lifetime)| ==>
      var ctx := PlannedContexts(objs, firstId, address, confirmed, lifetime)[k];
      && ctx.monitoredObject in objs && !IsDevice(ctx.monitoredObject)
      && ctx.subscriberProcessId == firstId + k
      && ctx.address == address && ctx.issueConfirmed == confirmed && ctx.lifetime == lifetime
  {
    var t := NonDevice(objs);
    NonDeviceSound(objs);
    NumberedAt(t, firstId, address, confirmed, lifetime);
  }

  /** Every non-device object of the list gets a context in the pass. */
  lemma PlanCovers(objs: seq<ObjectId>, firstId: nat, address: Address, confirmed: bool, lifetime: int)
    ensures forall i :: 0 <= i < |objs| && !IsDevice(objs[i]) ==>
      exists k :: 0 <= k < |PlannedContexts(objs, firstId, address, confirmed, lifetime)|
        && PlannedContexts(objs, firstId, address, confirmed, lifetime)[k].monitoredObject == objs[i]
  {
    var t := NonDevice(objs);
    var ctxs := PlannedContexts(objs, firstId, address, confirmed, lifetime);
    NonDeviceComplete(objs);
    NumberedAt(t, firstId, address, confirmed, lifetime);
    forall i | 0 <= i < |objs| && !IsDevice(objs[i])
      ensures exists k :: 0 <= k < |ctxs| && ctxs[k].monitoredObject == objs[i]
    {
      var k :| 0 <= k < |t| && t[k] == objs[i];
      assert ctxs[k].monitoredObject == objs[i];
    }
  }

  /**
   * The requests of a subscribe pass: one per context, in order, each naming
   * its context's identifier, object and address, and the property variant
   * (present value) exactly when property requests are configured.
   */
  lemma {:induction false} SubscribeRequestsMatch(ctxs: seq<SubscriptionContext>, propertyRequest: bool)
    ensures |SubscribeRequests(ctxs, propertyRequest)| == |ctxs|
    ensures forall k :: 0 <= k < |ctxs| ==>
      var r := SubscribeRequests(ctxs, propertyRequest)[k];
      && r.SubscribeCOV?
      && r.subscriberProcessId == ctxs[k].subscriberProcessId
      && r.monitoredObject == ctxs[k].monitoredObject
      && r.destination == ctxs[k].address
      && r.issueConfirmed == ctxs[k].issueConfirmed
      && r.lifetime == ctxs[k].lifetime
      && (r.monitoredProperty.Some? <==> propertyRequest)
      && (r.monitoredProperty.Some? ==> r.monitoredProperty.value == PresentValue)
    decreases |ctxs|
  {
    if ctxs != [] {
      var n := |ctxs| - 1;
      SubscribeRequestsMatch(ctxs[..n], propertyRequest);
      assert forall k :: 0 <= k < n ==> ctxs[..n][k] == ctxs[k];
    }
  }

  /**
   * Planning is incremental: one more object in the list adds one context,
   * under the next identifier, unless that object is a device.
   */
  lemma PlanSnoc(objs: seq<ObjectId>, obj: ObjectId, firstId: nat, address: Address,
                 confirmed: bool, lifetime: int)
    ensures PlannedContexts(objs + [obj], firstId, address, confirmed, lifetime)
         == PlannedContexts(objs, firstId, address, confirmed, lifetime)
            + (if IsDevice(obj) then []
               else [SubscriptionContext(address, firstId + |PlannedContexts(objs, firstId, address, confirmed, lifetime)|,
                                         obj, confirmed, lifetime)])
  {
    assert (objs + [obj])[..|objs|] == objs;
    var t := NonDevice(objs);
    NumberedAt(t, firstId, address, confirmed, lifetime);
    if IsDevice(obj) {
      assert NonDevice(objs + [obj]) == t;
    } else {
      assert NonDevice(objs + [obj]) == t + [obj];
      assert (t + [obj])[..|t|] == t;
    }
  }

  /** `PlanSnoc` for the prefixes of one list, as the loop of `do_SubscribeCOV` walks it. */
  lemma PlanStep(objs: seq<ObjectId>, i: nat, firstId: nat, address: Address, confirmed: bool, lifetime: int)
    requires i < |objs|
    ensures PlannedContexts(objs[..i + 1], firstId, address, confirmed, lifetime)
         == PlannedContexts(objs[..i], firstId, address, confirmed, lifetime)
            + (if IsDevice(objs[i]) then []
               else [SubscriptionContext(address, firstId + |PlannedContexts(objs[..i], firstId, address, confirmed, lifetime)|,
                                         objs[i], confirmed, lifetime)])
  {
    assert objs[..i + 1] == objs[..i] + [objs[i]];
    PlanSnoc(objs[..i], objs[i], firstId, address, confirmed, lifetime);
  }

  lemma RequestsSnoc(ctxs: seq<SubscriptionContext>, ctx: SubscriptionContext, propertyRequest: bool)
    ensures SubscribeRequests(ctxs + [ctx], propertyRequest)
         == SubscribeRequests(ctxs, propertyRequest) + [SubscribeRequest(ctx, propertyRequest)]
  {
    assert (ctxs + [ctx])[..|ctxs|] == ctxs;
  }

  /**
   * A subscribe pass as `do_SubscribeCOV` starts it: the object list, the
   * counter, the target's address, the configuration, and the table and
   * requests that existed before.
   */
  datatype Pass = Pass(objs: seq<ObjectId>, firstId: nat, address: Address, confirmed: bool, lifetime: int,
                       propertyRequest: bool, contexts: map<nat, SubscriptionContext>, outbox: seq<Request>)

  /**
   * The state of a pass after its first `i` objects: contexts registered
   * and requests sent for exactly those objects, earlier entries untouched.
   */
  predicate PassedUpTo(pass: Pass, i: nat, outbox: seq<Request>, nextProcId: nat,
                       contexts: map<nat, SubscriptionContext>)
  {
    && i <= |pass.objs|
    && var done := PlannedContexts(pass.objs[..i], pass.firstId, pass.address, pass.confirmed, pass.lifetime);
    && outbox == pass.outbox + SubscribeRequests(done, pass.propertyRequest)
    && nextProcId == pass.firstId + |done|
    && AllRegistered(contexts, done)
    && Extends(pass.contexts, contexts)
  }

  /** A device object is skipped: nothing is registered or sent. */
  lemma PassSkip(pass: Pass, i: nat, outbox: seq<Request>, nextProcId: nat,
                 contexts: map<nat, SubscriptionContext>)
    requires PassedUpTo(pass, i, outbox, nextProcId, contexts)
    requires i < |pass.objs| && IsDevice(pass.objs[i])
    ensures PassedUpTo(pass, i + 1, outbox, nextProcId, contexts)
  {
    PlanStep(pass.objs, i, pass.firstId, pass.address, pass.confirmed, pass.lifetime);
    var done := PlannedContexts(pass.objs[..i], pass.firstId, pass.address, pass.confirmed, pass.lifetime);
    assert done + [] == done;
  }

  /**
   * Any other object gets the context numbered by the counter, filed in
   * the table, and its subscribe request is sent.
   */
  lemma PassSubscribe(pass: Pass, i: nat, outbox: seq<Request>, nextProcId: nat,
                      contexts: map<nat, SubscriptionContext>, ctx: SubscriptionContext,
                      contexts': map<nat, SubscriptionContext>)
    requires PassedUpTo(pass, i, outbox, nextProcId, contexts)
    requires i < |pass.objs| && !IsDevice(pass.objs[i])
    requires ctx == SubscriptionContext(pass.address, nextProcId, pass.objs[i], pass.confirmed, pass.lifetime)
    requires contexts' == contexts[nextProcId := ctx] && Extends(contexts, contexts')
    ensures PassedUpTo(pass, i + 1, outbox + [SubscribeRequest(ctx, pass.propertyRequest)], nextProcId + 1, contexts')
  {
    var done := PlannedContexts(pass.objs[..i], pass.firstId, pass.address, pass.confirmed, pass.lifetime);
    PlanStep(pass.objs, i, pass.firstId, pass.address, pass.confirmed, pass.lifetime);
    RegisterNext(contexts, contexts', done, ctx);
    ExtendsTransitive(pass.contexts, contexts, contexts');
    RequestsSnoc(done, ctx, pass.propertyRequest);
  }

  /** Each context of `ctxs` is filed in `contexts` under its identifier. */
  predicate AllRegistered(contexts: map<nat, SubscriptionContext>, ctxs: seq<SubscriptionContext>)
  {
    forall k :: 0 <= k < |ctxs| ==>
      ctxs[k].subscriberProcessId in contexts && contexts[ctxs[k].subscriberProcessId] == ctxs[k]
  }

  /**
   * Filing one more context keeps every registered context registered and
   * registers the new one.
   */
  lemma RegisterNext(before: map<nat, SubscriptionContext>, after: map<nat, SubscriptionContext>,
                     ctxs: seq<SubscriptionContext>, ctx: SubscriptionContext)
    requires AllRegistered(before, ctxs)
    requires Extends(before, after)
    requires ctx.subscriberProcessId in after && after[ctx.subscriberProcessId] == ctx
    ensures AllRegistered(after, ctxs + [ctx])
  {
  }

  class CovApplication {
    // configuration, read once from the environment
    const targetDeviceId: nat
    const issueConfirmed: bool
    const issuePropertyRequest: bool
    const lifetime: int

    /** The process-wide `subscription_contexts` / `next_proc_id` pair. */
    const registry: Registry

    var whoIsRecorded: bool                     // `_request` holds a Who-Is
    var deviceInfoCache: map<nat, Address>
    var objectList: seq<ObjectId>
    var subscriptions: map<ObjectId, bool>
    var outbox: seq<Request>                    // every request sent, in order
    var replies: seq<Reply>                     // responses sent to confirmed notifications
    var delivered: seq<Delivery>                // every `cov_notification` call, in order

    /** A subscribe request whose context is filed under its identifier. */
    ghost predicate Routable(r: Request)
      reads registry
    {
      r.SubscribeCOV? ==>
        && r.subscriberProcessId in registry.contexts
        && registry.contexts[r.subscriberProcessId].address == r.destination
        && registry.contexts[r.subscriberProcessId].monitoredObject == r.monitoredObject
        && !IsDevice(r.monitoredObject)
    }

    /** The requests this client sends: Who-Is only for its target, subscribes only routable. */
    ghost predicate Sendable(r: Request)
      reads registry
    {
      (r.WhoIs? ==> r == WhoIs(targetDeviceId, targetDeviceId)) && Routable(r)
    }

    ghost predicate Valid()
      reads this, registry
    {
      && registry.Valid()
      && (whoIsRecorded <==> WhoIs(targetDeviceId, targetDeviceId) in outbox)
      && (deviceInfoCache != map[] ==> whoIsRecorded)
      && (forall i :: 0 <= i < |outbox| ==> Sendable(outbox[i]))
      && (forall o :: o in subscriptions ==>
            exists id :: id in registry.contexts && registry.contexts[id].monitoredObject == o)
      && (forall i :: 0 <= i < |delivered| ==>
            Route(registry.contexts, delivered[i].notification) == Some(delivered[i].context))
      && (forall i :: 0 <= i < |replies| ==> Route(registry.contexts, replies[i].to).Some?)
    }

    constructor (registry: Registry, targetDeviceId: nat, issueConfirmed: bool,
                 issuePropertyRequest: bool, lifetime: int)
      requires registry.Valid()
      ensures Valid()
      ensures this.registry == registry && this.targetDeviceId == targetDeviceId
      ensures this.issueConfirmed == issueConfirmed && this.issuePropertyRequest == issuePropertyRequest
      ensures this.lifetime == lifetime
      ensures !whoIsRecorded && deviceInfoCache == map[] && objectList == [] && subscriptions == map[]
      ensures outbox == [] && replies == [] && delivered == []
    {
      this.registry := registry;
      this.targetDeviceId := targetDeviceId;
      this.issueConfirmed := issueConfirmed;
      this.issuePropertyRequest := issuePropertyRequest;
      this.lifetime := lifetime;
      whoIsRecorded := false;
      deviceInfoCache := map[];
      objectList := [];
      subscriptions := map[];
      outbox, replies, delivered := [], [], [];
    }

    /**
     * `request`: note a Who-Is as the pending request, then hand the APDU to
     * the stack.  Every request the client issues passes through here.
     */
    method Request(r: Request)
      requires Valid() && Sendable(r)
      modifies this`outbox, this`whoIsRecorded
      ensures Valid()
      ensures outbox == old(outbox) + [r]
      ensures whoIsRecorded == (old(whoIsRecorded) || r.WhoIs?)
    {
      if r.WhoIs? {
        whoIsRecorded := true;
      }
      outbox := outbox + [r];
    }

    /** `do_RequestDeviceAddress`: broadcast a Who-Is limited to the target instance. */
    method DoRequestDeviceAddress()
      requires Valid()
      modifies this`outbox, this`whoIsRecorded
      ensures Valid()
      ensures outbox == old(outbox) + [WhoIs(targetDeviceId, targetDeviceId)]
      ensures whoIsRecorded
    {
      Request(WhoIs(targetDeviceId, targetDeviceId));
    }

    /** `do_RequestObjectList`: read the target device's object list at its cached address. */
    method DoRequestObjectList()
      requires Valid()
      requires targetDeviceId in deviceInfoCache
      modifies this`outbox, this`whoIsRecorded
      ensures Valid()
      ensures outbox == old(outbox) + [ReadProperty(old(deviceInfoCache)[targetDeviceId],
                                                    ObjectId(DeviceType, targetDeviceId), ObjectList)]
      ensures whoIsRecorded == old(whoIsRecorded)
    {
      Request(ReadProperty(deviceInfoCache[targetDeviceId], ObjectId(DeviceType, targetDeviceId), ObjectList));
    }

    /**
     * `do_SubscribeCOV`: for each object of the list, in order, skip a device
     * object; otherwise create a context (which registers itself) and send
     * the subscribe request carrying its identifier.
     */
    method DoSubscribeCOV()
      requires Valid()
      requires targetDeviceId in deviceInfoCache
      modifies this`outbox, this`whoIsRecorded, registry
      ensures Valid()
      ensures var ctxs := PlannedContexts(old(objectList), old(registry.nextProcId),
                                          old(deviceInfoCache)[targetDeviceId], issueConfirmed, lifetime);
        && outbox == old(outbox) + SubscribeRequests(ctxs, issuePropertyRequest)
        && registry.nextProcId == old(registry.nextProcId) + |ctxs|
        && AllRegistered(registry.contexts, ctxs)
      ensures Extends(old(registry.contexts), registry.contexts)
      ensures whoIsRecorded == old(whoIsRecorded)
    {
      var pass := Pass(objectList, registry.nextProcId, deviceInfoCache[targetDeviceId], issueConfirmed,
                       lifetime, issuePropertyRequest, registry.contexts, outbox);
      var i := 0;
      while i < |pass.objs|
        invariant InPass(pass, i, old(whoIsRecorded))
      {
        SubscribeNext(pass, i, old(whoIsRecorded));
        i := i + 1;
      }
      assert pass.objs[..i] == pass.objs;
    }

    /** The client during a subscribe pass `pass` that has handled its first `i` objects. */
    ghost predicate InPass(pass: Pass, i: nat, whoIs: bool)
      reads this, registry
    {
      && Valid()
      && whoIsRecorded == whoIs
      && pass.confirmed == issueConfirmed && pass.lifetime == lifetime
      && pass.propertyRequest == issuePropertyRequest
      && PassedUpTo(pass, i, outbox, registry.nextProcId, registry.contexts)
    }

    /** One turn of the loop in `do_SubscribeCOV`: skip a device object, subscribe to any other. */
    method SubscribeNext(pass: Pass, i: nat, ghost whoIs: bool)
      requires InPass(pass, i, whoIs) && i < |pass.objs|
      modifies this`outbox, this`whoIsRecorded, registry
      ensures InPass(pass, i + 1, whoIs)
    {
      var obj := pass.objs[i];
      if IsDevice(obj) {
        PassSkip(pass, i, outbox, registry.nextProcId, registry.contexts);
      } else {
        ghost var outbox0, next0, contexts0 := outbox, registry.nextProcId, registry.contexts;
        var ctx := SubscribeObject(pass.address, obj);
        PassSubscribe(pass, i, outbox0, next0, contexts0, ctx, registry.contexts);
      }
    }

    /** The context constructor as `do_SubscribeCOV` calls it: register, keeping the client's invariant. */
    method NewSubscriptionContext(address: Address, obj: ObjectId) returns (ctx: SubscriptionContext)
      requires Valid()
      modifies registry
      ensures Valid()
      ensures ctx == SubscriptionContext(address, old(registry.nextProcId), obj, issueConfirmed, lifetime)
      ensures registry.nextProcId == old(registry.nextProcId) + 1
      ensures registry.contexts == old(registry.contexts)[ctx.subscriberProcessId := ctx]
      ensures ctx.subscriberProcessId !in old(registry.contexts)
      ensures Extends(old(registry.contexts), registry.contexts)
    {
      ghost var before := registry.contexts;
      ctx := registry.NewContext(address, obj, issueConfirmed, lifetime);
      forall i | 0 <= i < |outbox| ensures Sendable(outbox[i]) {
        assert old(Sendable(outbox[i]));
      }
      forall o | o in subscriptions
        ensures exists id :: id in registry.contexts && registry.contexts[id].monitoredObject == o
      {
        var id :| id in before && before[id].monitoredObject == o;
        assert registry.contexts[id] == before[id];
      }
      forall i | 0 <= i < |delivered|
        ensures Route(registry.contexts, delivered[i].notification) == Some(delivered[i].context)
      {
        RouteStable(before, registry.contexts, delivered[i].notification);
      }
      forall i | 0 <= i < |replies| ensures Route(registry.contexts, replies[i].to).Some? {
        RouteStable(before, registry.contexts, replies[i].to);
      }
    }

    /**
     * One non-device object of `do_SubscribeCOV`: create (and so register)
     * its context, then send the subscribe request carrying the context's
     * identifier to the target's address.
     */
    method SubscribeObject(address: Address, obj: ObjectId) returns (ctx: SubscriptionContext)
      requires Valid()
      requires !IsDevice(obj)
      modifies this`outbox, this`whoIsRecorded, registry
      ensures Valid()
      ensures ctx == SubscriptionContext(address, old(registry.nextProcId), obj, issueConfirmed, lifetime)
      ensures registry.nextProcId == old(registry.nextProcId) + 1
      ensures registry.contexts == old(registry.contexts)[ctx.subscriberProcessId := ctx]
      ensures Extends(old(registry.contexts), registry.contexts)
      ensures outbox == old(outbox) + [SubscribeRequest(ctx, issuePropertyRequest)]
      ensures whoIsRecorded == old(whoIsRecorded)
    {
      ctx := NewSubscriptionContext(address, obj);
      Request(SubscribeRequest(ctx, issuePropertyRequest));
    }

    /**
     * `object_list_results`: an error or a response other than a
     * ReadProperty acknowledgement leaves the object list as it was (the next
     * tick asks again); an acknowledgement replaces it with the decoded list.
     */
    method ObjectListResults(outcome: IoOutcome)
      requires Valid()
      modifies this`objectList
      ensures Valid()
      ensures objectList == if outcome.ReadPropertyAck? then outcome.objectList else old(objectList)
    {
      if outcome.IoError? {
        return;
      }
      if !outcome.ReadPropertyAck? {
        return;
      }
      objectList := outcome.objectList;
    }

    /**
     * `cov_results`: the subscription of the context's object is marked
     * failed on an error and succeeded on a simple acknowledgement; any other
     * response leaves `subscriptions` as it was.  The context is one that
     * `do_SubscribeCOV` registered, since only its IOCBs carry this callback.
     */
    method CovResults(ctx: SubscriptionContext, outcome: IoOutcome)
      requires Valid()
      requires ctx.subscriberProcessId in registry.contexts && registry.contexts[ctx.subscriberProcessId] == ctx
      modifies this`subscriptions
      ensures Valid()
      ensures subscriptions == match outcome
        case IoError => old(subscriptions)[ctx.monitoredObject := false]
        case SimpleAckResponse => old(subscriptions)[ctx.monitoredObject := true]
        case _ => old(subscriptions)
    {
      if outcome.IoError? {
        subscriptions := subscriptions[ctx.monitoredObject := false];
        return;
      }
      if !outcome.SimpleAckResponse? {
        return;
      }
      subscriptions := subscriptions[ctx.monitoredObject := true];
    }

    /**
     * `indication`: once a Who-Is has been sent, an I-Am from a device is
     * cached under the instance it announces, whichever instance that is; an
     * I-Am for a non-device object raises a decoding error; anything else,
     * or anything before a Who-Is, changes nothing.
     */
    method Indication(apdu: Indication) returns (result: IndicationResult)
      requires Valid()
      modifies this`deviceInfoCache
      ensures Valid()
      ensures result.DecodingError? <==> old(whoIsRecorded) && apdu.IAm? && apdu.deviceType != DeviceType
      ensures deviceInfoCache ==
        if old(whoIsRecorded) && apdu.IAm? && apdu.deviceType == DeviceType
        then old(deviceInfoCache)[apdu.instance := apdu.source]
        else old(deviceInfoCache)
    {
      result := Accepted;
      if !whoIsRecorded {
        return;
      }
      if apdu.IAm? {
        if apdu.deviceType != DeviceType {
          return DecodingError("invalid object type");
        }
        deviceInfoCache := deviceInfoCache[apdu.instance := apdu.source];
      }
    }

    /**
     * `do_ConfirmedCOVNotificationRequest`: a notification that routes to no
     * context raises `unknownSubscription` and delivers nothing; otherwise
     * the context receives it once and a simple acknowledgement is sent.
     */
    method ConfirmedCOVNotification(n: Notification) returns (result: NotificationResult)
      requires Valid()
      modifies this`delivered, this`replies
      ensures Valid()
      ensures Route(registry.contexts, n).None? ==>
        && result == ExecutionError("services", "unknownSubscription")
        && delivered == old(delivered) && replies == old(replies)
      ensures Route(registry.contexts, n).Some? ==>
        && result == Acknowledged
        && delivered == old(delivered) + [Delivery(Route(registry.contexts, n).value, n)]
        && replies == old(replies) + [SimpleAck(n)]
    {
      if n.subscriberProcessId !in registry.contexts
         || n.source != registry.contexts[n.subscriberProcessId].address {
        return ExecutionError("services", "unknownSubscription");
      }
      var context := registry.contexts[n.subscriberProcessId];
      delivered := delivered + [Delivery(context, n)];
      replies := replies + [SimpleAck(n)];
      result := Acknowledged;
    }

    /**
     * `do_UnconfirmedCOVNotificationRequest`: a notification that routes to
     * no context is dropped; otherwise the context receives it once.  No
     * response is ever sent.
     */
    method UnconfirmedCOVNotification(n: Notification) returns (wasDelivered: bool)
      requires Valid()
      modifies this`delivered
      ensures Valid()
      ensures wasDelivered == Route(registry.contexts, n).Some?
      ensures delivered == if wasDelivered
        then old(delivered) + [Delivery(Route(registry.contexts, n).value, n)]
        else old(delivered)
    {
      if n.subscriberProcessId !in registry.contexts
         || n.source != registry.contexts[n.subscriberProcessId].address {
        return false;
      }
      var context := registry.contexts[n.subscriberProcessId];
      delivered := delivered + [Delivery(context, n)];
      wasDelivered := true;
    }

    /**
     * `do_RunTasks`: exactly one stage per tick, picked in priority order;
     * the engine's own state is never changed by a tick, only requests and
     * registered contexts are added.  Since `subscriptions` is only filled by
     * subscribe results, a tick before any result (or after only responses
     * that are neither acknowledgement nor error) subscribes again.
     */
    method DoRunTasks() returns (stage: Stage)
      requires Valid()
      modifies this`outbox, this`whoIsRecorded, registry
      ensures Valid()
      ensures stage == TickStage(deviceInfoCache, targetDeviceId, objectList, subscriptions)
      ensures stage == Discover ==>
        outbox == old(outbox) + [WhoIs(targetDeviceId, targetDeviceId)] && whoIsRecorded
      ensures stage == Enumerate ==>
        outbox == old(outbox) + [ReadProperty(old(deviceInfoCache)[targetDeviceId],
                                              ObjectId(DeviceType, targetDeviceId), ObjectList)]
      ensures stage == Subscribe ==>
        var ctxs := PlannedContexts(old(objectList), old(registry.nextProcId),
                                    old(deviceInfoCache)[targetDeviceId], issueConfirmed, lifetime);
        && outbox == old(outbox) + SubscribeRequests(ctxs, issuePropertyRequest)
        && registry.nextProcId == old(registry.nextProcId) + |ctxs|
        && AllRegistered(registry.contexts, ctxs)
      ensures stage != Subscribe ==>
        registry.contexts == old(registry.contexts) && registry.nextProcId == old(registry.nextProcId)
      ensures stage == Steady ==> outbox == old(outbox)
      ensures Extends(old(registry.contexts), registry.contexts)
      ensures stage != Discover ==> whoIsRecorded == old(whoIsRecorded)
    {
      stage := TickStage(deviceInfoCache, targetDeviceId, objectList, subscriptions);
      if targetDeviceId !in deviceInfoCache {
        DoRequestDeviceAddress();
      } else if |objectList| == 0 {
        DoRequestObjectList();
      } else if |subscriptions.Keys| == 0 {
        DoSubscribeCOV();
      }
    }
  }

  /**
   * `indication` caches an I-Am for any instance, but only the target's own
   * I-Am makes its address known: after an I-Am for another instance the
   * next tick still asks for the target's address.
   */
  lemma OtherInstanceKeepsDiscovering(cache: map<nat, Address>, target: nat, apdu: Indication,
                                      objectList: seq<ObjectId>, subscriptions: map<ObjectId, bool>)
    requires target !in cache && apdu.IAm? && apdu.instance != target
    ensures TickStage(cache[apdu.instance := apdu.source], target, objectList, subscriptions) == Discover
  {
  }

  /**
   * A device object followed by one other object: one context is planned,
   * for the other object, under the first identifier.
   */
  lemma {:induction false} PlanSkipsDevice(device: ObjectId, obj: ObjectId, firstId: nat, address: Address,
                                           confirmed: bool, lifetime: int)
    requires IsDevice(device) && !IsDevice(obj)
    ensures PlannedContexts([device, obj], firstId, address, confirmed, lifetime)
         == [SubscriptionContext(address, firstId, obj, confirmed, lifetime)]
  {
    assert [device] == [] + [device] && [device, obj] == [device] + [obj];
    PlanSnoc([], device, firstId, address, confirmed, lifetime);
    PlanSnoc([device], obj, firstId, address, confirmed, lifetime);
    assert PlannedContexts([device], firstId, address, confirmed, lifetime) == [];
  }

  /**
   * An I-Am for another instance, answered while the target is still
   * unknown, is cached, and the next tick broadcasts another Who-Is for the
   * target.
   */
  method OtherInstanceThenTick(app: CovApplication, source: Address, instance: nat) returns (stage: Stage)
    requires app.Valid() && app.whoIsRecorded
    requires app.targetDeviceId !in app.deviceInfoCache && instance != app.targetDeviceId
    modifies app`deviceInfoCache, app`outbox, app`whoIsRecorded, app.registry
    ensures app.deviceInfoCache == old(app.deviceInfoCache)[instance := source]
    ensures stage == Discover
    ensures app.outbox == old(app.outbox) + [WhoIs(app.targetDeviceId, app.targetDeviceId)]
  {
    var accepted := app.Indication(IAm(source, DeviceType, instance));
    stage := app.DoRunTasks();
  }

  /**
   * A client for device 10 that has found the device at `Address(7)` and
   * read its object list, the device itself and one analog input, with no
   * subscribe result in yet.
   */
  method ClientWithObjectList() returns (app: CovApplication)
    ensures fresh(app) && fresh(app.registry) && app.Valid()
    ensures app.targetDeviceId == 10 && !app.issueConfirmed && !app.issuePropertyRequest && app.lifetime == 0
    ensures app.deviceInfoCache == map[10 := Address(7)] && app.subscriptions == map[]
    ensures app.objectList == [ObjectId(DeviceType, 10), ObjectId(AnalogInputType, 1)]
    ensures app.registry.nextProcId == 1
  {
    var registry := new Registry();
    app := new CovApplication(registry, 10, false, false, 0);
    var stage := app.DoRunTasks();
    assert stage == Discover && app.whoIsRecorded;
    var accepted := app.Indication(IAm(Address(7), DeviceType, 10));
    stage := app.DoRunTasks();
    assert stage == Enumerate;
    app.ObjectListResults(ReadPropertyAck([ObjectId(DeviceType, 10), ObjectId(AnalogInputType, 1)]));
  }

  /**
   * A tick of that client while no subscribe result has come in: it
   * subscribes to the analog input under the counter's current value.
   */
  method SubscribeTick(app: CovApplication) returns (ctx: SubscriptionContext)
    requires app.Valid() && app.targetDeviceId == 10 && app.subscriptions == map[]
    requires !app.issueConfirmed && app.lifetime == 0 && app.deviceInfoCache == map[10 := Address(7)]
    requires app.objectList == [ObjectId(DeviceType, 10), ObjectId(AnalogInputType, 1)]
    modifies app`outbox, app`whoIsRecorded, app.registry
    ensures app.Valid()
    ensures ctx == SubscriptionContext(Address(7), old(app.registry.nextProcId), ObjectId(AnalogInputType, 1), false, 0)
    ensures app.registry.nextProcId == old(app.registry.nextProcId) + 1
    ensures ctx.subscriberProcessId in app.registry.contexts && app.registry.contexts[ctx.subscriberProcessId] == ctx
    ensures app.outbox == old(app.outbox) + [SubscribeRequest(ctx, app.issuePropertyRequest)]
  {
    ctx := SubscriptionContext(Address(7), app.registry.nextProcId, ObjectId(AnalogInputType, 1), false, 0);
    PlanSkipsDevice(ObjectId(DeviceType, 10), ObjectId(AnalogInputType, 1), ctx.subscriberProcessId, Address(7), false, 0);
    var stage := app.DoRunTasks();
    assert [ctx][0] == ctx;
  }

  /**
   * Ticks that come before any subscribe result subscribe again: with the
   * client above, two ticks subscribe to the same analog input twice, under
   * identifiers 1 and 2.
   */
  method DuplicateSubscriptionRun() returns (first: SubscriptionContext, second: SubscriptionContext)
    ensures first.monitoredObject == second.monitoredObject == ObjectId(AnalogInputType, 1)
    ensures first.subscriberProcessId == 1 && second.subscriberProcessId == 2
  {
    var app := ClientWithObjectList();
    first := SubscribeTick(app);
    second := SubscribeTick(app);
  }
}
